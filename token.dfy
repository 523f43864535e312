/** Tokens produced by the tokenizer and the syntax error it reports. */
module Tokens {
  import Operators
  import Brackets

  /** A number keeps the exact text it was read from. */
  datatype Token =
    | Number(symbol: string)
    | Op(op: Operators.Operator)
    | Paren(b: Brackets.Bracket)
  {
    function String(): string {
      match this
      case Number(s) => s
      case Op(o) => o.String()
      case Paren(b) => b.String()
    }
  }

  /** The text of a token sequence: each token's symbol, in order. */
  function Render(ts: seq<Token>): string
    decreases |ts|
  {
    if |ts| == 0 then "" else Render(ts[..|ts| - 1]) + ts[|ts| - 1].String()
  }

  lemma RenderAppend(ts: seq<Token>, t: Token)
    ensures Render(ts + [t]) == Render(ts) + t.String()
  {
    assert (ts + [t])[..|ts|] == ts;
  }

  function NewNumber(symbol: string): (t: Token)
    ensures t.String() == symbol
  {
    Number(symbol)
  }

  /** The kinds of syntax error; each has its own message template. */
  datatype ErrorKind =
    | UnknownSymbol
    | MultipleDecimal
    | LoneDecimal
    | UnmatchedRightParen
    | UnmatchedLeftParen
    | EmptyParen
    | NoRightOperand
    | NoLeftOperand

  /** The offending token text and its rune index; the message is determined
      by the kind, the token and the position. */
  datatype SyntaxError = SyntaxError(kind: ErrorKind, token: string, position: int)
}
