/** The expression tokenizer (tokenizer.go): a rune-level state machine that
    builds one lexeme at a time, commits it as a token, inserts implicit
    multiplication and reports the first syntax error it meets.

    The pure functions below give the meaning of each handler on a snapshot
    of the tokenizer's fields; the class `Tokenizer` updates those fields in
    place and each of its methods is proved to do what the function says. */
module Tokenizer {
  import opened Wrappers
  import opened Operators
  import opened Registry
  import opened Tokens
  import B = Brackets

  /** What the pending lexeme is: nothing yet, a number, a lone decimal
      point, a bracket or an operator in one of its three roles. */
  datatype State =
    | Nothing
    | Integer
    | DecimalPoint
    | Decimal
    | LeftParen
    | RightParen
    | BinaryOp
    | LeftUnaryOp
    | RightUnaryOp

  /** A snapshot of the tokenizer's mutable fields: the emitted tokens, the
      state and text of the pending lexeme, the rune index and the depth log. */
  datatype Machine = Machine(tokens: seq<Token>, state: State, symbol: string, index: int, log: seq<B.BracketDepth>)

  /** The machine a tokenization starts from; earlier tokens are kept. */
  function Start(prior: seq<Token>): Machine {
    Machine(prior, Nothing, "", 0, [])
  }

  function ImplicitMultiplication(): Token {
    Op(NewOperator(Multiplication))
  }

  /** A pending operator lexeme starts with a rune whose lookup for its role
      succeeds, so committing it yields an operator. */
  predicate CommitReady(reg: TokenRegistry, state: State, symbol: string) {
    match state
    case LeftUnaryOp =>
      |symbol| > 0 && GetOperator(reg.operators, symbol[0], [Some(IsRightAssocOp), Some(IsUnaryOp)]).Some?
    case BinaryOp =>
      |symbol| > 0 && GetOperator(reg.operators, symbol[0], [Some(IsBinaryOp)]).Some?
    case RightUnaryOp =>
      |symbol| > 0 && GetOperator(reg.operators, symbol[0], [Some(IsLeftAssocOp), Some(IsUnaryOp)]).Some?
    case _ => true
  }

  /** The token that committing the pending lexeme emits, if any. */
  function CommitToken(reg: TokenRegistry, state: State, symbol: string): (t: seq<Token>)
    requires CommitReady(reg, state, symbol)
    ensures |t| <= 1
    ensures t == [] <==> state == Nothing || state == DecimalPoint
  {
    match state
    case Integer => [NewNumber(symbol)]
    case Decimal => [NewNumber(symbol)]
    case LeftParen => [Paren(B.LeftParen)]
    case RightParen => [Paren(B.RightParen)]
    case LeftUnaryOp =>
      [Op(GetOperator(reg.operators, symbol[0], [Some(IsRightAssocOp), Some(IsUnaryOp)]).value)]
    case BinaryOp =>
      [Op(GetOperator(reg.operators, symbol[0], [Some(IsBinaryOp)]).value)]
    case RightUnaryOp =>
      [Op(GetOperator(reg.operators, symbol[0], [Some(IsLeftAssocOp), Some(IsUnaryOp)]).value)]
    case Nothing => []
    case DecimalPoint => []
  }

  /** commitCurrentState: emit the pending token and clear the lexeme text;
      the state is left as it was. */
  function Commit(reg: TokenRegistry, m: Machine): (c: Machine)
    requires CommitReady(reg, m.state, m.symbol)
    ensures |m.tokens| <= |c.tokens| <= |m.tokens| + 1 && c.tokens[..|m.tokens|] == m.tokens
    ensures c.symbol == "" && c.state == m.state && c.index == m.index && c.log == m.log
  {
    m.(tokens := m.tokens + CommitToken(reg, m.state, m.symbol), symbol := "")
  }

  /** handleDigit (never fails). */
  function DigitStep(reg: TokenRegistry, m: Machine, r: char): (n: Machine)
    requires CommitReady(reg, m.state, m.symbol)
    ensures CommitReady(reg, n.state, n.symbol)
  {
    if m.state == DecimalPoint then
      m.(symbol := m.symbol + [r], state := Decimal)
    else if m.state == Integer || m.state == Decimal then
      m.(symbol := m.symbol + [r])
    else
      var c := Commit(reg, m);
      var ts := if c.state == RightParen || c.state == RightUnaryOp then c.tokens + [ImplicitMultiplication()] else c.tokens;
      c.(tokens := ts, symbol := c.symbol + [r], state := Integer)
  }

  /** handleDecimalPoint. */
  function DecimalPointStep(reg: TokenRegistry, m: Machine, r: char): (res: Result<Machine, SyntaxError>)
    requires CommitReady(reg, m.state, m.symbol)
    ensures res.Ok? ==> CommitReady(reg, res.value.state, res.value.symbol)
  {
    if m.state == Decimal || m.state == DecimalPoint then
      Err(SyntaxError(MultipleDecimal, [r], m.index))
    else if m.state == Integer then
      Ok(m.(symbol := m.symbol + [r], state := Decimal))
    else
      var c := Commit(reg, m);
      var ts := if c.state == RightParen || c.state == RightUnaryOp then c.tokens + [ImplicitMultiplication()] else c.tokens;
      Ok(c.(tokens := ts, symbol := c.symbol + [r], state := DecimalPoint))
  }

  /** handleLeftParen: also records the bracket one level deeper in the log. */
  function LeftParenStep(reg: TokenRegistry, m: Machine, r: char): (res: Result<Machine, SyntaxError>)
    requires CommitReady(reg, m.state, m.symbol)
    ensures res.Ok? ==> CommitReady(reg, res.value.state, res.value.symbol)
  {
    if m.state == DecimalPoint then
      Err(SyntaxError(LoneDecimal, ".", m.index - 1))
    else
      var c := Commit(reg, m);
      var ts := if c.state == Integer || c.state == Decimal || c.state == RightParen || c.state == RightUnaryOp
        then c.tokens + [ImplicitMultiplication()] else c.tokens;
      var entry := B.BracketDepth(c.index, B.LogDepth(c.log) + 1, B.LeftParen);
      Ok(c.(tokens := ts, symbol := c.symbol + [r], state := LeftParen, log := c.log + [entry]))
  }

  /** handleRightParen: also records the bracket one level shallower in the log. */
  function RightParenStep(reg: TokenRegistry, m: Machine, r: char): (res: Result<Machine, SyntaxError>)
    requires CommitReady(reg, m.state, m.symbol)
    ensures res.Ok? ==> CommitReady(reg, res.value.state, res.value.symbol)
  {
    if B.LogDepth(m.log) == 0 then
      Err(SyntaxError(UnmatchedRightParen, ")", m.index))
    else if m.state == DecimalPoint then
      Err(SyntaxError(LoneDecimal, ".", m.index - 1))
    else if m.state == LeftParen then
      Err(SyntaxError(EmptyParen, ")", m.index))
    else if m.state == LeftUnaryOp || m.state == BinaryOp then
      Err(SyntaxError(NoRightOperand, m.symbol, m.index - 1))
    else
      var c := Commit(reg, m);
      var entry := B.BracketDepth(c.index, B.LogDepth(c.log) - 1, B.RightParen);
      Ok(c.(symbol := c.symbol + [r], state := RightParen, log := c.log + [entry]))
  }

  /** handleOperator: a sign where no operand precedes, otherwise a postfix or
      binary operator, which needs a left operand. */
  function OperatorStep(reg: TokenRegistry, m: Machine, r: char): (res: Result<Machine, SyntaxError>)
    requires CommitReady(reg, m.state, m.symbol)
    ensures res.Ok? ==> CommitReady(reg, res.value.state, res.value.symbol)
  {
    if m.state == DecimalPoint then
      Err(SyntaxError(LoneDecimal, ".", m.index - 1))
    else
      var lunOk := GetOperator(reg.operators, r, [Some(IsUnaryOp), Some(IsRightAssocOp)]).Some?;
      if lunOk && (m.state == Nothing || m.state == LeftParen || m.state == BinaryOp || m.state == LeftUnaryOp) then
        var c := Commit(reg, m);
        SwappedFiltersAgree(reg.operators, r, Some(IsUnaryOp), Some(IsRightAssocOp));
        Ok(c.(state := LeftUnaryOp, symbol := c.symbol + [r]))
      else
        var binOk := GetOperator(reg.operators, r, [Some(IsBinaryOp)]).Some?;
        var runOk := GetOperator(reg.operators, r, [Some(IsUnaryOp), Some(IsLeftAssocOp)]).Some?;
        if !(binOk || runOk) then
          Err(SyntaxError(NoRightOperand, [r], m.index))
        else if m.state == LeftParen || m.state == LeftUnaryOp || m.state == BinaryOp then
          Err(SyntaxError(NoLeftOperand, [r], m.index))
        else
          var c := Commit(reg, m);
          SwappedFiltersAgree(reg.operators, r, Some(IsUnaryOp), Some(IsLeftAssocOp));
          Ok(c.(symbol := c.symbol + [r], state := if runOk then RightUnaryOp else BinaryOp))
  }

  /** The dispatch of one rune by its class; whitespace changes nothing and
      an unrecognised rune is an error at its index. */
  function Handle(reg: TokenRegistry, m: Machine, r: char): (res: Result<Machine, SyntaxError>)
    requires CommitReady(reg, m.state, m.symbol)
    ensures res.Ok? ==> CommitReady(reg, res.value.state, res.value.symbol)
  {
    if reg.IsDigit(r) then Ok(DigitStep(reg, m, r))
    else if reg.IsDecimalPoint(r) then DecimalPointStep(reg, m, r)
    else if reg.IsLeftBracket(r) then LeftParenStep(reg, m, r)
    else if reg.IsRightBracket(r) then RightParenStep(reg, m, r)
    else if reg.IsOperator(r) then OperatorStep(reg, m, r)
    else if reg.IsWhitespace(r) then Ok(m)
    else Err(SyntaxError(UnknownSymbol, [r], m.index))
  }

  /** One iteration of the tokenize loop: dispatch the rune and, on success,
      advance the rune index. */
  function Step(reg: TokenRegistry, m: Machine, r: char): (res: Result<Machine, SyntaxError>)
    requires CommitReady(reg, m.state, m.symbol)
    ensures res.Ok? ==> CommitReady(reg, res.value.state, res.value.symbol)
    ensures res.Ok? ==> res.value.index == m.index + 1
  {
    match Handle(reg, m, r)
    case Ok(n) => Ok(n.(index := n.index + 1))
    case Err(e) => Err(e)
  }

  /** The outcome of the tokenize loop: the machine after the last rune, or
      the machine as it stood when the first error was found. */
  datatype RunResult = Done(last: Machine) | Failed(at: Machine, error: SyntaxError)

  function Run(reg: TokenRegistry, m: Machine, input: string): (res: RunResult)
    requires CommitReady(reg, m.state, m.symbol)
    ensures res.Done? ==> CommitReady(reg, res.last.state, res.last.symbol)
    ensures res.Failed? ==> CommitReady(reg, res.at.state, res.at.symbol)
    decreases |input|
  {
    if |input| == 0 then Done(m)
    else
      match Step(reg, m, input[0])
      case Err(e) => Failed(m, e)
      case Ok(n) => Run(reg, n, input[1..])
  }

  /** Step in terms of the handler: the handler's machine with the index
      advanced, or the handler's error. */
  lemma StepOfHandle(reg: TokenRegistry, m: Machine, r: char)
    requires CommitReady(reg, m.state, m.symbol)
    ensures Handle(reg, m, r).Ok? ==>
      Step(reg, m, r) == Ok(Handle(reg, m, r).value.(index := Handle(reg, m, r).value.index + 1))
    ensures Handle(reg, m, r).Err? ==> Step(reg, m, r) == Err(Handle(reg, m, r).error)
  {
  }

  /** A non-empty run is one step followed by the run of the rest. */
  lemma RunUnfold(reg: TokenRegistry, m: Machine, s: string)
    requires CommitReady(reg, m.state, m.symbol)
    requires |s| > 0
    ensures Step(reg, m, s[0]).Ok? ==> Run(reg, m, s) == Run(reg, Step(reg, m, s[0]).value, s[1..])
    ensures Step(reg, m, s[0]).Err? ==> Run(reg, m, s) == Failed(m, Step(reg, m, s[0]).error)
  {
  }

  lemma SuffixFirst(input: string, i: nat)
    requires i < |input|
    ensures input[i..][0] == input[i] && input[i..][1..] == input[i + 1..]
  {
  }

  /** A run from rune `i` whose step succeeds continues from rune `i + 1`. */
  lemma RunCons(reg: TokenRegistry, m: Machine, input: string, i: nat, n: Machine)
    requires CommitReady(reg, m.state, m.symbol)
    requires i < |input| && Step(reg, m, input[i]) == Ok(n)
    ensures Run(reg, m, input[i..]) == Run(reg, n, input[i + 1..])
  {
    SuffixFirst(input, i);
    RunUnfold(reg, m, input[i..]);
  }

  /** A run from rune `i` whose step fails stops there with that error. */
  lemma RunHalts(reg: TokenRegistry, m: Machine, input: string, i: nat, e: SyntaxError)
    requires CommitReady(reg, m.state, m.symbol)
    requires i < |input| && Step(reg, m, input[i]) == Err(e)
    ensures Run(reg, m, input[i..]) == Failed(m, e)
  {
    SuffixFirst(input, i);
    RunUnfold(reg, m, input[i..]);
  }

  /** One turn of the tokenize loop, as the handler applied it: either the
      run stops at rune `i` with the handler's error, or it continues from
      the handler's machine with the index advanced. */
  lemma RunAfterHandle(reg: TokenRegistry, before: Machine, after: Machine, expr: string, i: nat, err: Option<SyntaxError>)
    requires CommitReady(reg, before.state, before.symbol)
    requires i < |expr|
    requires Applied(Handle(reg, before, expr[i]), before, after, err)
    ensures err.Some? ==> Run(reg, before, expr[i..]) == Failed(before, err.value)
    ensures err.None? ==> CommitReady(reg, after.state, after.symbol)
    ensures err.None? ==> Run(reg, before, expr[i..]) == Run(reg, after.(index := after.index + 1), expr[i + 1..])
  {
    StepOfHandle(reg, before, expr[i]);
    if err.Some? {
      RunHalts(reg, before, expr, i, err.value);
    } else {
      RunCons(reg, before, expr, i, after.(index := after.index + 1));
    }
  }

  /** What Tokenize returns: the tokens after committing the last lexeme, or
      the first error. The end-of-input checks are not applied. */
  function Tokenized(reg: TokenRegistry, prior: seq<Token>, expr: string): Result<seq<Token>, SyntaxError> {
    match Run(reg, Start(prior), expr)
    case Done(m) => Ok(Commit(reg, m).tokens)
    case Failed(_, e) => Err(e)
  }

  /** validateFinalState on a snapshot: a lone point or an operator still
      waiting for its right operand is reported at the rune before the
      index; otherwise a positive depth is an unclosed bracket, reported at
      the index the backward scan finds. The run ends cleanly exactly when
      neither applies. */
  function FinalCheck(m: Machine): (err: Option<SyntaxError>)
    ensures err.None? <==> m.state != DecimalPoint && m.state != LeftUnaryOp && m.state != BinaryOp && B.LogDepth(m.log) <= 0
    ensures err.Some? && m.state == DecimalPoint ==> err.value.kind == LoneDecimal
  {
    if m.state == DecimalPoint then Some(SyntaxError(LoneDecimal, ".", m.index - 1))
    else if m.state == LeftUnaryOp || m.state == BinaryOp then Some(SyntaxError(NoRightOperand, m.symbol, m.index - 1))
    else if B.LogDepth(m.log) > 0 then
      var k := B.LatestAtDepth(m.log, B.LogDepth(m.log), |m.log|);
      Some(SyntaxError(UnmatchedLeftParen, "(", if k >= 0 then m.log[k].index else 0))
    else None
  }

  /** Tokenize with the end-of-input check applied before the last commit:
      it accepts only what Tokenized accepts, with the same tokens, and
      reports the same first error when the run fails. */
  function TokenizedValidated(reg: TokenRegistry, prior: seq<Token>, expr: string): (res: Result<seq<Token>, SyntaxError>)
    ensures res.Ok? ==> Tokenized(reg, prior, expr) == res
    ensures Tokenized(reg, prior, expr).Err? ==> res == Tokenized(reg, prior, expr)
  {
    match Run(reg, Start(prior), expr)
    case Done(m) => (match FinalCheck(m) case Some(e) => Err(e) case None => Ok(Commit(reg, m).tokens))
    case Failed(_, e) => Err(e)
  }

  /** A handler either succeeded and the fields now hold its result, or it
      failed and no field changed. */
  ghost predicate Applied(res: Result<Machine, SyntaxError>, before: Machine, after: Machine, err: Option<SyntaxError>) {
    match res
    case Ok(m) => after == m && err == None
    case Err(e) => after == before && err == Some(e)
  }

  /** The backward scan of validateFinalState: the rune index of the latest
      log entry whose depth is `d`; 0 when there is none. */
  method IndexAtDepth(log: seq<B.BracketDepth>, d: int) returns (idx: int)
    ensures var k := B.LatestAtDepth(log, d, |log|);
      idx == if k >= 0 then log[k].index else 0
  {
    var i := |log| - 1;
    while i >= 0 && log[i].depth != d
      invariant -1 <= i < |log|
      invariant B.LatestAtDepth(log, d, |log|) == B.LatestAtDepth(log, d, i + 1)
    {
      i := i - 1;
    }
    idx := if i >= 0 then log[i].index else 0;
  }

  class Tokenizer {
    const reg: TokenRegistry
    const parenDepth: B.BracketStack
    var tokens: seq<Token>
    var currState: State
    var currSymbol: string
    var currIndex: int

    function Snapshot(): Machine
      reads this, parenDepth
    {
      Machine(tokens, currState, currSymbol, currIndex, parenDepth.stack)
    }

    predicate Ready()
      reads this
    {
      CommitReady(reg, currState, currSymbol)
    }

    /** NewTokenizer: the default registry and nothing read yet. */
    constructor ()
      ensures reg == DefaultTokenRegistry() && fresh(parenDepth)
      ensures Snapshot() == Start([])
    {
      reg := DefaultTokenRegistry();
      parenDepth := new B.BracketStack();
      tokens := [];
      currState := Nothing;
      currSymbol := "";
      currIndex := 0;
    }

    /** Tokenize: read the runes of `expr` in order, stop at the first error,
        and otherwise commit the last lexeme and return every token emitted
        so far (tokens from earlier calls included). */
    method Tokenize(expr: string) returns (result: Result<seq<Token>, SyntaxError>)
      modifies this, parenDepth
      ensures match Run(reg, Start(old(tokens)), expr)
        case Done(m) => Snapshot() == Commit(reg, m) && result == Ok(Commit(reg, m).tokens)
        case Failed(m, e) => Snapshot() == m && result == Err(e)
    {
      Reset();
      ghost var start := Snapshot();
      var i := 0;
      while i < |expr|
        invariant 0 <= i <= |expr|
        invariant Ready()
        invariant Run(reg, Snapshot(), expr[i..]) == Run(reg, start, expr)
      {
        var err := Advance(expr, i);
        if err.Some? {
          result := Err(err.value);
          return;
        }
        i := i + 1;
      }
      CommitCurrentState();
      result := Ok(tokens);
    }

    /** One turn of the tokenize loop: consume rune `i` and, when that
        succeeds, advance the rune index. The run from rune `i` either stops
        here with the error or goes on from rune `i + 1`. */
    method Advance(expr: string, i: nat) returns (err: Option<SyntaxError>)
      requires Ready() && i < |expr|
      modifies this, parenDepth
      ensures err.Some? ==> Snapshot() == old(Snapshot())
      ensures err.Some? ==> Run(reg, old(Snapshot()), expr[i..]) == Failed(old(Snapshot()), err.value)
      ensures err.None? ==> Ready()
      ensures err.None? ==> Run(reg, old(Snapshot()), expr[i..]) == Run(reg, Snapshot(), expr[i + 1..])
    {
      ghost var before := Snapshot();
      err := Consume(expr[i]);
      ghost var after := Snapshot();
      RunAfterHandle(reg, before, after, expr, i, err);
      if err.None? {
        currIndex := currIndex + 1;
        assert Snapshot() == after.(index := after.index + 1);
      }
    }

    /** The body of the tokenize loop for one rune: the switch over its class. */
    method Consume(r: char) returns (err: Option<SyntaxError>)
      requires Ready()
      modifies this, parenDepth
      ensures Applied(Handle(reg, old(Snapshot()), r), old(Snapshot()), Snapshot(), err)
    {
      err := None;
      if reg.IsDigit(r) {
        err := HandleDigit(r);
      } else if reg.IsDecimalPoint(r) {
        err := HandleDecimalPoint(r);
      } else if reg.IsLeftBracket(r) {
        err := HandleLeftParen(r);
      } else if reg.IsRightBracket(r) {
        err := HandleRightParen(r);
      } else if reg.IsOperator(r) {
        err := HandleOperator(r);
      } else if reg.IsWhitespace(r) {
        // whitespace is skipped
      } else {
        err := Some(SyntaxError(UnknownSymbol, [r], currIndex));
      }
    }

    method HandleDigit(r: char) returns (err: Option<SyntaxError>)
      requires Ready()
      modifies this
      ensures err == None && Snapshot() == DigitStep(reg, old(Snapshot()), r)
    {
      if currState == DecimalPoint {
        currSymbol := currSymbol + [r];
        currState := Decimal;
        return None;
      }
      if currState == Integer || currState == Decimal {
        currSymbol := currSymbol + [r];
        return None;
      }
      CommitCurrentState();
      if currState == RightParen || currState == RightUnaryOp {
        AppendToken(ImplicitMultiplication());
      }
      currSymbol := currSymbol + [r];
      currState := Integer;
      return None;
    }

    method HandleDecimalPoint(r: char) returns (err: Option<SyntaxError>)
      requires Ready()
      modifies this
      ensures Applied(DecimalPointStep(reg, old(Snapshot()), r), old(Snapshot()), Snapshot(), err)
    {
      if currState == Decimal || currState == DecimalPoint {
        return Some(SyntaxError(MultipleDecimal, [r], currIndex));
      }
      if currState == Integer {
        currSymbol := currSymbol + [r];
        currState := Decimal;
        return None;
      }
      CommitCurrentState();
      if currState == RightParen || currState == RightUnaryOp {
        AppendToken(ImplicitMultiplication());
      }
      currSymbol := currSymbol + [r];
      currState := DecimalPoint;
      return None;
    }

    method HandleLeftParen(r: char) returns (err: Option<SyntaxError>)
      requires Ready()
      modifies this, parenDepth
      ensures Applied(LeftParenStep(reg, old(Snapshot()), r), old(Snapshot()), Snapshot(), err)
    {
      if currState == DecimalPoint {
        return Some(SyntaxError(LoneDecimal, ".", currIndex - 1));
      }
      CommitCurrentState();
      if currState == Integer || currState == Decimal || currState == RightParen || currState == RightUnaryOp {
        AppendToken(ImplicitMultiplication());
      }
      currSymbol := currSymbol + [r];
      currState := LeftParen;
      parenDepth.Increment(currIndex, B.LeftParen);
      return None;
    }

    method HandleRightParen(r: char) returns (err: Option<SyntaxError>)
      requires Ready()
      modifies this, parenDepth
      ensures Applied(RightParenStep(reg, old(Snapshot()), r), old(Snapshot()), Snapshot(), err)
    {
      if parenDepth.Depth() == 0 {
        return Some(SyntaxError(UnmatchedRightParen, ")", currIndex));
      }
      if currState == DecimalPoint {
        return Some(SyntaxError(LoneDecimal, ".", currIndex - 1));
      }
      if currState == LeftParen {
        return Some(SyntaxError(EmptyParen, ")", currIndex));
      }
      if currState == LeftUnaryOp || currState == BinaryOp {
        return Some(SyntaxError(NoRightOperand, currSymbol, currIndex - 1));
      }
      CommitCurrentState();
      currSymbol := currSymbol + [r];
      currState := RightParen;
      parenDepth.Decrement(currIndex, B.RightParen);
      return None;
    }

    method HandleOperator(r: char) returns (err: Option<SyntaxError>)
      requires Ready()
      modifies this
      ensures Applied(OperatorStep(reg, old(Snapshot()), r), old(Snapshot()), Snapshot(), err)
    {
      if currState == DecimalPoint {
        return Some(SyntaxError(LoneDecimal, ".", currIndex - 1));
      }
      var lunOk := GetOperator(reg.operators, r, [Some(IsUnaryOp), Some(IsRightAssocOp)]).Some?;
      if lunOk && (currState == Nothing || currState == LeftParen || currState == BinaryOp || currState == LeftUnaryOp) {
        CommitCurrentState();
        currState := LeftUnaryOp;
        currSymbol := currSymbol + [r];
        return None;
      }
      var binOk := GetOperator(reg.operators, r, [Some(IsBinaryOp)]).Some?;
      var runOk := GetOperator(reg.operators, r, [Some(IsUnaryOp), Some(IsLeftAssocOp)]).Some?;
      if !(binOk || runOk) {
        return Some(SyntaxError(NoRightOperand, [r], currIndex));
      }
      if currState == LeftParen || currState == LeftUnaryOp || currState == BinaryOp {
        return Some(SyntaxError(NoLeftOperand, [r], currIndex));
      }
      CommitCurrentState();
      currSymbol := currSymbol + [r];
      if runOk {
        currState := RightUnaryOp;
      } else {
        currState := BinaryOp;
      }
      return None;
    }

    method CommitCurrentState()
      requires Ready()
      modifies this
      ensures Snapshot() == Commit(reg, old(Snapshot()))
    {
      var x := currSymbol;
      match currState {
      case Integer => AppendToken(NewNumber(x));
      case Decimal => AppendToken(NewNumber(x));
      case LeftParen => AppendToken(Paren(B.LeftParen));
      case RightParen => AppendToken(Paren(B.RightParen));
      case LeftUnaryOp =>
        var op := GetOperator(reg.operators, x[0], [Some(IsRightAssocOp), Some(IsUnaryOp)]);
        AppendToken(Op(op.value));
      case BinaryOp =>
        var op := GetOperator(reg.operators, x[0], [Some(IsBinaryOp)]);
        AppendToken(Op(op.value));
      case RightUnaryOp =>
        var op := GetOperator(reg.operators, x[0], [Some(IsLeftAssocOp), Some(IsUnaryOp)]);
        AppendToken(Op(op.value));
      case Nothing =>
      case DecimalPoint =>
      }
      currSymbol := "";
    }

    /** validateFinalState: the end-of-input checks, in order. It reads the
        fields and changes none of them. */
    method ValidateFinalState() returns (err: Option<SyntaxError>)
      ensures currState == DecimalPoint ==>
        err == Some(SyntaxError(LoneDecimal, ".", currIndex - 1))
      ensures currState == LeftUnaryOp || currState == BinaryOp ==>
        err == Some(SyntaxError(NoRightOperand, currSymbol, currIndex - 1))
      ensures currState !in {DecimalPoint, LeftUnaryOp, BinaryOp} && parenDepth.Depth() > 0 ==>
        var log := parenDepth.stack;
        var k := B.LatestAtDepth(log, B.LogDepth(log), |log|);
        k == |log| - 1 && err == Some(SyntaxError(UnmatchedLeftParen, "(", log[k].index))
      ensures currState !in {DecimalPoint, LeftUnaryOp, BinaryOp} && parenDepth.Depth() <= 0 ==>
        err == None
      ensures err == FinalCheck(Snapshot())
    {
      if currState == DecimalPoint {
        return Some(SyntaxError(LoneDecimal, ".", currIndex - 1));
      }
      if currState == LeftUnaryOp || currState == BinaryOp {
        var op := currSymbol;
        return Some(SyntaxError(NoRightOperand, op, currIndex - 1));
      }
      if parenDepth.Depth() > 0 {
        var idx := IndexAtDepth(parenDepth.stack, parenDepth.Depth());
        return Some(SyntaxError(UnmatchedLeftParen, "(", idx));
      }
      return None;
    }

    /** appendToken */
    method AppendToken(t: Token)
      modifies this
      ensures tokens == old(tokens) + [t]
      ensures currState == old(currState) && currSymbol == old(currSymbol) && currIndex == old(currIndex)
    {
      tokens := tokens + [t];
    }

    /** reset: back to the start state with an empty log; the token list is
        not cleared. */
    method Reset()
      modifies this, parenDepth
      ensures Snapshot() == Start(old(tokens))
    {
      currState := Nothing;
      currIndex := 0;
      parenDepth.Clear();
      currSymbol := "";
    }
  }
}
