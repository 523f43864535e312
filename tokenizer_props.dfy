/** Properties of the tokenizer's step functions and of whole runs: how each
    handler treats the pending lexeme, the order of its error checks, the
    bracket balance of the emitted tokens and the independence of a run from
    the tokens of earlier calls. */
module TokenizerProps {
  import opened Wrappers
  import opened Operators
  import opened Registry
  import opened Tokens
  import opened Tokenizer
  import B = Brackets

  // ---------------------------------------------------------------------
  // Committing the pending lexeme
  // ---------------------------------------------------------------------

  /** Committing emits the token the state stands for (a number keeps its
      text, an operator is one registered for the lexeme's rune), clears the
      text and keeps the state, the index and the log. */
  lemma CommitEmitsPending(reg: TokenRegistry, m: Machine)
    requires CommitReady(reg, m.state, m.symbol)
    ensures var c := Commit(reg, m);
      c.state == m.state && c.symbol == "" && c.index == m.index && c.log == m.log
    ensures var c := Commit(reg, m);
      (m.state == Nothing || m.state == DecimalPoint ==> c.tokens == m.tokens) &&
      (m.state == Integer || m.state == Decimal ==> c.tokens == m.tokens + [Number(m.symbol)]) &&
      (m.state == LeftParen ==> c.tokens == m.tokens + [Paren(B.LeftParen)]) &&
      (m.state == RightParen ==> c.tokens == m.tokens + [Paren(B.RightParen)])
    ensures var c := Commit(reg, m);
      m.state in {LeftUnaryOp, BinaryOp, RightUnaryOp} ==>
        |c.tokens| == |m.tokens| + 1 && c.tokens[..|m.tokens|] == m.tokens &&
        c.tokens[|m.tokens|].Op? && c.tokens[|m.tokens|].op in Variants(reg.operators, m.symbol[0])
  {
    var c := Commit(reg, m);
    if m.state == Nothing || m.state == DecimalPoint {
      assert c.tokens == m.tokens + [];
    }
    if m.state == LeftUnaryOp {
      GetOperatorFound(reg.operators, m.symbol[0], [Some(IsRightAssocOp), Some(IsUnaryOp)]);
    } else if m.state == BinaryOp {
      GetOperatorFound(reg.operators, m.symbol[0], [Some(IsBinaryOp)]);
    } else if m.state == RightUnaryOp {
      GetOperatorFound(reg.operators, m.symbol[0], [Some(IsLeftAssocOp), Some(IsUnaryOp)]);
    }
  }

  /** A successful lookup returns one of the rune's registered variants. */
  lemma GetOperatorFound(table: OperatorTable, r: char, filters: seq<Option<Filter>>)
    requires GetOperator(table, r, filters).Some?
    ensures GetOperator(table, r, filters).value in Variants(table, r)
  {
    GetOperatorSpec(table, r, filters);
  }

  // ---------------------------------------------------------------------
  // Digits and decimal points
  // ---------------------------------------------------------------------

  /** A digit or a first decimal point continues a number in progress: no
      token is emitted and the rune is appended to the lexeme; after a point
      the number becomes a decimal. */
  lemma NumberContinues(reg: TokenRegistry, m: Machine, r: char)
    requires CommitReady(reg, m.state, m.symbol)
    requires m.state == Integer || m.state == Decimal || m.state == DecimalPoint
    ensures var n := DigitStep(reg, m, r);
      n.tokens == m.tokens && n.log == m.log && n.index == m.index &&
      n.symbol == m.symbol + [r] && n.state == (if m.state == Integer then Integer else Decimal)
    ensures m.state == Integer ==>
      DecimalPointStep(reg, m, r) == Ok(m.(symbol := m.symbol + [r], state := Decimal))
    ensures m.state != Integer ==>
      DecimalPointStep(reg, m, r) == Err(SyntaxError(MultipleDecimal, [r], m.index))
  {
  }

  /** A digit or decimal point that starts a new number commits the pending
      lexeme first and becomes the whole new lexeme. */
  lemma NumberStarts(reg: TokenRegistry, m: Machine, r: char)
    requires CommitReady(reg, m.state, m.symbol)
    requires !(m.state == Integer || m.state == Decimal || m.state == DecimalPoint)
    ensures var n := DigitStep(reg, m, r);
      n.state == Integer && n.symbol == [r] && n.log == m.log &&
      Commit(reg, m).tokens <= n.tokens
    ensures DecimalPointStep(reg, m, r).Ok? &&
      var n := DecimalPointStep(reg, m, r).value;
      n.state == DecimalPoint && n.symbol == [r] && n.log == m.log &&
      Commit(reg, m).tokens <= n.tokens
  {
  }

  // ---------------------------------------------------------------------
  // Implicit multiplication
  // ---------------------------------------------------------------------

  /** A new number gets a multiplication inserted before it exactly when it
      follows a closing bracket or a postfix operator. */
  lemma ImplicitMultiplicationBeforeNumber(reg: TokenRegistry, m: Machine, r: char)
    requires CommitReady(reg, m.state, m.symbol)
    requires !(m.state == Integer || m.state == Decimal || m.state == DecimalPoint)
    ensures var c := Commit(reg, m).tokens;
      var n := DigitStep(reg, m, r);
      (n.tokens == c + [ImplicitMultiplication()] <==> m.state == RightParen || m.state == RightUnaryOp) &&
      (n.tokens != c + [ImplicitMultiplication()] ==> n.tokens == c)
    ensures var c := Commit(reg, m).tokens;
      var n := DecimalPointStep(reg, m, r).value;
      (n.tokens == c + [ImplicitMultiplication()] <==> m.state == RightParen || m.state == RightUnaryOp) &&
      (n.tokens != c + [ImplicitMultiplication()] ==> n.tokens == c)
  {
    var c := Commit(reg, m).tokens;
    assert c != c + [ImplicitMultiplication()] by {
      assert |c + [ImplicitMultiplication()]| == |c| + 1;
    }
  }

  /** An opening bracket gets a multiplication inserted before it exactly
      when it follows a number, a closing bracket or a postfix operator; it
      is rejected only after a lone decimal point. */
  lemma ImplicitMultiplicationBeforeParen(reg: TokenRegistry, m: Machine, r: char)
    requires CommitReady(reg, m.state, m.symbol)
    ensures LeftParenStep(reg, m, r).Err? <==> m.state == DecimalPoint
    ensures m.state == DecimalPoint ==>
      LeftParenStep(reg, m, r) == Err(SyntaxError(LoneDecimal, ".", m.index - 1))
    ensures LeftParenStep(reg, m, r).Ok? ==>
      var c := Commit(reg, m).tokens;
      var n := LeftParenStep(reg, m, r).value;
      (n.tokens == c + [ImplicitMultiplication()] <==>
        m.state in {Integer, Decimal, RightParen, RightUnaryOp}) &&
      (n.tokens != c + [ImplicitMultiplication()] ==> n.tokens == c)
  {
    var c := Commit(reg, m).tokens;
    assert c != c + [ImplicitMultiplication()] by {
      assert |c + [ImplicitMultiplication()]| == |c| + 1;
    }
  }

  /** An opening bracket opens one level deeper and is logged at its index. */
  lemma LeftParenOpensLevel(reg: TokenRegistry, m: Machine, r: char)
    requires CommitReady(reg, m.state, m.symbol)
    requires LeftParenStep(reg, m, r).Ok?
    ensures var n := LeftParenStep(reg, m, r).value;
      n.state == LeftParen && n.symbol == [r] &&
      n.log == m.log + [B.BracketDepth(m.index, B.LogDepth(m.log) + 1, B.LeftParen)] &&
      B.LogDepth(n.log) == B.LogDepth(m.log) + 1
  {
  }

  // ---------------------------------------------------------------------
  // Closing brackets
  // ---------------------------------------------------------------------

  /** The checks on a closing bracket, in the order they are made: nothing
      open, a lone point, an empty pair, a pending operator lacking its
      right operand. Otherwise the bracket closes one level. */
  lemma RightParenChecks(reg: TokenRegistry, m: Machine, r: char)
    requires CommitReady(reg, m.state, m.symbol)
    ensures var res := RightParenStep(reg, m, r);
      (B.LogDepth(m.log) == 0 ==>
        res == Err(SyntaxError(UnmatchedRightParen, ")", m.index))) &&
      (B.LogDepth(m.log) != 0 && m.state == DecimalPoint ==>
        res == Err(SyntaxError(LoneDecimal, ".", m.index - 1))) &&
      (B.LogDepth(m.log) != 0 && m.state == LeftParen ==>
        res == Err(SyntaxError(EmptyParen, ")", m.index))) &&
      (B.LogDepth(m.log) != 0 && (m.state == LeftUnaryOp || m.state == BinaryOp) ==>
        res == Err(SyntaxError(NoRightOperand, m.symbol, m.index - 1)))
    ensures RightParenStep(reg, m, r).Ok? <==>
      B.LogDepth(m.log) != 0 && m.state in {Nothing, Integer, Decimal, RightParen, RightUnaryOp}
    ensures RightParenStep(reg, m, r).Ok? ==>
      var n := RightParenStep(reg, m, r).value;
      n.state == RightParen && n.symbol == [r] &&
      n.tokens == Commit(reg, m).tokens &&
      n.log == m.log + [B.BracketDepth(m.index, B.LogDepth(m.log) - 1, B.RightParen)] &&
      B.LogDepth(n.log) == B.LogDepth(m.log) - 1
  {
  }

  // ---------------------------------------------------------------------
  // Operators
  // ---------------------------------------------------------------------

  /** How an operator rune is resolved: as a sign where no operand precedes
      and the rune has a unary right-associative variant; otherwise as a
      postfix operator if it has a unary left-associative variant, else as a
      binary operator; a rune with neither after an operand-less position
      lacks its right operand, and one after a bracket or an operator lacks
      its left operand. */
  lemma OperatorRoles(reg: TokenRegistry, m: Machine, r: char)
    requires CommitReady(reg, m.state, m.symbol)
    requires m.state != DecimalPoint
    ensures var res := OperatorStep(reg, m, r);
      var sign := GetOperator(reg.operators, r, [Some(IsUnaryOp), Some(IsRightAssocOp)]).Some?;
      var binary := GetOperator(reg.operators, r, [Some(IsBinaryOp)]).Some?;
      var postfix := GetOperator(reg.operators, r, [Some(IsUnaryOp), Some(IsLeftAssocOp)]).Some?;
      var afterOperand := !(m.state in {Nothing, LeftParen, BinaryOp, LeftUnaryOp});
      (res.Ok? && res.value.state == LeftUnaryOp <==> sign && !afterOperand) &&
      (res.Ok? && res.value.state == RightUnaryOp <==> (afterOperand || !sign) && postfix && !(m.state in {LeftParen, BinaryOp, LeftUnaryOp})) &&
      (res.Ok? && res.value.state == BinaryOp <==> (afterOperand || !sign) && binary && !postfix && !(m.state in {LeftParen, BinaryOp, LeftUnaryOp})) &&
      ((afterOperand || !sign) && !binary && !postfix ==> res == Err(SyntaxError(NoRightOperand, [r], m.index))) &&
      (!sign && (binary || postfix) && m.state in {LeftParen, BinaryOp, LeftUnaryOp} ==>
        res == Err(SyntaxError(NoLeftOperand, [r], m.index)))
    ensures OperatorStep(reg, m, r).Ok? ==>
      var n := OperatorStep(reg, m, r).value;
      n.tokens == Commit(reg, m).tokens && n.symbol == [r] && n.log == m.log && n.index == m.index
  {
  }

  /** An operator after a lone decimal point reports the point. */
  lemma OperatorAfterLonePoint(reg: TokenRegistry, m: Machine, r: char)
    requires CommitReady(reg, m.state, m.symbol)
    requires m.state == DecimalPoint
    ensures OperatorStep(reg, m, r) == Err(SyntaxError(LoneDecimal, ".", m.index - 1))
  {
  }

  /** With the default registry, '+' and '-' become signs where no operand
      precedes and binary operators after an operand. */
  lemma DefaultSignOrBinary(m: Machine, r: char)
    requires CommitReady(DefaultTokenRegistry(), m.state, m.symbol)
    requires m.state != DecimalPoint
    requires r == '+' || r == '-'
    ensures OperatorStep(DefaultTokenRegistry(), m, r) ==
      Ok(Commit(DefaultTokenRegistry(), m).(symbol := [r],
        state := if m.state in {Nothing, LeftParen, BinaryOp, LeftUnaryOp} then LeftUnaryOp else BinaryOp))
  {
    DefaultSignLookups();
    SignsAreNotPostfix(r);
    OperatorRoles(DefaultTokenRegistry(), m, r);
  }

  /** Neither variant of '+' or '-' is a postfix operator. */
  lemma SignsAreNotPostfix(r: char)
    requires r == '+' || r == '-'
    ensures GetOperator(DefaultOperators(), r, [Some(IsUnaryOp), Some(IsLeftAssocOp)]).None?
  {
    var f: seq<Option<Filter>> := [Some(IsUnaryOp), Some(IsLeftAssocOp)];
    var vs := Variants(DefaultOperators(), r);
    assert vs == if r == '+' then [NewOperator(Plus), NewOperator(Addition)]
                 else [NewOperator(Minus), NewOperator(Subtraction)];
    assert f[1].Some? && !f[1].value(vs[0]);
    assert f[0].Some? && !f[0].value(vs[1]);
    GetOperatorSpec(DefaultOperators(), r, f);
  }

  /** With the default registry, '!' after an operand is a postfix operator. */
  lemma DefaultFactorialPostfix(m: Machine)
    requires CommitReady(DefaultTokenRegistry(), m.state, m.symbol)
    requires m.state in {Integer, Decimal, RightParen, RightUnaryOp}
    ensures OperatorStep(DefaultTokenRegistry(), m, '!') ==
      Ok(Commit(DefaultTokenRegistry(), m).(symbol := "!", state := RightUnaryOp))
  {
    DefaultOtherLookups();
    FactorialIsOnlyPostfix();
    assert DefaultTokenRegistry().operators == DefaultOperators();
    assert "" + ['!'] == "!";
  }

  /** '!' has a single variant, which is neither a sign nor binary. */
  lemma FactorialIsOnlyPostfix()
    ensures GetOperator(DefaultOperators(), '!', [Some(IsUnaryOp), Some(IsRightAssocOp)]).None?
    ensures GetOperator(DefaultOperators(), '!', [Some(IsBinaryOp)]).None?
  {
    var f: seq<Option<Filter>> := [Some(IsUnaryOp), Some(IsRightAssocOp)];
    var g: seq<Option<Filter>> := [Some(IsBinaryOp)];
    var bang := NewOperator(Factorial);
    assert Variants(DefaultOperators(), '!') == [bang];
    assert f[1].Some? && !f[1].value(bang);
    assert g[0].Some? && !g[0].value(bang);
    GetOperatorSpec(DefaultOperators(), '!', f);
    GetOperatorSpec(DefaultOperators(), '!', g);
  }

  /** '*' has a single variant, which is binary only. */
  lemma StarIsOnlyBinary()
    ensures GetOperator(DefaultOperators(), '*', [Some(IsUnaryOp), Some(IsRightAssocOp)]).None?
    ensures GetOperator(DefaultOperators(), '*', [Some(IsUnaryOp), Some(IsLeftAssocOp)]).None?
  {
    var f: seq<Option<Filter>> := [Some(IsUnaryOp), Some(IsRightAssocOp)];
    var g: seq<Option<Filter>> := [Some(IsUnaryOp), Some(IsLeftAssocOp)];
    var star := NewOperator(Multiplication);
    assert Variants(DefaultOperators(), '*') == [star];
    assert f[0].Some? && !f[0].value(star);
    assert g[0].Some? && !g[0].value(star);
    GetOperatorSpec(DefaultOperators(), '*', f);
    GetOperatorSpec(DefaultOperators(), '*', g);
  }

  // ---------------------------------------------------------------------
  // One step of the loop
  // ---------------------------------------------------------------------

  /** Whitespace changes nothing but the rune index. */
  lemma WhitespaceSkipped(reg: TokenRegistry, m: Machine, r: char)
    requires CommitReady(reg, m.state, m.symbol)
    requires reg.IsWhitespace(r) && !reg.IsOperator(r)
    ensures Step(reg, m, r) == Ok(m.(index := m.index + 1))
  {
  }

  /** A rune of no class is an unknown symbol reported at its own index. */
  lemma UnknownRejected(reg: TokenRegistry, m: Machine, r: char)
    requires CommitReady(reg, m.state, m.symbol)
    requires !reg.IsDigit(r) && !reg.IsDecimalPoint(r) && !reg.IsLeftBracket(r)
    requires !reg.IsRightBracket(r) && !reg.IsOperator(r) && !reg.IsWhitespace(r)
    ensures Step(reg, m, r) == Err(SyntaxError(UnknownSymbol, [r], m.index))
  {
  }

  /** A successful step advances the index by one and never drops tokens. */
  lemma StepAdvances(reg: TokenRegistry, m: Machine, r: char)
    requires CommitReady(reg, m.state, m.symbol)
    requires Step(reg, m, r).Ok?
    ensures Step(reg, m, r).value.index == m.index + 1
    ensures m.tokens <= Step(reg, m, r).value.tokens
  {
    HandleExtends(reg, m, r);
  }

  /** A successful handler keeps the index and only appends tokens. */
  lemma HandleExtends(reg: TokenRegistry, m: Machine, r: char)
    requires CommitReady(reg, m.state, m.symbol)
    requires Handle(reg, m, r).Ok?
    ensures Handle(reg, m, r).value.index == m.index
    ensures m.tokens <= Handle(reg, m, r).value.tokens
  {
    var c := Commit(reg, m);
    assert c.index == m.index && m.tokens <= c.tokens;
    assert c.tokens <= c.tokens + [ImplicitMultiplication()];
  }

  // ---------------------------------------------------------------------
  // Whole runs: the first error, earlier tokens
  // ---------------------------------------------------------------------

  /** A failed run stopped at the first rune whose step failed: the runes
      before it all succeeded and led to the machine the failure reports. */
  lemma {:induction false} FailureIsFirstError(reg: TokenRegistry, m: Machine, input: string)
    requires CommitReady(reg, m.state, m.symbol)
    requires Run(reg, m, input).Failed?
    ensures var at := Run(reg, m, input).at;
      exists k :: 0 <= k < |input| && Run(reg, m, input[..k]) == Done(at) &&
        CommitReady(reg, at.state, at.symbol) &&
        Step(reg, at, input[k]) == Err(Run(reg, m, input).error)
    decreases |input|
  {
    var at := Run(reg, m, input).at;
    var e := Run(reg, m, input).error;
    match Step(reg, m, input[0])
    case Err(e0) => {
      assert input[..0] == [];
      assert Run(reg, m, input[..0]) == Done(at);
    }
    case Ok(n) => {
      FailureIsFirstError(reg, n, input[1..]);
      var k :| 0 <= k < |input[1..]| && Run(reg, n, input[1..][..k]) == Done(at) &&
        CommitReady(reg, at.state, at.symbol) && Step(reg, at, input[1..][k]) == Err(e);
      var pre := input[..k + 1];
      assert pre[0] == input[0] && pre[1..] == input[1..][..k];
      assert Run(reg, m, pre) == Run(reg, n, pre[1..]);
      assert input[k + 1] == input[1..][k];
    }
  }

  /** The machine with `p` placed before its tokens. */
  function Prepend(p: seq<Token>, m: Machine): Machine {
    m.(tokens := p + m.tokens)
  }

  /** A step neither reads the tokens already emitted nor changes them. */
  lemma StepIgnoresTokens(reg: TokenRegistry, p: seq<Token>, m: Machine, r: char)
    requires CommitReady(reg, m.state, m.symbol)
    ensures Step(reg, Prepend(p, m), r) ==
      match Step(reg, m, r)
      case Ok(n) => Ok(Prepend(p, n))
      case Err(e) => Err(e)
  {
    HandleIgnoresTokens(reg, p, m, r);
  }

  /** Committing with earlier tokens present emits the same token after them. */
  lemma CommitIgnoresTokens(reg: TokenRegistry, p: seq<Token>, m: Machine)
    requires CommitReady(reg, m.state, m.symbol)
    ensures Commit(reg, Prepend(p, m)) == Prepend(p, Commit(reg, m))
    ensures Commit(reg, Prepend(p, m)).tokens + [ImplicitMultiplication()] ==
      p + (Commit(reg, m).tokens + [ImplicitMultiplication()])
  {
    var t := CommitToken(reg, m.state, m.symbol);
    assert (p + m.tokens) + t == p + (m.tokens + t);
  }

  /** A handler result with `p` placed before the tokens of a success. */
  function PrependResult(p: seq<Token>, res: Result<Machine, SyntaxError>): Result<Machine, SyntaxError> {
    match res
    case Ok(n) => Ok(Prepend(p, n))
    case Err(e) => Err(e)
  }

  lemma HandleIgnoresTokens(reg: TokenRegistry, p: seq<Token>, m: Machine, r: char)
    requires CommitReady(reg, m.state, m.symbol)
    ensures Handle(reg, Prepend(p, m), r) == PrependResult(p, Handle(reg, m, r))
  {
    if reg.IsDigit(r) {
      DigitIgnoresTokens(reg, p, m, r);
    } else if reg.IsDecimalPoint(r) {
      DecimalPointIgnoresTokens(reg, p, m, r);
    } else if reg.IsLeftBracket(r) {
      LeftParenIgnoresTokens(reg, p, m, r);
    } else if reg.IsRightBracket(r) {
      RightParenIgnoresTokens(reg, p, m, r);
    } else if reg.IsOperator(r) {
      OperatorIgnoresTokens(reg, p, m, r);
    }
  }

  lemma DigitIgnoresTokens(reg: TokenRegistry, p: seq<Token>, m: Machine, r: char)
    requires CommitReady(reg, m.state, m.symbol)
    ensures DigitStep(reg, Prepend(p, m), r) == Prepend(p, DigitStep(reg, m, r))
  {
    CommitIgnoresTokens(reg, p, m);
  }

  lemma DecimalPointIgnoresTokens(reg: TokenRegistry, p: seq<Token>, m: Machine, r: char)
    requires CommitReady(reg, m.state, m.symbol)
    ensures DecimalPointStep(reg, Prepend(p, m), r) == PrependResult(p, DecimalPointStep(reg, m, r))
  {
    CommitIgnoresTokens(reg, p, m);
  }

  lemma LeftParenIgnoresTokens(reg: TokenRegistry, p: seq<Token>, m: Machine, r: char)
    requires CommitReady(reg, m.state, m.symbol)
    ensures LeftParenStep(reg, Prepend(p, m), r) == PrependResult(p, LeftParenStep(reg, m, r))
  {
    if m.state != DecimalPoint {
      CommitIgnoresTokens(reg, p, m);
      var c := Commit(reg, m);
      var ts := if c.state == Integer || c.state == Decimal || c.state == RightParen || c.state == RightUnaryOp
        then c.tokens + [ImplicitMultiplication()] else c.tokens;
      var e := B.BracketDepth(c.index, B.LogDepth(c.log) + 1, B.LeftParen);
      var n := c.(tokens := ts, symbol := c.symbol + [r], state := LeftParen, log := c.log + [e]);
      assert LeftParenStep(reg, m, r) == Ok(n);
      assert LeftParenStep(reg, Prepend(p, m), r) == Ok(n.(tokens := p + ts));
    }
  }

  lemma RightParenIgnoresTokens(reg: TokenRegistry, p: seq<Token>, m: Machine, r: char)
    requires CommitReady(reg, m.state, m.symbol)
    ensures RightParenStep(reg, Prepend(p, m), r) == PrependResult(p, RightParenStep(reg, m, r))
  {
    CommitIgnoresTokens(reg, p, m);
  }

  lemma OperatorIgnoresTokens(reg: TokenRegistry, p: seq<Token>, m: Machine, r: char)
    requires CommitReady(reg, m.state, m.symbol)
    ensures OperatorStep(reg, Prepend(p, m), r) == PrependResult(p, OperatorStep(reg, m, r))
  {
    CommitIgnoresTokens(reg, p, m);
  }

  /** A run likewise: earlier tokens are carried through untouched. */
  lemma {:induction false} RunIgnoresTokens(reg: TokenRegistry, p: seq<Token>, m: Machine, input: string)
    requires CommitReady(reg, m.state, m.symbol)
    ensures Run(reg, Prepend(p, m), input) ==
      match Run(reg, m, input)
      case Done(n) => Done(Prepend(p, n))
      case Failed(at, e) => Failed(Prepend(p, at), e)
    decreases |input|
  {
    if |input| > 0 {
      StepIgnoresTokens(reg, p, m, input[0]);
      match Step(reg, m, input[0])
      case Err(e) =>
      case Ok(n) => RunIgnoresTokens(reg, p, n, input[1..]);
    }
  }

  /** Tokenizing with earlier tokens present returns those tokens followed
      by exactly what a fresh tokenization returns, and fails identically. */
  lemma TokenizeAppendsToEarlierTokens(reg: TokenRegistry, prior: seq<Token>, expr: string)
    ensures Tokenized(reg, prior, expr) ==
      match Tokenized(reg, [], expr)
      case Ok(ts) => Ok(prior + ts)
      case Err(e) => Err(e)
  {
    assert Start(prior) == Prepend(prior, Start([]));
    RunIgnoresTokens(reg, prior, Start([]), expr);
    match Run(reg, Start([]), expr)
    case Done(n) => {
      assert Commit(reg, Prepend(prior, n)).tokens == prior + Commit(reg, n).tokens;
    }
    case Failed(_, _) =>
  }

  // ---------------------------------------------------------------------
  // Whole runs: bracket depth and balance
  // ---------------------------------------------------------------------

  /** +1 for an opening bracket token, -1 for a closing one, 0 otherwise. */
  function Weight(t: Token): int {
    if t == Paren(B.LeftParen) then 1 else if t == Paren(B.RightParen) then -1 else 0
  }

  /** Opening minus closing bracket tokens. */
  function Balance(ts: seq<Token>): int
    decreases |ts|
  {
    if |ts| == 0 then 0 else Balance(ts[..|ts| - 1]) + Weight(ts[|ts| - 1])
  }

  /** No prefix closes more brackets than it opens. */
  ghost predicate NeverNegative(ts: seq<Token>) {
    forall n :: 0 <= n <= |ts| ==> Balance(ts[..n]) >= 0
  }

  /** The log was built by opening and closing brackets and never went below
      depth 0. */
  ghost predicate LogSound(log: seq<B.BracketDepth>) {
    B.Tagged(log) && forall k :: 0 <= k < |log| ==> log[k].depth >= 0
  }

  /** The run invariant: a sound log, tokens that never close more than they
      open, and, counting the pending lexeme, as many unclosed brackets in
      the tokens as the log's depth. */
  ghost predicate BracketsAgree(reg: TokenRegistry, m: Machine)
    requires CommitReady(reg, m.state, m.symbol)
  {
    LogSound(m.log) && NeverNegative(m.tokens) &&
    Balance(m.tokens + CommitToken(reg, m.state, m.symbol)) == B.LogDepth(m.log)
  }

  lemma BalanceAppend(ts: seq<Token>, t: Token)
    ensures Balance(ts + [t]) == Balance(ts) + Weight(t)
  {
    assert (ts + [t])[..|ts|] == ts;
  }

  lemma NeverNegativeAppend(ts: seq<Token>, t: Token)
    requires NeverNegative(ts) && Balance(ts) + Weight(t) >= 0
    ensures NeverNegative(ts + [t])
  {
    var s := ts + [t];
    BalanceAppend(ts, t);
    forall n | 0 <= n <= |s| ensures Balance(s[..n]) >= 0 {
      if n <= |ts| {
        assert s[..n] == ts[..n];
      } else {
        assert s[..n] == s;
      }
    }
  }

  /** After committing, the emitted tokens alone account for the depth. */
  lemma CommitAgrees(reg: TokenRegistry, m: Machine)
    requires CommitReady(reg, m.state, m.symbol)
    requires BracketsAgree(reg, m)
    ensures var c := Commit(reg, m);
      NeverNegative(c.tokens) && Balance(c.tokens) == B.LogDepth(m.log) && B.LogDepth(m.log) >= 0
  {
    var p := CommitToken(reg, m.state, m.symbol);
    if |m.log| > 0 {
      assert m.log[|m.log| - 1].depth >= 0;
    }
    if p == [] {
      assert m.tokens + p == m.tokens;
    } else {
      assert p == [p[0]];
      BalanceAppend(m.tokens, p[0]);
      NeverNegativeAppend(m.tokens, p[0]);
    }
  }

  /** A neutral token keeps the invariant's token half. */
  lemma NeutralAppend(ts: seq<Token>, t: Token)
    requires NeverNegative(ts) && Balance(ts) >= 0 && Weight(t) == 0
    ensures NeverNegative(ts + [t]) && Balance(ts + [t]) == Balance(ts)
  {
    BalanceAppend(ts, t);
    NeverNegativeAppend(ts, t);
  }

  /** A logged bracket one level away from a non-negative depth keeps the
      log sound. */
  lemma LogAppend(log: seq<B.BracketDepth>, e: B.BracketDepth)
    requires LogSound(log)
    requires e.depth == B.LogDepth(log) + B.Delta(e.b) && e.depth >= 0
    ensures LogSound(log + [e]) && B.LogDepth(log + [e]) == e.depth
  {
    var l := log + [e];
    assert l[..|l| - 1] == log;
  }

  /** A digit that continues a number keeps the run invariant. */
  lemma DigitContinuesAgrees(reg: TokenRegistry, m: Machine, r: char)
    requires CommitReady(reg, m.state, m.symbol)
    requires BracketsAgree(reg, m)
    requires m.state == Integer || m.state == Decimal || m.state == DecimalPoint
    ensures BracketsAgree(reg, DigitStep(reg, m, r))
  {
    var n := DigitStep(reg, m, r);
    if m.state == DecimalPoint {
      assert m.tokens + [] == m.tokens;
    } else {
      BalanceAppend(m.tokens, Number(m.symbol));
    }
    BalanceAppend(m.tokens, Number(n.symbol));
  }

  /** A digit that starts a number keeps the run invariant. */
  lemma DigitStartsAgrees(reg: TokenRegistry, m: Machine, r: char)
    requires CommitReady(reg, m.state, m.symbol)
    requires BracketsAgree(reg, m)
    requires !(m.state == Integer || m.state == Decimal || m.state == DecimalPoint)
    ensures BracketsAgree(reg, DigitStep(reg, m, r))
  {
    var c := Commit(reg, m);
    CommitAgrees(reg, m);
    var ts := if c.state == RightParen || c.state == RightUnaryOp then c.tokens + [ImplicitMultiplication()] else c.tokens;
    if c.state == RightParen || c.state == RightUnaryOp {
      NeutralAppend(c.tokens, ImplicitMultiplication());
    }
    assert c.symbol + [r] == [r];
    NumberStartAgrees(reg, c, ts, r);
  }

  /** A number opened on top of a balanced token list keeps the invariant. */
  lemma NumberStartAgrees(reg: TokenRegistry, c: Machine, ts: seq<Token>, r: char)
    requires LogSound(c.log) && NeverNegative(ts) && Balance(ts) == B.LogDepth(c.log)
    ensures BracketsAgree(reg, c.(tokens := ts, symbol := [r], state := Integer))
  {
    if |c.log| > 0 {
      assert c.log[|c.log| - 1].depth >= 0;
    }
    NeutralAppend(ts, Number([r]));
  }

  /** A decimal point keeps the run invariant. */
  lemma DecimalPointAgrees(reg: TokenRegistry, m: Machine, r: char)
    requires CommitReady(reg, m.state, m.symbol)
    requires BracketsAgree(reg, m)
    requires DecimalPointStep(reg, m, r).Ok?
    ensures BracketsAgree(reg, DecimalPointStep(reg, m, r).value)
  {
    if m.state == Integer {
      assert CommitToken(reg, m.state, m.symbol) == [Number(m.symbol)];
      NumberGrowsAgrees(reg, m, m.symbol + [r], Decimal);
    } else {
      var c := Commit(reg, m);
      CommitAgrees(reg, m);
      var ts := if c.state == RightParen || c.state == RightUnaryOp then c.tokens + [ImplicitMultiplication()] else c.tokens;
      if c.state == RightParen || c.state == RightUnaryOp {
        NeutralAppend(c.tokens, ImplicitMultiplication());
      }
      assert c.symbol + [r] == [r];
      PointStartAgrees(reg, c, ts, r);
    }
  }

  /** A number whose text grows keeps the invariant: its pending token weighs
      nothing either way. */
  lemma NumberGrowsAgrees(reg: TokenRegistry, m: Machine, sym: string, st: State)
    requires LogSound(m.log) && NeverNegative(m.tokens)
    requires Balance(m.tokens + [Number(m.symbol)]) == B.LogDepth(m.log)
    requires st == Integer || st == Decimal
    ensures BracketsAgree(reg, m.(symbol := sym, state := st))
  {
    BalanceAppend(m.tokens, Number(m.symbol));
    BalanceAppend(m.tokens, Number(sym));
  }

  /** A lone point opened on top of a balanced token list keeps the
      invariant: it has no pending token yet. */
  lemma PointStartAgrees(reg: TokenRegistry, c: Machine, ts: seq<Token>, r: char)
    requires LogSound(c.log) && NeverNegative(ts) && Balance(ts) == B.LogDepth(c.log)
    ensures BracketsAgree(reg, c.(tokens := ts, symbol := [r], state := DecimalPoint))
  {
    assert ts + [] == ts;
  }

  /** An opening bracket keeps the run invariant. */
  lemma LeftParenAgrees(reg: TokenRegistry, m: Machine, r: char)
    requires CommitReady(reg, m.state, m.symbol)
    requires BracketsAgree(reg, m)
    requires LeftParenStep(reg, m, r).Ok?
    ensures BracketsAgree(reg, LeftParenStep(reg, m, r).value)
  {
    var c := Commit(reg, m);
    CommitAgrees(reg, m);
    var ts := if c.state == Integer || c.state == Decimal || c.state == RightParen || c.state == RightUnaryOp
      then c.tokens + [ImplicitMultiplication()] else c.tokens;
    if c.state == Integer || c.state == Decimal || c.state == RightParen || c.state == RightUnaryOp {
      NeutralAppend(c.tokens, ImplicitMultiplication());
    }
    assert c.symbol + [r] == [r];
    OpenedAgrees(reg, c, ts, r);
  }

  /** An opening bracket logged on top of a balanced token list keeps the
      invariant. */
  lemma OpenedAgrees(reg: TokenRegistry, c: Machine, ts: seq<Token>, r: char)
    requires LogSound(c.log) && NeverNegative(ts) && Balance(ts) == B.LogDepth(c.log) && B.LogDepth(c.log) >= 0
    ensures var e := B.BracketDepth(c.index, B.LogDepth(c.log) + 1, B.LeftParen);
      BracketsAgree(reg, c.(tokens := ts, symbol := [r], state := LeftParen, log := c.log + [e]))
  {
    var e := B.BracketDepth(c.index, B.LogDepth(c.log) + 1, B.LeftParen);
    LogAppend(c.log, e);
    BalanceAppend(ts, Paren(B.LeftParen));
  }

  /** A closing bracket keeps the run invariant. */
  lemma RightParenAgrees(reg: TokenRegistry, m: Machine, r: char)
    requires CommitReady(reg, m.state, m.symbol)
    requires BracketsAgree(reg, m)
    requires RightParenStep(reg, m, r).Ok?
    ensures BracketsAgree(reg, RightParenStep(reg, m, r).value)
  {
    var c := Commit(reg, m);
    CommitAgrees(reg, m);
    assert c.symbol + [r] == [r];
    ClosedAgrees(reg, c, r);
  }

  /** A closing bracket logged while a bracket is open keeps the invariant. */
  lemma ClosedAgrees(reg: TokenRegistry, c: Machine, r: char)
    requires LogSound(c.log) && NeverNegative(c.tokens) && Balance(c.tokens) == B.LogDepth(c.log)
    requires B.LogDepth(c.log) > 0
    ensures var e := B.BracketDepth(c.index, B.LogDepth(c.log) - 1, B.RightParen);
      BracketsAgree(reg, c.(symbol := [r], state := RightParen, log := c.log + [e]))
  {
    var e := B.BracketDepth(c.index, B.LogDepth(c.log) - 1, B.RightParen);
    LogAppend(c.log, e);
    BalanceAppend(c.tokens, Paren(B.RightParen));
  }

  /** An operator keeps the run invariant. */
  lemma OperatorAgrees(reg: TokenRegistry, m: Machine, r: char)
    requires CommitReady(reg, m.state, m.symbol)
    requires BracketsAgree(reg, m)
    requires OperatorStep(reg, m, r).Ok?
    ensures BracketsAgree(reg, OperatorStep(reg, m, r).value)
  {
    var n := OperatorStep(reg, m, r).value;
    var c := Commit(reg, m);
    assert n.tokens == c.tokens && n.log == m.log;
    assert n.state == LeftUnaryOp || n.state == BinaryOp || n.state == RightUnaryOp;
    CommitAgrees(reg, m);
    PendingOperatorAgrees(reg, m, n);
  }

  /** A machine whose tokens are the committed ones, whose log is unchanged
      and which holds a pending operator keeps the run invariant. */
  lemma PendingOperatorAgrees(reg: TokenRegistry, m: Machine, n: Machine)
    requires CommitReady(reg, m.state, m.symbol) && CommitReady(reg, n.state, n.symbol)
    requires BracketsAgree(reg, m)
    requires n.tokens == Commit(reg, m).tokens && n.log == m.log
    requires n.state == LeftUnaryOp || n.state == BinaryOp || n.state == RightUnaryOp
    ensures BracketsAgree(reg, n)
  {
    CommitAgrees(reg, m);
    var p := CommitToken(reg, n.state, n.symbol);
    assert p == [p[0]] && p[0].Op?;
    NeutralAppend(n.tokens, p[0]);
  }

  /** Every successful step keeps the run invariant. */
  lemma StepAgrees(reg: TokenRegistry, m: Machine, r: char)
    requires CommitReady(reg, m.state, m.symbol)
    requires BracketsAgree(reg, m)
    requires Step(reg, m, r).Ok?
    ensures BracketsAgree(reg, Step(reg, m, r).value)
  {
    if reg.IsDigit(r) {
      if m.state == Integer || m.state == Decimal || m.state == DecimalPoint {
        DigitContinuesAgrees(reg, m, r);
      } else {
        DigitStartsAgrees(reg, m, r);
      }
    } else if reg.IsDecimalPoint(r) {
      DecimalPointAgrees(reg, m, r);
    } else if reg.IsLeftBracket(r) {
      LeftParenAgrees(reg, m, r);
    } else if reg.IsRightBracket(r) {
      RightParenAgrees(reg, m, r);
    } else if reg.IsOperator(r) {
      OperatorAgrees(reg, m, r);
    }
  }

  /** Every run keeps the run invariant, up to the end or the failure. */
  lemma {:induction false} RunAgrees(reg: TokenRegistry, m: Machine, input: string)
    requires CommitReady(reg, m.state, m.symbol)
    requires BracketsAgree(reg, m)
    ensures match Run(reg, m, input)
      case Done(n) => BracketsAgree(reg, n)
      case Failed(at, _) => BracketsAgree(reg, at)
    decreases |input|
  {
    if |input| > 0 {
      match Step(reg, m, input[0])
      case Err(_) =>
      case Ok(n) => {
        StepAgrees(reg, m, input[0]);
        RunAgrees(reg, n, input[1..]);
      }
    }
  }

  /** A fresh tokenization never lets the bracket depth go below zero, never
      emits a prefix that closes more brackets than it opens, and leaves as
      many unclosed brackets among its tokens as the final depth. The tokens
      are balanced exactly when the final depth is 0, which Tokenize itself
      does not check. */
  lemma TokenizeBracketsBalance(reg: TokenRegistry, expr: string)
    ensures match Run(reg, Start([]), expr)
      case Done(n) =>
        (forall k :: 0 <= k < |n.log| ==> n.log[k].depth >= 0) &&
        Tokenized(reg, [], expr) == Ok(Commit(reg, n).tokens) &&
        NeverNegative(Commit(reg, n).tokens) &&
        Balance(Commit(reg, n).tokens) == B.LogDepth(n.log) >= 0
      case Failed(at, _) =>
        forall k :: 0 <= k < |at.log| ==> at.log[k].depth >= 0
  {
    var m := Start([]);
    assert m.tokens + CommitToken(reg, m.state, m.symbol) == [];
    assert NeverNegative(m.tokens) by {
      assert m.tokens[..0] == [];
    }
    RunAgrees(reg, m, expr);
    match Run(reg, m, expr)
    case Done(n) => CommitAgrees(reg, n);
    case Failed(_, _) =>
  }

  // ---------------------------------------------------------------------
  // Finding: an operator with no left operand at the start of the input
  // ---------------------------------------------------------------------

  /** As written, a binary operator read before anything else is accepted:
      the left-operand check leaves out the empty state. */
  lemma LeadingBinaryAccepted()
    ensures OperatorStep(DefaultTokenRegistry(), Start([]), '*') ==
      Ok(Machine([], BinaryOp, "*", 0, []))
  {
    DefaultOtherLookups();
    StarIsOnlyBinary();
    assert DefaultTokenRegistry().operators == DefaultOperators();
    assert Commit(DefaultTokenRegistry(), Start([])) == Start([]);
    assert "" + ['*'] == "*";
  }

  /** Likewise a postfix operator read before anything else is accepted. */
  lemma LeadingPostfixAccepted()
    ensures OperatorStep(DefaultTokenRegistry(), Start([]), '!') ==
      Ok(Machine([], RightUnaryOp, "!", 0, []))
  {
    DefaultOtherLookups();
    FactorialIsOnlyPostfix();
    assert DefaultTokenRegistry().operators == DefaultOperators();
    assert Commit(DefaultTokenRegistry(), Start([])) == Start([]);
    assert "" + ['!'] == "!";
  }

  /** handleOperator with the empty state counted among the positions that
      have no left operand. */
  function OperatorStepChecked(reg: TokenRegistry, m: Machine, r: char): (res: Result<Machine, SyntaxError>)
    requires CommitReady(reg, m.state, m.symbol)
    ensures res.Ok? ==> CommitReady(reg, res.value.state, res.value.symbol)
  {
    var sign := GetOperator(reg.operators, r, [Some(IsUnaryOp), Some(IsRightAssocOp)]).Some?;
    var binary := GetOperator(reg.operators, r, [Some(IsBinaryOp)]).Some?;
    var postfix := GetOperator(reg.operators, r, [Some(IsUnaryOp), Some(IsLeftAssocOp)]).Some?;
    if m.state == Nothing && !sign && (binary || postfix) then
      Err(SyntaxError(NoLeftOperand, [r], m.index))
    else
      OperatorStep(reg, m, r)
  }

  /** With the check corrected, a binary or postfix operator is only ever
      accepted right after an operand: a number, a closing bracket or a
      postfix operator. Signs are unaffected. */
  lemma CheckedOperatorNeedsOperand(reg: TokenRegistry, m: Machine, r: char)
    requires CommitReady(reg, m.state, m.symbol)
    ensures var res := OperatorStepChecked(reg, m, r);
      res.Ok? && res.value.state in {BinaryOp, RightUnaryOp} ==>
        m.state in {Integer, Decimal, RightParen, RightUnaryOp}
    ensures var res := OperatorStepChecked(reg, m, r);
      res.Ok? && res.value.state == LeftUnaryOp ==> res == OperatorStep(reg, m, r)
    ensures m.state != Nothing ==> OperatorStepChecked(reg, m, r) == OperatorStep(reg, m, r)
    ensures OperatorStepChecked(DefaultTokenRegistry(), Start([]), '*') ==
      Err(SyntaxError(NoLeftOperand, "*", 0))
  {
    DefaultOtherLookups();
    StarIsOnlyBinary();
  }
}
