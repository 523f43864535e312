/** The text of a tokenization under the default registry: the tokens'
    symbols, read back in order, spell the input with its whitespace removed
    and a `*` inserted wherever an implicit multiplication was emitted, except
    that a trailing lone decimal point is lost. Re-tokenizing that text gives
    the same tokens. */
module TokenizerRender {
  import opened Wrappers
  import opened Operators
  import opened Registry
  import opened Tokens
  import opened Tokenizer
  import TokenizerProps
  import TokenizerScenarios
  import B = Brackets

  predicate IsDigitRune(c: char) {
    '0' <= c <= '9'
  }

  predicate IsSpace(c: char) {
    DefaultTokenRegistry().IsWhitespace(c)
  }

  /** The input with its whitespace runes removed. */
  function NonSpace(s: string): (t: string)
    ensures |t| <= |s|
    ensures forall i :: 0 <= i < |t| ==> !IsSpace(t[i])
    decreases |s|
  {
    if |s| == 0 then ""
    else NonSpace(s[..|s| - 1]) + (if IsSpace(s[|s| - 1]) then "" else [s[|s| - 1]])
  }

  lemma NonSpaceAppend(s: string, c: char)
    ensures NonSpace(s + [c]) == NonSpace(s) + (if IsSpace(c) then "" else [c])
  {
    assert (s + [c])[..|s|] == s;
  }

  /** Where the tokenizer inserts a multiplication between the text `s` read
      so far and the next rune `c`: a digit or point after `)` or `!`, and an
      opening bracket after a digit, a point, `)` or `!`. */
  predicate Star(s: string, c: char) {
    |s| > 0 &&
    var p := s[|s| - 1];
    (((IsDigitRune(c) || c == '.') && (p == ')' || p == '!')) ||
     (c == '(' && (IsDigitRune(p) || p == '.' || p == ')' || p == '!')))
  }

  /** The text `s` with a `*` inserted at every implicit multiplication. */
  function Spelling(s: string): (t: string)
    ensures |t| >= |s|
    decreases |s|
  {
    if |s| == 0 then ""
    else
      var p := s[..|s| - 1];
      Spelling(p) + (if Star(p, s[|s| - 1]) then "*" else "") + [s[|s| - 1]]
  }

  lemma SpellingAppend(s: string, c: char)
    ensures Spelling(s + [c]) == Spelling(s) + (if Star(s, c) then "*" else "") + [c]
  {
    assert (s + [c])[..|s|] == s;
  }

  /** The text ends in a decimal point that no digit precedes. */
  predicate LonePointAtEnd(s: string) {
    |s| > 0 && s[|s| - 1] == '.' && (|s| == 1 || !IsDigitRune(s[|s| - 2]))
  }

  /** The states a successful run can be in after reading rune `c`. */
  predicate Fits(st: State, c: char) {
    if IsDigitRune(c) then st == Integer || st == Decimal
    else if c == '.' then st == Decimal || st == DecimalPoint
    else if c == '(' then st == LeftParen
    else if c == ')' then st == RightParen
    else if c == '!' then st == RightUnaryOp
    else st == LeftUnaryOp || st == BinaryOp
  }

  /** The states whose pending lexeme is the single rune last read. */
  predicate OneRune(st: State) {
    st == DecimalPoint || st == LeftParen || st == RightParen ||
    st == LeftUnaryOp || st == BinaryOp || st == RightUnaryOp
  }

  /** The invariant of a successful run over the whitespace-free text `s`:
      the emitted tokens followed by the pending lexeme spell `s`, and the
      state agrees with the last rune read. */
  predicate Spells(m: Machine, s: string) {
    Render(m.tokens) + m.symbol == Spelling(s) &&
    (|s| == 0 ==> m.state == Nothing && m.symbol == "") &&
    (|s| > 0 ==> Fits(m.state, s[|s| - 1])) &&
    (OneRune(m.state) ==> |s| > 0 && m.symbol == [s[|s| - 1]]) &&
    (m.state == DecimalPoint <==> LonePointAtEnd(s))
  }

  /** The invariant after reading one more rune `r`, from its parts. */
  lemma SpellsExtend(n: Machine, s: string, r: char)
    requires Render(n.tokens) + n.symbol == Spelling(s + [r])
    requires Fits(n.state, r)
    requires OneRune(n.state) ==> n.symbol == [r]
    requires n.state == DecimalPoint <==> r == '.' && (|s| == 0 || !IsDigitRune(s[|s| - 1]))
    ensures Spells(n, s + [r])
  {
    var t := s + [r];
    assert t[|t| - 1] == r;
    assert |t| > 1 ==> t[|t| - 2] == s[|s| - 1];
  }

  // ---------------------------------------------------------------------
  // The default operators spell themselves
  // ---------------------------------------------------------------------

  /** Every variant registered for `r` is written as `r`. */
  lemma DefaultVariantsSpell(r: char, v: Operator)
    requires v in Variants(DefaultOperators(), r)
    ensures v.String() == [r]
  {
    SymbolTable();
  }

  /** Among the default operator runes only '!' has a postfix variant. */
  lemma DefaultPostfixIsBang(r: char)
    requires r in "+-*/^!"
    ensures GetOperator(DefaultOperators(), r, [Some(IsUnaryOp), Some(IsLeftAssocOp)]).Some? <==> r == '!'
  {
    var f: seq<Option<Filter>> := [Some(IsUnaryOp), Some(IsLeftAssocOp)];
    if r == '+' || r == '-' {
      TokenizerProps.SignsAreNotPostfix(r);
    } else if r == '!' {
      DefaultOtherLookups();
    } else {
      var v := Variants(DefaultOperators(), r);
      assert v == [NewOperator(Multiplication)] || v == [NewOperator(Division)] || v == [NewOperator(Power)];
      assert f[0].Some? && !f[0].value(v[0]);
      GetOperatorSpec(DefaultOperators(), r, f);
    }
  }

  /** Committing a lexeme other than a lone point appends exactly its text. */
  lemma CommitSpells(m: Machine, s: string)
    requires CommitReady(DefaultTokenRegistry(), m.state, m.symbol)
    requires Spells(m, s) && m.state != DecimalPoint
    ensures Render(Commit(DefaultTokenRegistry(), m).tokens) == Spelling(s)
  {
    var reg := DefaultTokenRegistry();
    var c := Commit(reg, m);
    TokenizerProps.CommitEmitsPending(reg, m);
    if m.state in {LeftUnaryOp, BinaryOp, RightUnaryOp} {
      var t := c.tokens[|m.tokens|];
      assert c.tokens == m.tokens + [t];
      DefaultVariantsSpell(m.symbol[0], t.op);
      RenderAppend(m.tokens, t);
    } else if m.state != Nothing {
      assert c.tokens == m.tokens + CommitToken(reg, m.state, m.symbol);
      RenderAppend(m.tokens, CommitToken(reg, m.state, m.symbol)[0]);
    }
  }

  // ---------------------------------------------------------------------
  // Each handler keeps the invariant
  // ---------------------------------------------------------------------

  lemma ImplicitMultiplicationSpells(ts: seq<Token>)
    ensures Render(ts + [ImplicitMultiplication()]) == Render(ts) + "*"
  {
    SymbolTable();
    RenderAppend(ts, ImplicitMultiplication());
  }

  /** A digit extending a number in progress, or following a lone point. */
  lemma DigitContinuesSpells(m: Machine, s: string, r: char)
    requires CommitReady(DefaultTokenRegistry(), m.state, m.symbol)
    requires IsDigitRune(r) && Spells(m, s)
    requires m.state == DecimalPoint || m.state == Integer || m.state == Decimal
    ensures Spells(DigitStep(DefaultTokenRegistry(), m, r), s + [r])
  {
    var n := DigitStep(DefaultTokenRegistry(), m, r);
    SpellingAppend(s, r);
    assert |s| > 0 && !Star(s, r);
    assert n.tokens == m.tokens && n.symbol == m.symbol + [r];
    assert Render(n.tokens) + n.symbol == (Render(m.tokens) + m.symbol) + [r];
    SpellsExtend(n, s, r);
  }

  /** A digit starting a new number after the pending lexeme is committed. */
  lemma DigitStartsSpells(m: Machine, s: string, r: char)
    requires CommitReady(DefaultTokenRegistry(), m.state, m.symbol)
    requires IsDigitRune(r) && Spells(m, s)
    requires !(m.state == DecimalPoint || m.state == Integer || m.state == Decimal)
    ensures Spells(DigitStep(DefaultTokenRegistry(), m, r), s + [r])
  {
    var reg := DefaultTokenRegistry();
    var n := DigitStep(reg, m, r);
    var c := Commit(reg, m);
    StarFromState(m, s, r);
    assert n.tokens == if Star(s, r) then c.tokens + [ImplicitMultiplication()] else c.tokens;
    assert n.symbol == [r] && n.state == Integer;
    StartText(m, s, r, n.tokens);
    SpellsExtend(n, s, r);
  }

  /** The handlers' tests for inserting a multiplication, read off the
      state, agree with `Star` on the text. */
  lemma StarFromState(m: Machine, s: string, c: char)
    requires Spells(m, s) && m.state != DecimalPoint
    ensures Star(s, c) <==>
      ((IsDigitRune(c) || c == '.') && (m.state == RightParen || m.state == RightUnaryOp)) ||
      (c == '(' && (m.state == Integer || m.state == Decimal || m.state == RightParen || m.state == RightUnaryOp))
  {
  }

  /** The text after committing, possibly inserting a multiplication, and
      starting a new lexeme with `c`. */
  lemma StartText(m: Machine, s: string, c: char, ts: seq<Token>)
    requires CommitReady(DefaultTokenRegistry(), m.state, m.symbol)
    requires Spells(m, s) && m.state != DecimalPoint
    requires var cm := Commit(DefaultTokenRegistry(), m);
      ts == if Star(s, c) then cm.tokens + [ImplicitMultiplication()] else cm.tokens
    ensures Render(ts) + [c] == Spelling(s + [c])
  {
    var cm := Commit(DefaultTokenRegistry(), m);
    SpellingAppend(s, c);
    CommitSpells(m, s);
    ImplicitMultiplicationSpells(cm.tokens);
  }

  lemma DigitSpells(m: Machine, s: string, r: char)
    requires CommitReady(DefaultTokenRegistry(), m.state, m.symbol)
    requires IsDigitRune(r) && Spells(m, s)
    ensures Spells(DigitStep(DefaultTokenRegistry(), m, r), s + [r])
  {
    if m.state == DecimalPoint || m.state == Integer || m.state == Decimal {
      DigitContinuesSpells(m, s, r);
    } else {
      DigitStartsSpells(m, s, r);
    }
  }

  lemma PointSpells(m: Machine, s: string)
    requires CommitReady(DefaultTokenRegistry(), m.state, m.symbol)
    requires Spells(m, s) && DecimalPointStep(DefaultTokenRegistry(), m, '.').Ok?
    ensures Spells(DecimalPointStep(DefaultTokenRegistry(), m, '.').value, s + ['.'])
  {
    var reg := DefaultTokenRegistry();
    var n := DecimalPointStep(reg, m, '.').value;
    if m.state == Integer {
      SpellingAppend(s, '.');
      assert |s| > 0 && !Star(s, '.');
      assert n.tokens == m.tokens && n.symbol == m.symbol + ['.'] && n.state == Decimal;
      assert Render(n.tokens) + n.symbol == (Render(m.tokens) + m.symbol) + ['.'];
    } else {
      var c := Commit(reg, m);
      StarFromState(m, s, '.');
      assert n.tokens == if Star(s, '.') then c.tokens + [ImplicitMultiplication()] else c.tokens;
      assert n.symbol == ['.'] && n.state == DecimalPoint;
      StartText(m, s, '.', n.tokens);
    }
    SpellsExtend(n, s, '.');
  }

  lemma OpenSpells(m: Machine, s: string)
    requires CommitReady(DefaultTokenRegistry(), m.state, m.symbol)
    requires Spells(m, s) && LeftParenStep(DefaultTokenRegistry(), m, '(').Ok?
    ensures Spells(LeftParenStep(DefaultTokenRegistry(), m, '(').value, s + ['('])
  {
    var reg := DefaultTokenRegistry();
    var n := LeftParenStep(reg, m, '(').value;
    var c := Commit(reg, m);
    StarFromState(m, s, '(');
    assert n.tokens == if Star(s, '(') then c.tokens + [ImplicitMultiplication()] else c.tokens;
    assert n.symbol == "(" && n.state == LeftParen;
    StartText(m, s, '(', n.tokens);
    SpellsExtend(n, s, '(');
  }

  lemma CloseSpells(m: Machine, s: string)
    requires CommitReady(DefaultTokenRegistry(), m.state, m.symbol)
    requires Spells(m, s) && RightParenStep(DefaultTokenRegistry(), m, ')').Ok?
    ensures Spells(RightParenStep(DefaultTokenRegistry(), m, ')').value, s + [')'])
  {
    SpellingAppend(s, ')');
    CommitSpells(m, s);
  }

  lemma OperatorSpells(m: Machine, s: string, r: char)
    requires CommitReady(DefaultTokenRegistry(), m.state, m.symbol)
    requires r in "+-*/^!"
    requires Spells(m, s) && OperatorStep(DefaultTokenRegistry(), m, r).Ok?
    ensures Spells(OperatorStep(DefaultTokenRegistry(), m, r).value, s + [r])
  {
    var reg := DefaultTokenRegistry();
    var n := OperatorStep(reg, m, r).value;
    OperatorCommits(reg, m, r);
    OperatorFits(m, r);
    assert r == '+' || r == '-' || r == '*' || r == '/' || r == '^' || r == '!';
    assert !Star(s, r);
    StartText(m, s, r, n.tokens);
    SpellsExtend(n, s, r);
  }

  /** An accepted operator commits the pending lexeme and becomes the new one. */
  lemma OperatorCommits(reg: TokenRegistry, m: Machine, r: char)
    requires CommitReady(reg, m.state, m.symbol) && OperatorStep(reg, m, r).Ok?
    ensures OperatorStep(reg, m, r).value.tokens == Commit(reg, m).tokens
    ensures OperatorStep(reg, m, r).value.symbol == [r]
    ensures m.state != DecimalPoint
  {
  }

  /** An accepted operator rune leaves the machine in the role the rune
      allows: postfix for '!', a sign or binary operator otherwise. */
  lemma OperatorFits(m: Machine, r: char)
    requires CommitReady(DefaultTokenRegistry(), m.state, m.symbol)
    requires r in "+-*/^!"
    requires OperatorStep(DefaultTokenRegistry(), m, r).Ok?
    ensures Fits(OperatorStep(DefaultTokenRegistry(), m, r).value.state, r)
    ensures OperatorStep(DefaultTokenRegistry(), m, r).value.state != DecimalPoint
  {
    DefaultPostfixIsBang(r);
    if r == '!' {
      TokenizerProps.FactorialIsOnlyPostfix();
    }
  }

  /** One successful handler call keeps the invariant over the text with the
      rune appended, or over the same text when the rune is whitespace. */
  lemma HandleSpells(m: Machine, s: string, r: char)
    requires CommitReady(DefaultTokenRegistry(), m.state, m.symbol)
    requires Spells(m, s) && Handle(DefaultTokenRegistry(), m, r).Ok?
    ensures Spells(Handle(DefaultTokenRegistry(), m, r).value, s + (if IsSpace(r) then "" else [r]))
  {
    var reg := DefaultTokenRegistry();
    if reg.IsDigit(r) {
      assert !IsSpace(r);
      DigitSpells(m, s, r);
    } else if reg.IsDecimalPoint(r) {
      assert r == '.' && !IsSpace(r);
      PointSpells(m, s);
    } else if reg.IsLeftBracket(r) {
      assert r == '(' && !IsSpace(r);
      OpenSpells(m, s);
    } else if reg.IsRightBracket(r) {
      assert r == ')' && !IsSpace(r);
      CloseSpells(m, s);
    } else if reg.IsOperator(r) {
      DefaultOperatorRunes(r);
      assert !IsSpace(r);
      OperatorSpells(m, s, r);
    } else {
      assert Handle(reg, m, r).value == m;
      assert s + "" == s;
    }
  }

  /** One successful step keeps the invariant: the step is the handler's
      result with only the index advanced. */
  lemma StepSpells(m: Machine, s: string, r: char)
    requires CommitReady(DefaultTokenRegistry(), m.state, m.symbol)
    requires Spells(m, s) && Step(DefaultTokenRegistry(), m, r).Ok?
    ensures Spells(Step(DefaultTokenRegistry(), m, r).value, s + (if IsSpace(r) then "" else [r]))
  {
    var reg := DefaultTokenRegistry();
    StepOfHandle(reg, m, r);
    HandleSpells(m, s, r);
  }

  // ---------------------------------------------------------------------
  // Along the whole run
  // ---------------------------------------------------------------------

  /** A run over `a + [c]` is the run over `a` followed by one more step. */
  lemma {:induction false} RunSnoc(reg: TokenRegistry, m: Machine, a: string, c: char)
    requires CommitReady(reg, m.state, m.symbol)
    ensures Run(reg, m, a).Failed? ==> Run(reg, m, a + [c]) == Run(reg, m, a)
    ensures Run(reg, m, a).Done? && Step(reg, Run(reg, m, a).last, c).Ok? ==>
      Run(reg, m, a + [c]) == Done(Step(reg, Run(reg, m, a).last, c).value)
    ensures Run(reg, m, a).Done? && Step(reg, Run(reg, m, a).last, c).Err? ==>
      Run(reg, m, a + [c]) == Failed(Run(reg, m, a).last, Step(reg, Run(reg, m, a).last, c).error)
    decreases |a|
  {
    if |a| == 0 {
      assert a + [c] == [c];
      RunUnfold(reg, m, [c]);
      if Step(reg, m, c).Ok? {
        assert [c][1..] == "";
      }
    } else {
      var s := a + [c];
      assert s[0] == a[0] && s[1..] == a[1..] + [c];
      RunUnfold(reg, m, s);
      RunUnfold(reg, m, a);
      if Step(reg, m, a[0]).Ok? {
        RunSnoc(reg, Step(reg, m, a[0]).value, a[1..], c);
      }
    }
  }

  /** Every successful run from the start keeps the invariant over the
      input with its whitespace removed. */
  lemma {:induction false} SpellsAlongRun(input: string)
    ensures Run(DefaultTokenRegistry(), Start([]), input).Done? ==>
      Spells(Run(DefaultTokenRegistry(), Start([]), input).last, NonSpace(input))
    decreases |input|
  {
    var reg := DefaultTokenRegistry();
    if |input| > 0 {
      var a := input[..|input| - 1];
      var c := input[|input| - 1];
      assert input == a + [c];
      RunSnoc(reg, Start([]), a, c);
      if Run(reg, Start([]), input).Done? {
        SpellsAlongRun(a);
        NonSpaceAppend(a, c);
        StepSpells(Run(reg, Start([]), a).last, NonSpace(a), c);
      }
    }
  }

  /** The round trip of a successful tokenization: the tokens' text is the
      input without whitespace, with the implicit `*`s written out; when the
      input ends in a lone decimal point, that point is missing. */
  lemma RenderRoundTrip(input: string)
    ensures var res := Tokenized(DefaultTokenRegistry(), [], input);
      res.Ok? && !LonePointAtEnd(NonSpace(input)) ==> Render(res.value) == Spelling(NonSpace(input))
    ensures var res := Tokenized(DefaultTokenRegistry(), [], input);
      res.Ok? && LonePointAtEnd(NonSpace(input)) ==> Render(res.value) + "." == Spelling(NonSpace(input))
  {
    var reg := DefaultTokenRegistry();
    SpellsAlongRun(input);
    var run := Run(reg, Start([]), input);
    if run.Done? {
      var m := run.last;
      assert Tokenized(reg, [], input) == Ok(Commit(reg, m).tokens);
      if m.state != DecimalPoint {
        CommitSpells(m, NonSpace(input));
      } else {
        assert Commit(reg, m).tokens == m.tokens;
      }
    }
  }

  // ---------------------------------------------------------------------
  // The lost trailing point, and the round trip once the end-of-input
  // check is applied
  // ---------------------------------------------------------------------

  lemma RenderFivePlus()
    ensures Render([Number("5"), Op(NewOperator(Addition))]) == "5+"
  {
    SymbolTable();
    RenderAppend([Number("5")], Op(NewOperator(Addition)));
    RenderAppend([], Number("5"));
    assert [Number("5")] == [] + [Number("5")];
    assert [Number("5"), Op(NewOperator(Addition))] == [Number("5")] + [Op(NewOperator(Addition))];
  }

  lemma NonSpaceFivePlusPoint()
    ensures NonSpace("5+.") == "5+."
  {
    var a, b, s := "5", "5+", "5+.";
    assert a == "" + ['5'] && b == a + ['+'] && s == b + ['.'];
    NonSpaceAppend("", '5');
    NonSpaceAppend(a, '+');
    NonSpaceAppend(b, '.');
  }

  lemma SpellingFivePlusPoint()
    ensures Spelling(NonSpace("5+.")) == "5+."
  {
    var a, b, s := "5", "5+", "5+.";
    NonSpaceFivePlusPoint();
    assert a == "" + ['5'] && b == a + ['+'] && s == b + ['.'];
    SpellingAppend("", '5');
    SpellingAppend(a, '+');
    SpellingAppend(b, '.');
  }

  /** As written, a lone point at the end is dropped without an error:
      "." gives no tokens and "5+." gives the same tokens as "5+", so the
      tokens' text no longer spells the input. The end-of-input check
      rejects both at the point. */
  lemma TrailingPointDropped()
    ensures Tokenized(DefaultTokenRegistry(), [], ".") == Ok([])
    ensures Render([]) != Spelling(".")
    ensures Tokenized(DefaultTokenRegistry(), [], "5+.") == Ok([Number("5"), Op(NewOperator(Addition))])
    ensures Render([Number("5"), Op(NewOperator(Addition))]) == "5+" && Spelling(NonSpace("5+.")) == "5+."
    ensures TokenizedValidated(DefaultTokenRegistry(), [], ".") == Err(SyntaxError(LoneDecimal, ".", 0))
    ensures TokenizedValidated(DefaultTokenRegistry(), [], "5+.") == Err(SyntaxError(LoneDecimal, ".", 2))
  {
    TokenizerScenarios.TokenizeTrailingPoint();
    TokenizerScenarios.TokenizeTrailingPointAfterSum();
    RenderFivePlus();
    SpellingFivePlusPoint();
    assert Spelling(".") == ".";
  }

  /** With the end-of-input check applied, every accepted input round-trips
      exactly: the tokens' text is the input without whitespace, with the
      implicit `*`s written out. */
  lemma ValidatedRoundTrip(input: string)
    ensures var res := TokenizedValidated(DefaultTokenRegistry(), [], input);
      res.Ok? ==> Render(res.value) == Spelling(NonSpace(input))
  {
    RenderRoundTrip(input);
    SpellsAlongRun(input);
  }

  // ---------------------------------------------------------------------
  // Re-tokenizing the text of the tokens
  // ---------------------------------------------------------------------

  /** Two machines that differ at most in their rune index and in the
      indices recorded in their logs. */
  predicate Alike(m1: Machine, m2: Machine) {
    m1.tokens == m2.tokens && m1.state == m2.state && m1.symbol == m2.symbol &&
    B.LogDepth(m1.log) == B.LogDepth(m2.log)
  }

  /** Under any registry, agreeing machines accept the same runes and step
      to agreeing machines. */
  lemma StepAlike(reg: TokenRegistry, m1: Machine, m2: Machine, r: char)
    requires CommitReady(reg, m1.state, m1.symbol) && Alike(m1, m2)
    ensures CommitReady(reg, m2.state, m2.symbol)
    ensures Step(reg, m1, r).Ok? <==> Step(reg, m2, r).Ok?
    ensures Step(reg, m1, r).Ok? ==> Alike(Step(reg, m1, r).value, Step(reg, m2, r).value)
  {
    StepOfHandle(reg, m1, r);
    StepOfHandle(reg, m2, r);
    if !reg.IsDigit(r) && !reg.IsDecimalPoint(r) && (reg.IsLeftBracket(r) || reg.IsRightBracket(r)) {
      BracketAlike(reg, m1, m2, r);
    }
  }

  /** The bracket handlers record the same depth on both sides. */
  lemma BracketAlike(reg: TokenRegistry, m1: Machine, m2: Machine, r: char)
    requires CommitReady(reg, m1.state, m1.symbol) && Alike(m1, m2)
    ensures LeftParenStep(reg, m1, r).Ok? <==> LeftParenStep(reg, m2, r).Ok?
    ensures LeftParenStep(reg, m1, r).Ok? ==> Alike(LeftParenStep(reg, m1, r).value, LeftParenStep(reg, m2, r).value)
    ensures RightParenStep(reg, m1, r).Ok? <==> RightParenStep(reg, m2, r).Ok?
    ensures RightParenStep(reg, m1, r).Ok? ==> Alike(RightParenStep(reg, m1, r).value, RightParenStep(reg, m2, r).value)
  {
    var l1 := B.BracketDepth(m1.index, B.LogDepth(m1.log) + 1, B.LeftParen);
    var l2 := B.BracketDepth(m2.index, B.LogDepth(m2.log) + 1, B.LeftParen);
    assert B.LogDepth(m1.log + [l1]) == B.LogDepth(m2.log + [l2]);
    var r1 := B.BracketDepth(m1.index, B.LogDepth(m1.log) - 1, B.RightParen);
    var r2 := B.BracketDepth(m2.index, B.LogDepth(m2.log) - 1, B.RightParen);
    assert B.LogDepth(m1.log + [r1]) == B.LogDepth(m2.log + [r2]);
  }

  /** Whitespace only advances the rune index. */
  lemma SpaceStep(m: Machine, r: char)
    requires CommitReady(DefaultTokenRegistry(), m.state, m.symbol) && IsSpace(r)
    ensures Step(DefaultTokenRegistry(), m, r) == Ok(m.(index := m.index + 1))
  {
    StepOfHandle(DefaultTokenRegistry(), m, r);
    DefaultClassesDisjoint(r);
    DefaultOperatorRunes(r);
  }

  /** An explicit `*` after an operand is a pending multiplication. */
  lemma StarStep(m: Machine)
    requires CommitReady(DefaultTokenRegistry(), m.state, m.symbol)
    requires m.state == Integer || m.state == Decimal || m.state == RightParen || m.state == RightUnaryOp
    ensures Step(DefaultTokenRegistry(), m, '*') ==
      Ok(Commit(DefaultTokenRegistry(), m).(symbol := "*", state := BinaryOp, index := m.index + 1))
    ensures CommitReady(DefaultTokenRegistry(), BinaryOp, "*")
    ensures CommitToken(DefaultTokenRegistry(), BinaryOp, "*") == [ImplicitMultiplication()]
  {
    var reg := DefaultTokenRegistry();
    StepOfHandle(reg, m, '*');
    DefaultClassesDisjoint('*');
    DefaultOperatorRunes('*');
    DefaultOtherLookups();
    TokenizerProps.StarIsOnlyBinary();
    assert "" + ['*'] == "*";
  }

  /** Where the tokenizer inserts a multiplication, reading an explicit `*`
      first and then the rune ends in a machine that agrees with reading
      the rune alone. */
  lemma StarThenStep(m1: Machine, m2: Machine, c: char)
    requires CommitReady(DefaultTokenRegistry(), m1.state, m1.symbol) && Alike(m1, m2)
    requires ((IsDigitRune(c) || c == '.') && (m1.state == RightParen || m1.state == RightUnaryOp)) ||
      (c == '(' && (m1.state == Integer || m1.state == Decimal || m1.state == RightParen || m1.state == RightUnaryOp))
    ensures Step(DefaultTokenRegistry(), m2, '*').Ok?
    ensures var q := Step(DefaultTokenRegistry(), m2, '*').value;
      Step(DefaultTokenRegistry(), m1, c).Ok? ==>
        Step(DefaultTokenRegistry(), q, c).Ok? &&
        Alike(Step(DefaultTokenRegistry(), m1, c).value, Step(DefaultTokenRegistry(), q, c).value)
  {
    var reg := DefaultTokenRegistry();
    StarStep(m2);
    var q := Step(reg, m2, '*').value;
    assert Commit(reg, q).tokens == Commit(reg, m1).tokens + [ImplicitMultiplication()];
    StepOfHandle(reg, m1, c);
    StepOfHandle(reg, q, c);
    if c == '(' {
      assert B.LogDepth(q.log) == B.LogDepth(m1.log);
      var e1 := B.BracketDepth(m1.index, B.LogDepth(m1.log) + 1, B.LeftParen);
      var e2 := B.BracketDepth(q.index, B.LogDepth(q.log) + 1, B.LeftParen);
      assert B.LogDepth(m1.log + [e1]) == B.LogDepth(q.log + [e2]);
    }
  }

  /** Reading the input, or the text it spells, ends in agreeing machines. */
  lemma {:induction false} MirroredRun(input: string)
    ensures var run := Run(DefaultTokenRegistry(), Start([]), input);
      var mirror := Run(DefaultTokenRegistry(), Start([]), Spelling(NonSpace(input)));
      run.Done? ==> mirror.Done? && Alike(run.last, mirror.last)
    decreases |input|
  {
    if |input| > 0 {
      var a := input[..|input| - 1];
      assert input == a + [input[|input| - 1]];
      MirroredRun(a);
      MirrorSnoc(a, input[|input| - 1]);
    }
  }

  /** `MirroredRun` for one more rune, given it for the runes before. */
  lemma MirrorSnoc(a: string, c: char)
    requires var run := Run(DefaultTokenRegistry(), Start([]), a);
      var mirror := Run(DefaultTokenRegistry(), Start([]), Spelling(NonSpace(a)));
      run.Done? ==> mirror.Done? && Alike(run.last, mirror.last)
    ensures var run := Run(DefaultTokenRegistry(), Start([]), a + [c]);
      var mirror := Run(DefaultTokenRegistry(), Start([]), Spelling(NonSpace(a + [c])));
      run.Done? ==> mirror.Done? && Alike(run.last, mirror.last)
  {
    var reg := DefaultTokenRegistry();
    RunSnoc(reg, Start([]), a, c);
    var run := Run(reg, Start([]), a + [c]);
    if run.Done? {
      SpellsAlongRun(a);
      NonSpaceAppend(a, c);
      var w := NonSpace(a);
      var p1 := Run(reg, Start([]), a).last;
      var p2 := Run(reg, Start([]), Spelling(w)).last;
      assert run.last == Step(reg, p1, c).value;
      if IsSpace(c) {
        SpaceStep(p1, c);
        assert NonSpace(a + [c]) == w;
      } else {
        MirrorStep(p1, p2, w, c);
        SpellingAppend(w, c);
        assert NonSpace(a + [c]) == w + [c];
      }
    }
  }

  /** One non-whitespace rune of `MirroredRun`. */
  lemma MirrorStep(p1: Machine, p2: Machine, w: string, c: char)
    requires CommitReady(DefaultTokenRegistry(), p1.state, p1.symbol)
    requires Spells(p1, w) && Step(DefaultTokenRegistry(), p1, c).Ok?
    requires Run(DefaultTokenRegistry(), Start([]), Spelling(w)) == Done(p2) && Alike(p1, p2)
    ensures var mirror := Run(DefaultTokenRegistry(), Start([]), Spelling(w) + (if Star(w, c) then "*" else "") + [c]);
      mirror.Done? && Alike(Step(DefaultTokenRegistry(), p1, c).value, mirror.last)
  {
    if Star(w, c) {
      MirrorStar(DefaultTokenRegistry(), Start([]), p1, p2, w, c);
    } else {
      MirrorPlain(DefaultTokenRegistry(), Start([]), p1, p2, Spelling(w), c);
      assert Spelling(w) + "" + [c] == Spelling(w) + [c];
    }
  }

  /** A rune read the same way on both sides. */
  lemma MirrorPlain(reg: TokenRegistry, m0: Machine, p1: Machine, p2: Machine, t: string, c: char)
    requires CommitReady(reg, m0.state, m0.symbol) && CommitReady(reg, p1.state, p1.symbol)
    requires Step(reg, p1, c).Ok?
    requires Run(reg, m0, t) == Done(p2) && Alike(p1, p2)
    ensures var mirror := Run(reg, m0, t + [c]);
      mirror.Done? && Alike(Step(reg, p1, c).value, mirror.last)
  {
    StepAlike(reg, p1, p2, c);
    RunSnoc(reg, m0, t, c);
  }

  /** The step of `MirroredRun` where a `*` is written out before `c`. */
  lemma MirrorStar(reg: TokenRegistry, m0: Machine, p1: Machine, p2: Machine, w: string, c: char)
    requires reg == DefaultTokenRegistry()
    requires CommitReady(reg, m0.state, m0.symbol) && CommitReady(reg, p1.state, p1.symbol)
    requires Spells(p1, w) && Star(w, c) && Step(reg, p1, c).Ok?
    requires Run(reg, m0, Spelling(w)) == Done(p2) && Alike(p1, p2)
    ensures var mirror := Run(reg, m0, Spelling(w) + "*" + [c]);
      mirror.Done? && Alike(Step(reg, p1, c).value, mirror.last)
  {
    if c == '(' {
      assert p1.state != DecimalPoint;
    }
    StarThenStep(p1, p2, c);
    RunSnoc(reg, m0, Spelling(w), '*');
    RunSnoc(reg, m0, Spelling(w) + "*", c);
  }

  /** Idempotence: tokenizing the text of the tokens gives the same tokens
      back, for every accepted input that does not end in a lone point. */
  lemma RetokenizeRendered(input: string)
    ensures var res := Tokenized(DefaultTokenRegistry(), [], input);
      res.Ok? && !LonePointAtEnd(NonSpace(input)) ==> Tokenized(DefaultTokenRegistry(), [], Render(res.value)) == res
  {
    var reg := DefaultTokenRegistry();
    RenderRoundTrip(input);
    MirroredRun(input);
    var run := Run(reg, Start([]), input);
    if run.Done? {
      var mirror := Run(reg, Start([]), Spelling(NonSpace(input)));
      assert Commit(reg, mirror.last).tokens == Commit(reg, run.last).tokens;
    }
  }

  /** With the end-of-input check applied, idempotence holds for every
      accepted input. */
  lemma RetokenizeValidated(input: string)
    ensures var res := TokenizedValidated(DefaultTokenRegistry(), [], input);
      res.Ok? ==> TokenizedValidated(DefaultTokenRegistry(), [], Render(res.value)) == res
  {
    var reg := DefaultTokenRegistry();
    ValidatedRoundTrip(input);
    MirroredRun(input);
    var run := Run(reg, Start([]), input);
    if run.Done? {
      var mirror := Run(reg, Start([]), Spelling(NonSpace(input)));
      assert Commit(reg, mirror.last).tokens == Commit(reg, run.last).tokens;
      assert FinalCheck(mirror.last).None? <==> FinalCheck(run.last).None?;
    }
  }
}
