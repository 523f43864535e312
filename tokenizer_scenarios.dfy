/** Worked inputs: whole tokenizations under the default registry, the
    tokens they produce or the first error they report. Each run is taken
    one rune at a time with the step rules below. */
module TokenizerScenarios {
  import opened Wrappers
  import opened Operators
  import opened Registry
  import opened Tokens
  import opened Tokenizer
  import opened TokenizerProps
  import B = Brackets

  // Step rules under the default registry.

  lemma DigitExtends(m: Machine, d: char)
    requires m.state == Integer || m.state == Decimal
    requires '0' <= d <= '9'
    ensures Handle(DefaultTokenRegistry(), m, d) == Ok(m.(symbol := m.symbol + [d]))
  {
  }

  lemma DigitAfterPoint(m: Machine, d: char)
    requires m.state == DecimalPoint
    requires '0' <= d <= '9'
    ensures Handle(DefaultTokenRegistry(), m, d) == Ok(m.(symbol := m.symbol + [d], state := Decimal))
  {
  }

  lemma DigitOpens(m: Machine, d: char)
    requires CommitReady(DefaultTokenRegistry(), m.state, m.symbol)
    requires m.state in {Nothing, LeftParen, BinaryOp, LeftUnaryOp}
    requires '0' <= d <= '9'
    ensures Handle(DefaultTokenRegistry(), m, d) ==
      Ok(Commit(DefaultTokenRegistry(), m).(symbol := [d], state := Integer))
  {
    assert Commit(DefaultTokenRegistry(), m).symbol + [d] == [d];
  }

  lemma DigitAfterClose(m: Machine, d: char)
    requires CommitReady(DefaultTokenRegistry(), m.state, m.symbol)
    requires m.state in {RightParen, RightUnaryOp}
    requires '0' <= d <= '9'
    ensures var c := Commit(DefaultTokenRegistry(), m);
      Handle(DefaultTokenRegistry(), m, d) ==
        Ok(c.(tokens := c.tokens + [ImplicitMultiplication()], symbol := [d], state := Integer))
  {
    assert Commit(DefaultTokenRegistry(), m).symbol + [d] == [d];
  }

  lemma PointInInteger(m: Machine)
    requires m.state == Integer
    ensures Handle(DefaultTokenRegistry(), m, '.') == Ok(m.(symbol := m.symbol + ".", state := Decimal))
  {
  }

  lemma PointOpens(m: Machine)
    requires CommitReady(DefaultTokenRegistry(), m.state, m.symbol)
    requires m.state in {Nothing, LeftParen, BinaryOp, LeftUnaryOp}
    ensures Handle(DefaultTokenRegistry(), m, '.') ==
      Ok(Commit(DefaultTokenRegistry(), m).(symbol := ".", state := DecimalPoint))
  {
    assert Commit(DefaultTokenRegistry(), m).symbol + "." == ".";
  }

  lemma ParenOpens(m: Machine)
    requires CommitReady(DefaultTokenRegistry(), m.state, m.symbol)
    requires m.state in {Nothing, LeftParen, BinaryOp, LeftUnaryOp}
    ensures var c := Commit(DefaultTokenRegistry(), m);
      Handle(DefaultTokenRegistry(), m, '(') ==
        Ok(c.(symbol := "(", state := LeftParen,
              log := m.log + [B.BracketDepth(m.index, B.LogDepth(m.log) + 1, B.LeftParen)]))
  {
    assert Commit(DefaultTokenRegistry(), m).symbol + "(" == "(";
  }

  lemma ParenCloses(m: Machine)
    requires CommitReady(DefaultTokenRegistry(), m.state, m.symbol)
    requires m.state in {Integer, Decimal, RightParen, RightUnaryOp}
    requires B.LogDepth(m.log) != 0
    ensures var c := Commit(DefaultTokenRegistry(), m);
      Handle(DefaultTokenRegistry(), m, ')') ==
        Ok(c.(symbol := ")", state := RightParen,
              log := m.log + [B.BracketDepth(m.index, B.LogDepth(m.log) - 1, B.RightParen)]))
  {
    assert Commit(DefaultTokenRegistry(), m).symbol + ")" == ")";
  }

  /** An operator rune is dispatched to the operator handler. */
  lemma OperatorDispatch(m: Machine, r: char)
    requires CommitReady(DefaultTokenRegistry(), m.state, m.symbol)
    requires r == '+' || r == '-' || r == '*' || r == '/' || r == '^' || r == '!'
    ensures Handle(DefaultTokenRegistry(), m, r) ==
      OperatorStep(DefaultTokenRegistry(), m, r)
  {
    var reg := DefaultTokenRegistry();
    DefaultOperatorRunes(r);
    assert reg.IsOperator(r);
    assert !reg.IsDigit(r) && !reg.IsDecimalPoint(r) && !reg.IsLeftBracket(r) && !reg.IsRightBracket(r);
  }

  lemma SignOpens(m: Machine, r: char)
    requires CommitReady(DefaultTokenRegistry(), m.state, m.symbol)
    requires m.state in {Nothing, LeftParen, BinaryOp, LeftUnaryOp}
    requires r == '+' || r == '-'
    ensures Handle(DefaultTokenRegistry(), m, r) ==
      Ok(Commit(DefaultTokenRegistry(), m).(symbol := [r], state := LeftUnaryOp))
  {
    OperatorDispatch(m, r);
    DefaultSignOrBinary(m, r);
  }

  lemma BinaryAfterOperand(m: Machine, r: char)
    requires CommitReady(DefaultTokenRegistry(), m.state, m.symbol)
    requires m.state in {Integer, Decimal, RightParen, RightUnaryOp}
    requires r == '+' || r == '-'
    ensures Handle(DefaultTokenRegistry(), m, r) ==
      Ok(Commit(DefaultTokenRegistry(), m).(symbol := [r], state := BinaryOp))
  {
    OperatorDispatch(m, r);
    DefaultSignOrBinary(m, r);
  }

  lemma SlashAfterOperand(m: Machine)
    requires CommitReady(DefaultTokenRegistry(), m.state, m.symbol)
    requires m.state in {Integer, Decimal, RightParen, RightUnaryOp}
    ensures Handle(DefaultTokenRegistry(), m, '/') ==
      Ok(Commit(DefaultTokenRegistry(), m).(symbol := "/", state := BinaryOp))
  {
    OperatorDispatch(m, '/');
    SlashIsOnlyBinary();
    DefaultOtherLookups();
    assert DefaultTokenRegistry().operators == DefaultOperators();
    OperatorRoles(DefaultTokenRegistry(), m, '/');
  }

  /** '/' has a single variant, which is binary only. */
  lemma SlashIsOnlyBinary()
    ensures GetOperator(DefaultOperators(), '/', [Some(IsUnaryOp), Some(IsRightAssocOp)]).None?
    ensures GetOperator(DefaultOperators(), '/', [Some(IsUnaryOp), Some(IsLeftAssocOp)]).None?
  {
    var f: seq<Option<Filter>> := [Some(IsUnaryOp), Some(IsRightAssocOp)];
    var g: seq<Option<Filter>> := [Some(IsUnaryOp), Some(IsLeftAssocOp)];
    var slash := NewOperator(Division);
    assert Variants(DefaultOperators(), '/') == [slash];
    assert f[0].Some? && !f[0].value(slash);
    assert g[0].Some? && !g[0].value(slash);
    GetOperatorSpec(DefaultOperators(), '/', f);
    GetOperatorSpec(DefaultOperators(), '/', g);
  }

  lemma SpaceSkipped(m: Machine)
    requires CommitReady(DefaultTokenRegistry(), m.state, m.symbol)
    ensures Handle(DefaultTokenRegistry(), m, ' ') == Ok(m)
  {
    DefaultOperatorRunes(' ');
  }

  /** '*' and '/' after an operand are binary operators. */
  lemma BinaryOnlyAfterOperand(m: Machine, r: char)
    requires CommitReady(DefaultTokenRegistry(), m.state, m.symbol)
    requires m.state in {Integer, Decimal, RightParen, RightUnaryOp}
    requires r == '*' || r == '/'
    ensures Handle(DefaultTokenRegistry(), m, r) ==
      Ok(Commit(DefaultTokenRegistry(), m).(symbol := [r], state := BinaryOp))
  {
    OperatorDispatch(m, r);
    StarIsOnlyBinary();
    SlashIsOnlyBinary();
    DefaultOtherLookups();
    assert DefaultTokenRegistry().operators == DefaultOperators();
    OperatorRoles(DefaultTokenRegistry(), m, r);
  }

  /** '/' right after another operator has no left operand. */
  lemma SlashAfterOperator(m: Machine)
    requires CommitReady(DefaultTokenRegistry(), m.state, m.symbol)
    requires m.state in {LeftParen, BinaryOp, LeftUnaryOp}
    ensures Handle(DefaultTokenRegistry(), m, '/') == Err(SyntaxError(NoLeftOperand, "/", m.index))
  {
    OperatorDispatch(m, '/');
    SlashIsOnlyBinary();
    DefaultOtherLookups();
    assert DefaultTokenRegistry().operators == DefaultOperators();
    OperatorRoles(DefaultTokenRegistry(), m, '/');
  }

  lemma PlusAfterPoint(m: Machine)
    requires CommitReady(DefaultTokenRegistry(), m.state, m.symbol)
    requires m.state == DecimalPoint
    ensures Handle(DefaultTokenRegistry(), m, '+') == Err(SyntaxError(LoneDecimal, ".", m.index - 1))
  {
    OperatorDispatch(m, '+');
    OperatorAfterLonePoint(DefaultTokenRegistry(), m, '+');
  }

  lemma ParenAfterPoint(m: Machine)
    requires m.state == DecimalPoint
    ensures Handle(DefaultTokenRegistry(), m, '(') == Err(SyntaxError(LoneDecimal, ".", m.index - 1))
  {
  }

  lemma PointTwice(m: Machine)
    requires m.state == Decimal || m.state == DecimalPoint
    ensures Handle(DefaultTokenRegistry(), m, '.') == Err(SyntaxError(MultipleDecimal, ".", m.index))
  {
  }

  lemma CloseAfterOperator(m: Machine)
    requires CommitReady(DefaultTokenRegistry(), m.state, m.symbol)
    requires m.state == BinaryOp || m.state == LeftUnaryOp
    requires B.LogDepth(m.log) != 0
    ensures Handle(DefaultTokenRegistry(), m, ')') == Err(SyntaxError(NoRightOperand, m.symbol, m.index - 1))
  {
  }

  lemma HashUnknown(m: Machine)
    requires CommitReady(DefaultTokenRegistry(), m.state, m.symbol)
    ensures Handle(DefaultTokenRegistry(), m, '#') == Err(SyntaxError(UnknownSymbol, "#", m.index))
  {
    DefaultOperatorRunes('#');
  }

  // Committed operator lexemes under the default registry.

  lemma CommitsAddition(m: Machine)
    requires m.state == BinaryOp && m.symbol == "+"
    ensures CommitReady(DefaultTokenRegistry(), m.state, m.symbol)
    ensures Commit(DefaultTokenRegistry(), m) == m.(tokens := m.tokens + [Op(NewOperator(Addition))], symbol := "")
  {
    DefaultSignLookups();
  }

  lemma CommitsDivision(m: Machine)
    requires m.state == BinaryOp && m.symbol == "/"
    ensures CommitReady(DefaultTokenRegistry(), m.state, m.symbol)
    ensures Commit(DefaultTokenRegistry(), m) == m.(tokens := m.tokens + [Op(NewOperator(Division))], symbol := "")
  {
    DefaultOtherLookups();
  }

  lemma CommitsMinus(m: Machine)
    requires m.state == LeftUnaryOp && m.symbol == "-"
    ensures CommitReady(DefaultTokenRegistry(), m.state, m.symbol)
    ensures Commit(DefaultTokenRegistry(), m) == m.(tokens := m.tokens + [Op(NewOperator(Minus))], symbol := "")
  {
    DefaultSignLookups();
    SwappedFiltersAgree(DefaultOperators(), '-', Some(IsUnaryOp), Some(IsRightAssocOp));
  }

  lemma CommitsMultiplication(m: Machine)
    requires m.state == BinaryOp && m.symbol == "*"
    ensures CommitReady(DefaultTokenRegistry(), m.state, m.symbol)
    ensures Commit(DefaultTokenRegistry(), m) == m.(tokens := m.tokens + [Op(NewOperator(Multiplication))], symbol := "")
  {
    DefaultOtherLookups();
  }

  // ---------------------------------------------------------------------
  // The inputs; each rune's handler outcome is its own small lemma.
  // ---------------------------------------------------------------------
  const Input56: string := "56"

  lemma Tokenize56Runes()
    ensures |Input56| == 2
    ensures Input56[0] == '5'
    ensures Input56[1] == '6'
  {
  }

  lemma Tokenize56Step0()
    ensures Step(DefaultTokenRegistry(), Machine([], Nothing, "", 0, []), '5') ==
      Ok(Machine([], Integer, "5", 1, []))
  {
    var m := Machine([], Nothing, "", 0, []);
    DigitOpens(m, '5');
    assert m.tokens + [] == m.tokens;
  }

  lemma Tokenize56Step1()
    ensures Step(DefaultTokenRegistry(), Machine([], Integer, "5", 1, []), '6') ==
      Ok(Machine([], Integer, "56", 2, []))
  {
    var m := Machine([], Integer, "5", 1, []);
    DigitExtends(m, '6');
    assert "5" + ['6'] == "56";
  }

  /** "56" is one number. */
  lemma Tokenize56()
    ensures Tokenized(DefaultTokenRegistry(), [], Input56) == Ok([Number("56")])
  {
    var s := Input56;
    Tokenize56Runes();
    assert s[0..] == s;
    Tokenize56Step0();
    RunCons(DefaultTokenRegistry(), Machine([], Nothing, "", 0, []), s, 0, Machine([], Integer, "5", 1, []));
    Tokenize56Step1();
    RunCons(DefaultTokenRegistry(), Machine([], Integer, "5", 1, []), s, 1, Machine([], Integer, "56", 2, []));
    assert s[2..] == [];
    assert Run(DefaultTokenRegistry(), Machine([], Integer, "56", 2, []), s[2..]) == Done(Machine([], Integer, "56", 2, []));
    assert [] + [Number("56")] == [Number("56")];
  }

  const Input5Plus6: string := "5+6"

  lemma Tokenize5Plus6Runes()
    ensures |Input5Plus6| == 3
    ensures Input5Plus6[0] == '5'
    ensures Input5Plus6[1] == '+'
    ensures Input5Plus6[2] == '6'
  {
  }

  lemma Tokenize5Plus6Step0()
    ensures Step(DefaultTokenRegistry(), Machine([], Nothing, "", 0, []), '5') ==
      Ok(Machine([], Integer, "5", 1, []))
  {
    var m := Machine([], Nothing, "", 0, []);
    DigitOpens(m, '5');
    assert m.tokens + [] == m.tokens;
  }

  lemma Tokenize5Plus6Step1()
    ensures Step(DefaultTokenRegistry(), Machine([], Integer, "5", 1, []), '+') ==
      Ok(Machine([Number("5")], BinaryOp, "+", 2, []))
  {
    var m := Machine([], Integer, "5", 1, []);
    BinaryAfterOperand(m, '+');
    assert [] + [Number("5")] == [Number("5")];
  }

  lemma Tokenize5Plus6Step2()
    ensures CommitReady(DefaultTokenRegistry(), BinaryOp, "+")
    ensures Step(DefaultTokenRegistry(), Machine([Number("5")], BinaryOp, "+", 2, []), '6') ==
      Ok(Machine([Number("5"), Op(NewOperator(Addition))], Integer, "6", 3, []))
  {
    var m := Machine([Number("5")], BinaryOp, "+", 2, []);
    CommitsAddition(m);
    DigitOpens(m, '6');
    assert [Number("5")] + [Op(NewOperator(Addition))] == [Number("5"), Op(NewOperator(Addition))];
  }

  /** "5+6" is a number, the binary addition and a number. */
  lemma Tokenize5Plus6()
    ensures Tokenized(DefaultTokenRegistry(), [], Input5Plus6) ==
      Ok([Number("5"), Op(NewOperator(Addition)), Number("6")])
  {
    var s := Input5Plus6;
    Tokenize5Plus6Runes();
    assert s[0..] == s;
    Tokenize5Plus6Step0();
    RunCons(DefaultTokenRegistry(), Machine([], Nothing, "", 0, []), s, 0, Machine([], Integer, "5", 1, []));
    Tokenize5Plus6Step1();
    RunCons(DefaultTokenRegistry(), Machine([], Integer, "5", 1, []), s, 1, Machine([Number("5")], BinaryOp, "+", 2, []));
    Tokenize5Plus6Step2();
    RunCons(DefaultTokenRegistry(), Machine([Number("5")], BinaryOp, "+", 2, []), s, 2, Machine([Number("5"), Op(NewOperator(Addition))], Integer, "6", 3, []));
    assert s[3..] == [];
    assert Run(DefaultTokenRegistry(), Machine([Number("5"), Op(NewOperator(Addition))], Integer, "6", 3, []), s[3..]) == Done(Machine([Number("5"), Op(NewOperator(Addition))], Integer, "6", 3, []));
    assert [Number("5"), Op(NewOperator(Addition))] + [Number("6")] == [Number("5"), Op(NewOperator(Addition)), Number("6")];
  }

  const InputSample: string := "(10 +- 7.5) / ((-5)7)"

  lemma TokenizeSampleRunes()
    ensures |InputSample| == 21
    ensures InputSample[0] == '('
    ensures InputSample[1] == '1'
    ensures InputSample[2] == '0'
    ensures InputSample[3] == ' '
    ensures InputSample[4] == '+'
    ensures InputSample[5] == '-'
    ensures InputSample[6] == ' '
    ensures InputSample[7] == '7'
    ensures InputSample[8] == '.'
    ensures InputSample[9] == '5'
    ensures InputSample[10] == ')'
    ensures InputSample[11] == ' '
    ensures InputSample[12] == '/'
    ensures InputSample[13] == ' '
    ensures InputSample[14] == '('
    ensures InputSample[15] == '('
    ensures InputSample[16] == '-'
    ensures InputSample[17] == '5'
    ensures InputSample[18] == ')'
    ensures InputSample[19] == '7'
    ensures InputSample[20] == ')'
  {
  }

  lemma TokenizeSampleStep0()
    ensures Step(DefaultTokenRegistry(), Machine([], Nothing, "", 0, []), '(') ==
      Ok(Machine([], LeftParen, "(", 1, [B.BracketDepth(0, 1, B.LeftParen)]))
  {
    var m := Machine([], Nothing, "", 0, []);
    ParenOpens(m);
    assert m.tokens + [] == m.tokens;
    assert [] + [B.BracketDepth(0, 1, B.LeftParen)] == [B.BracketDepth(0, 1, B.LeftParen)];
  }

  lemma TokenizeSampleStep1()
    ensures Step(DefaultTokenRegistry(), Machine([], LeftParen, "(", 1, [B.BracketDepth(0, 1, B.LeftParen)]), '1') ==
      Ok(Machine([Paren(B.LeftParen)], Integer, "1", 2, [B.BracketDepth(0, 1, B.LeftParen)]))
  {
    var m := Machine([], LeftParen, "(", 1, [B.BracketDepth(0, 1, B.LeftParen)]);
    DigitOpens(m, '1');
    assert [] + [Paren(B.LeftParen)] == [Paren(B.LeftParen)];
  }

  lemma TokenizeSampleStep2()
    ensures Step(DefaultTokenRegistry(), Machine([Paren(B.LeftParen)], Integer, "1", 2, [B.BracketDepth(0, 1, B.LeftParen)]), '0') ==
      Ok(Machine([Paren(B.LeftParen)], Integer, "10", 3, [B.BracketDepth(0, 1, B.LeftParen)]))
  {
    var m := Machine([Paren(B.LeftParen)], Integer, "1", 2, [B.BracketDepth(0, 1, B.LeftParen)]);
    DigitExtends(m, '0');
    assert "1" + ['0'] == "10";
  }

  lemma TokenizeSampleStep3()
    ensures Step(DefaultTokenRegistry(), Machine([Paren(B.LeftParen)], Integer, "10", 3, [B.BracketDepth(0, 1, B.LeftParen)]), ' ') ==
      Ok(Machine([Paren(B.LeftParen)], Integer, "10", 4, [B.BracketDepth(0, 1, B.LeftParen)]))
  {
    var m := Machine([Paren(B.LeftParen)], Integer, "10", 3, [B.BracketDepth(0, 1, B.LeftParen)]);
    SpaceSkipped(m);
  }

  lemma TokenizeSampleStep4()
    ensures Step(DefaultTokenRegistry(), Machine([Paren(B.LeftParen)], Integer, "10", 4, [B.BracketDepth(0, 1, B.LeftParen)]), '+') ==
      Ok(Machine([Paren(B.LeftParen), Number("10")], BinaryOp, "+", 5, [B.BracketDepth(0, 1, B.LeftParen)]))
  {
    var m := Machine([Paren(B.LeftParen)], Integer, "10", 4, [B.BracketDepth(0, 1, B.LeftParen)]);
    BinaryAfterOperand(m, '+');
    assert [Paren(B.LeftParen)] + [Number("10")] == [Paren(B.LeftParen), Number("10")];
  }

  lemma TokenizeSampleStep5()
    ensures CommitReady(DefaultTokenRegistry(), BinaryOp, "+")
    ensures Step(DefaultTokenRegistry(), Machine([Paren(B.LeftParen), Number("10")], BinaryOp, "+", 5, [B.BracketDepth(0, 1, B.LeftParen)]), '-') ==
      Ok(Machine([Paren(B.LeftParen), Number("10"), Op(NewOperator(Addition))], LeftUnaryOp, "-", 6, [B.BracketDepth(0, 1, B.LeftParen)]))
  {
    var m := Machine([Paren(B.LeftParen), Number("10")], BinaryOp, "+", 5, [B.BracketDepth(0, 1, B.LeftParen)]);
    CommitsAddition(m);
    SignOpens(m, '-');
    assert [Paren(B.LeftParen), Number("10")] + [Op(NewOperator(Addition))] == [Paren(B.LeftParen), Number("10"), Op(NewOperator(Addition))];
  }

  lemma TokenizeSampleStep6()
    ensures CommitReady(DefaultTokenRegistry(), LeftUnaryOp, "-")
    ensures Step(DefaultTokenRegistry(), Machine([Paren(B.LeftParen), Number("10"), Op(NewOperator(Addition))], LeftUnaryOp, "-", 6, [B.BracketDepth(0, 1, B.LeftParen)]), ' ') ==
      Ok(Machine([Paren(B.LeftParen), Number("10"), Op(NewOperator(Addition))], LeftUnaryOp, "-", 7, [B.BracketDepth(0, 1, B.LeftParen)]))
  {
    var m := Machine([Paren(B.LeftParen), Number("10"), Op(NewOperator(Addition))], LeftUnaryOp, "-", 6, [B.BracketDepth(0, 1, B.LeftParen)]);
    CommitsMinus(m);
    SpaceSkipped(m);
  }

  lemma TokenizeSampleStep7()
    ensures CommitReady(DefaultTokenRegistry(), LeftUnaryOp, "-")
    ensures Step(DefaultTokenRegistry(), Machine([Paren(B.LeftParen), Number("10"), Op(NewOperator(Addition))], LeftUnaryOp, "-", 7, [B.BracketDepth(0, 1, B.LeftParen)]), '7') ==
      Ok(Machine([Paren(B.LeftParen), Number("10"), Op(NewOperator(Addition)), Op(NewOperator(Minus))], Integer, "7", 8, [B.BracketDepth(0, 1, B.LeftParen)]))
  {
    var m := Machine([Paren(B.LeftParen), Number("10"), Op(NewOperator(Addition))], LeftUnaryOp, "-", 7, [B.BracketDepth(0, 1, B.LeftParen)]);
    CommitsMinus(m);
    DigitOpens(m, '7');
    assert [Paren(B.LeftParen), Number("10"), Op(NewOperator(Addition))] + [Op(NewOperator(Minus))] == [Paren(B.LeftParen), Number("10"), Op(NewOperator(Addition)), Op(NewOperator(Minus))];
  }

  lemma TokenizeSampleStep8()
    ensures Step(DefaultTokenRegistry(), Machine([Paren(B.LeftParen), Number("10"), Op(NewOperator(Addition)), Op(NewOperator(Minus))], Integer, "7", 8, [B.BracketDepth(0, 1, B.LeftParen)]), '.') ==
      Ok(Machine([Paren(B.LeftParen), Number("10"), Op(NewOperator(Addition)), Op(NewOperator(Minus))], Decimal, "7.", 9, [B.BracketDepth(0, 1, B.LeftParen)]))
  {
    var m := Machine([Paren(B.LeftParen), Number("10"), Op(NewOperator(Addition)), Op(NewOperator(Minus))], Integer, "7", 8, [B.BracketDepth(0, 1, B.LeftParen)]);
    PointInInteger(m);
    assert "7" + "." == "7.";
  }

  lemma TokenizeSampleStep9()
    ensures Step(DefaultTokenRegistry(), Machine([Paren(B.LeftParen), Number("10"), Op(NewOperator(Addition)), Op(NewOperator(Minus))], Decimal, "7.", 9, [B.BracketDepth(0, 1, B.LeftParen)]), '5') ==
      Ok(Machine([Paren(B.LeftParen), Number("10"), Op(NewOperator(Addition)), Op(NewOperator(Minus))], Decimal, "7.5", 10, [B.BracketDepth(0, 1, B.LeftParen)]))
  {
    var m := Machine([Paren(B.LeftParen), Number("10"), Op(NewOperator(Addition)), Op(NewOperator(Minus))], Decimal, "7.", 9, [B.BracketDepth(0, 1, B.LeftParen)]);
    DigitExtends(m, '5');
    assert "7." + ['5'] == "7.5";
  }

  lemma TokenizeSampleStep10()
    ensures Step(DefaultTokenRegistry(), Machine([Paren(B.LeftParen), Number("10"), Op(NewOperator(Addition)), Op(NewOperator(Minus))], Decimal, "7.5", 10, [B.BracketDepth(0, 1, B.LeftParen)]), ')') ==
      Ok(Machine([Paren(B.LeftParen), Number("10"), Op(NewOperator(Addition)), Op(NewOperator(Minus)), Number("7.5")], RightParen, ")", 11, [B.BracketDepth(0, 1, B.LeftParen), B.BracketDepth(10, 0, B.RightParen)]))
  {
    var m := Machine([Paren(B.LeftParen), Number("10"), Op(NewOperator(Addition)), Op(NewOperator(Minus))], Decimal, "7.5", 10, [B.BracketDepth(0, 1, B.LeftParen)]);
    ParenCloses(m);
    assert [Paren(B.LeftParen), Number("10"), Op(NewOperator(Addition)), Op(NewOperator(Minus))] + [Number("7.5")] == [Paren(B.LeftParen), Number("10"), Op(NewOperator(Addition)), Op(NewOperator(Minus)), Number("7.5")];
    assert [B.BracketDepth(0, 1, B.LeftParen)] + [B.BracketDepth(10, 0, B.RightParen)] == [B.BracketDepth(0, 1, B.LeftParen), B.BracketDepth(10, 0, B.RightParen)];
  }

  lemma TokenizeSampleStep11()
    ensures Step(DefaultTokenRegistry(), Machine([Paren(B.LeftParen), Number("10"), Op(NewOperator(Addition)), Op(NewOperator(Minus)), Number("7.5")], RightParen, ")", 11, [B.BracketDepth(0, 1, B.LeftParen), B.BracketDepth(10, 0, B.RightParen)]), ' ') ==
      Ok(Machine([Paren(B.LeftParen), Number("10"), Op(NewOperator(Addition)), Op(NewOperator(Minus)), Number("7.5")], RightParen, ")", 12, [B.BracketDepth(0, 1, B.LeftParen), B.BracketDepth(10, 0, B.RightParen)]))
  {
    var m := Machine([Paren(B.LeftParen), Number("10"), Op(NewOperator(Addition)), Op(NewOperator(Minus)), Number("7.5")], RightParen, ")", 11, [B.BracketDepth(0, 1, B.LeftParen), B.BracketDepth(10, 0, B.RightParen)]);
    SpaceSkipped(m);
  }

  lemma TokenizeSampleStep12()
    ensures Step(DefaultTokenRegistry(), Machine([Paren(B.LeftParen), Number("10"), Op(NewOperator(Addition)), Op(NewOperator(Minus)), Number("7.5")], RightParen, ")", 12, [B.BracketDepth(0, 1, B.LeftParen), B.BracketDepth(10, 0, B.RightParen)]), '/') ==
      Ok(Machine([Paren(B.LeftParen), Number("10"), Op(NewOperator(Addition)), Op(NewOperator(Minus)), Number("7.5"), Paren(B.RightParen)], BinaryOp, "/", 13, [B.BracketDepth(0, 1, B.LeftParen), B.BracketDepth(10, 0, B.RightParen)]))
  {
    var m := Machine([Paren(B.LeftParen), Number("10"), Op(NewOperator(Addition)), Op(NewOperator(Minus)), Number("7.5")], RightParen, ")", 12, [B.BracketDepth(0, 1, B.LeftParen), B.BracketDepth(10, 0, B.RightParen)]);
    BinaryOnlyAfterOperand(m, '/');
    assert [Paren(B.LeftParen), Number("10"), Op(NewOperator(Addition)), Op(NewOperator(Minus)), Number("7.5")] + [Paren(B.RightParen)] == [Paren(B.LeftParen), Number("10"), Op(NewOperator(Addition)), Op(NewOperator(Minus)), Number("7.5"), Paren(B.RightParen)];
  }

  lemma TokenizeSampleStep13()
    ensures CommitReady(DefaultTokenRegistry(), BinaryOp, "/")
    ensures Step(DefaultTokenRegistry(), Machine([Paren(B.LeftParen), Number("10"), Op(NewOperator(Addition)), Op(NewOperator(Minus)), Number("7.5"), Paren(B.RightParen)], BinaryOp, "/", 13, [B.BracketDepth(0, 1, B.LeftParen), B.BracketDepth(10, 0, B.RightParen)]), ' ') ==
      Ok(Machine([Paren(B.LeftParen), Number("10"), Op(NewOperator(Addition)), Op(NewOperator(Minus)), Number("7.5"), Paren(B.RightParen)], BinaryOp, "/", 14, [B.BracketDepth(0, 1, B.LeftParen), B.BracketDepth(10, 0, B.RightParen)]))
  {
    var m := Machine([Paren(B.LeftParen), Number("10"), Op(NewOperator(Addition)), Op(NewOperator(Minus)), Number("7.5"), Paren(B.RightParen)], BinaryOp, "/", 13, [B.BracketDepth(0, 1, B.LeftParen), B.BracketDepth(10, 0, B.RightParen)]);
    CommitsDivision(m);
    SpaceSkipped(m);
  }

  lemma TokenizeSampleStep14()
    ensures CommitReady(DefaultTokenRegistry(), BinaryOp, "/")
    ensures Step(DefaultTokenRegistry(), Machine([Paren(B.LeftParen), Number("10"), Op(NewOperator(Addition)), Op(NewOperator(Minus)), Number("7.5"), Paren(B.RightParen)], BinaryOp, "/", 14, [B.BracketDepth(0, 1, B.LeftParen), B.BracketDepth(10, 0, B.RightParen)]), '(') ==
      Ok(Machine([Paren(B.LeftParen), Number("10"), Op(NewOperator(Addition)), Op(NewOperator(Minus)), Number("7.5"), Paren(B.RightParen), Op(NewOperator(Division))], LeftParen, "(", 15, [B.BracketDepth(0, 1, B.LeftParen), B.BracketDepth(10, 0, B.RightParen), B.BracketDepth(14, 1, B.LeftParen)]))
  {
    var m := Machine([Paren(B.LeftParen), Number("10"), Op(NewOperator(Addition)), Op(NewOperator(Minus)), Number("7.5"), Paren(B.RightParen)], BinaryOp, "/", 14, [B.BracketDepth(0, 1, B.LeftParen), B.BracketDepth(10, 0, B.RightParen)]);
    CommitsDivision(m);
    ParenOpens(m);
    assert [Paren(B.LeftParen), Number("10"), Op(NewOperator(Addition)), Op(NewOperator(Minus)), Number("7.5"), Paren(B.RightParen)] + [Op(NewOperator(Division))] == [Paren(B.LeftParen), Number("10"), Op(NewOperator(Addition)), Op(NewOperator(Minus)), Number("7.5"), Paren(B.RightParen), Op(NewOperator(Division))];
    assert [B.BracketDepth(0, 1, B.LeftParen), B.BracketDepth(10, 0, B.RightParen)] + [B.BracketDepth(14, 1, B.LeftParen)] == [B.BracketDepth(0, 1, B.LeftParen), B.BracketDepth(10, 0, B.RightParen), B.BracketDepth(14, 1, B.LeftParen)];
  }

  lemma TokenizeSampleStep15()
    ensures Step(DefaultTokenRegistry(), Machine([Paren(B.LeftParen), Number("10"), Op(NewOperator(Addition)), Op(NewOperator(Minus)), Number("7.5"), Paren(B.RightParen), Op(NewOperator(Division))], LeftParen, "(", 15, [B.BracketDepth(0, 1, B.LeftParen), B.BracketDepth(10, 0, B.RightParen), B.BracketDepth(14, 1, B.LeftParen)]), '(') ==
      Ok(Machine([Paren(B.LeftParen), Number("10"), Op(NewOperator(Addition)), Op(NewOperator(Minus)), Number("7.5"), Paren(B.RightParen), Op(NewOperator(Division)), Paren(B.LeftParen)], LeftParen, "(", 16, [B.BracketDepth(0, 1, B.LeftParen), B.BracketDepth(10, 0, B.RightParen), B.BracketDepth(14, 1, B.LeftParen), B.BracketDepth(15, 2, B.LeftParen)]))
  {
    var m := Machine([Paren(B.LeftParen), Number("10"), Op(NewOperator(Addition)), Op(NewOperator(Minus)), Number("7.5"), Paren(B.RightParen), Op(NewOperator(Division))], LeftParen, "(", 15, [B.BracketDepth(0, 1, B.LeftParen), B.BracketDepth(10, 0, B.RightParen), B.BracketDepth(14, 1, B.LeftParen)]);
    ParenOpens(m);
    assert [Paren(B.LeftParen), Number("10"), Op(NewOperator(Addition)), Op(NewOperator(Minus)), Number("7.5"), Paren(B.RightParen), Op(NewOperator(Division))] + [Paren(B.LeftParen)] == [Paren(B.LeftParen), Number("10"), Op(NewOperator(Addition)), Op(NewOperator(Minus)), Number("7.5"), Paren(B.RightParen), Op(NewOperator(Division)), Paren(B.LeftParen)];
    assert [B.BracketDepth(0, 1, B.LeftParen), B.BracketDepth(10, 0, B.RightParen), B.BracketDepth(14, 1, B.LeftParen)] + [B.BracketDepth(15, 2, B.LeftParen)] == [B.BracketDepth(0, 1, B.LeftParen), B.BracketDepth(10, 0, B.RightParen), B.BracketDepth(14, 1, B.LeftParen), B.BracketDepth(15, 2, B.LeftParen)];
  }

  lemma TokenizeSampleStep16()
    ensures Step(DefaultTokenRegistry(), Machine([Paren(B.LeftParen), Number("10"), Op(NewOperator(Addition)), Op(NewOperator(Minus)), Number("7.5"), Paren(B.RightParen), Op(NewOperator(Division)), Paren(B.LeftParen)], LeftParen, "(", 16, [B.BracketDepth(0, 1, B.LeftParen), B.BracketDepth(10, 0, B.RightParen), B.BracketDepth(14, 1, B.LeftParen), B.BracketDepth(15, 2, B.LeftParen)]), '-') ==
      Ok(Machine([Paren(B.LeftParen), Number("10"), Op(NewOperator(Addition)), Op(NewOperator(Minus)), Number("7.5"), Paren(B.RightParen), Op(NewOperator(Division)), Paren(B.LeftParen), Paren(B.LeftParen)], LeftUnaryOp, "-", 17, [B.BracketDepth(0, 1, B.LeftParen), B.BracketDepth(10, 0, B.RightParen), B.BracketDepth(14, 1, B.LeftParen), B.BracketDepth(15, 2, B.LeftParen)]))
  {
    var m := Machine([Paren(B.LeftParen), Number("10"), Op(NewOperator(Addition)), Op(NewOperator(Minus)), Number("7.5"), Paren(B.RightParen), Op(NewOperator(Division)), Paren(B.LeftParen)], LeftParen, "(", 16, [B.BracketDepth(0, 1, B.LeftParen), B.BracketDepth(10, 0, B.RightParen), B.BracketDepth(14, 1, B.LeftParen), B.BracketDepth(15, 2, B.LeftParen)]);
    SignOpens(m, '-');
    assert [Paren(B.LeftParen), Number("10"), Op(NewOperator(Addition)), Op(NewOperator(Minus)), Number("7.5"), Paren(B.RightParen), Op(NewOperator(Division)), Paren(B.LeftParen)] + [Paren(B.LeftParen)] == [Paren(B.LeftParen), Number("10"), Op(NewOperator(Addition)), Op(NewOperator(Minus)), Number("7.5"), Paren(B.RightParen), Op(NewOperator(Division)), Paren(B.LeftParen), Paren(B.LeftParen)];
  }

  lemma TokenizeSampleStep17()
    ensures CommitReady(DefaultTokenRegistry(), LeftUnaryOp, "-")
    ensures Step(DefaultTokenRegistry(), Machine([Paren(B.LeftParen), Number("10"), Op(NewOperator(Addition)), Op(NewOperator(Minus)), Number("7.5"), Paren(B.RightParen), Op(NewOperator(Division)), Paren(B.LeftParen), Paren(B.LeftParen)], LeftUnaryOp, "-", 17, [B.BracketDepth(0, 1, B.LeftParen), B.BracketDepth(10, 0, B.RightParen), B.BracketDepth(14, 1, B.LeftParen), B.BracketDepth(15, 2, B.LeftParen)]), '5') ==
      Ok(Machine([Paren(B.LeftParen), Number("10"), Op(NewOperator(Addition)), Op(NewOperator(Minus)), Number("7.5"), Paren(B.RightParen), Op(NewOperator(Division)), Paren(B.LeftParen), Paren(B.LeftParen), Op(NewOperator(Minus))], Integer, "5", 18, [B.BracketDepth(0, 1, B.LeftParen), B.BracketDepth(10, 0, B.RightParen), B.BracketDepth(14, 1, B.LeftParen), B.BracketDepth(15, 2, B.LeftParen)]))
  {
    var m := Machine([Paren(B.LeftParen), Number("10"), Op(NewOperator(Addition)), Op(NewOperator(Minus)), Number("7.5"), Paren(B.RightParen), Op(NewOperator(Division)), Paren(B.LeftParen), Paren(B.LeftParen)], LeftUnaryOp, "-", 17, [B.BracketDepth(0, 1, B.LeftParen), B.BracketDepth(10, 0, B.RightParen), B.BracketDepth(14, 1, B.LeftParen), B.BracketDepth(15, 2, B.LeftParen)]);
    CommitsMinus(m);
    DigitOpens(m, '5');
    assert [Paren(B.LeftParen), Number("10"), Op(NewOperator(Addition)), Op(NewOperator(Minus)), Number("7.5"), Paren(B.RightParen), Op(NewOperator(Division)), Paren(B.LeftParen), Paren(B.LeftParen)] + [Op(NewOperator(Minus))] == [Paren(B.LeftParen), Number("10"), Op(NewOperator(Addition)), Op(NewOperator(Minus)), Number("7.5"), Paren(B.RightParen), Op(NewOperator(Division)), Paren(B.LeftParen), Paren(B.LeftParen), Op(NewOperator(Minus))];
  }

  lemma TokenizeSampleStep18()
    ensures Step(DefaultTokenRegistry(), Machine([Paren(B.LeftParen), Number("10"), Op(NewOperator(Addition)), Op(NewOperator(Minus)), Number("7.5"), Paren(B.RightParen), Op(NewOperator(Division)), Paren(B.LeftParen), Paren(B.LeftParen), Op(NewOperator(Minus))], Integer, "5", 18, [B.BracketDepth(0, 1, B.LeftParen), B.BracketDepth(10, 0, B.RightParen), B.BracketDepth(14, 1, B.LeftParen), B.BracketDepth(15, 2, B.LeftParen)]), ')') ==
      Ok(Machine([Paren(B.LeftParen), Number("10"), Op(NewOperator(Addition)), Op(NewOperator(Minus)), Number("7.5"), Paren(B.RightParen), Op(NewOperator(Division)), Paren(B.LeftParen), Paren(B.LeftParen), Op(NewOperator(Minus)), Number("5")], RightParen, ")", 19, [B.BracketDepth(0, 1, B.LeftParen), B.BracketDepth(10, 0, B.RightParen), B.BracketDepth(14, 1, B.LeftParen), B.BracketDepth(15, 2, B.LeftParen), B.BracketDepth(18, 1, B.RightParen)]))
  {
    var m := Machine([Paren(B.LeftParen), Number("10"), Op(NewOperator(Addition)), Op(NewOperator(Minus)), Number("7.5"), Paren(B.RightParen), Op(NewOperator(Division)), Paren(B.LeftParen), Paren(B.LeftParen), Op(NewOperator(Minus))], Integer, "5", 18, [B.BracketDepth(0, 1, B.LeftParen), B.BracketDepth(10, 0, B.RightParen), B.BracketDepth(14, 1, B.LeftParen), B.BracketDepth(15, 2, B.LeftParen)]);
    ParenCloses(m);
    assert [Paren(B.LeftParen), Number("10"), Op(NewOperator(Addition)), Op(NewOperator(Minus)), Number("7.5"), Paren(B.RightParen), Op(NewOperator(Division)), Paren(B.LeftParen), Paren(B.LeftParen), Op(NewOperator(Minus))] + [Number("5")] == [Paren(B.LeftParen), Number("10"), Op(NewOperator(Addition)), Op(NewOperator(Minus)), Number("7.5"), Paren(B.RightParen), Op(NewOperator(Division)), Paren(B.LeftParen), Paren(B.LeftParen), Op(NewOperator(Minus)), Number("5")];
    assert [B.BracketDepth(0, 1, B.LeftParen), B.BracketDepth(10, 0, B.RightParen), B.BracketDepth(14, 1, B.LeftParen), B.BracketDepth(15, 2, B.LeftParen)] + [B.BracketDepth(18, 1, B.RightParen)] == [B.BracketDepth(0, 1, B.LeftParen), B.BracketDepth(10, 0, B.RightParen), B.BracketDepth(14, 1, B.LeftParen), B.BracketDepth(15, 2, B.LeftParen), B.BracketDepth(18, 1, B.RightParen)];
  }

  lemma TokenizeSampleStep19()
    ensures Step(DefaultTokenRegistry(), Machine([Paren(B.LeftParen), Number("10"), Op(NewOperator(Addition)), Op(NewOperator(Minus)), Number("7.5"), Paren(B.RightParen), Op(NewOperator(Division)), Paren(B.LeftParen), Paren(B.LeftParen), Op(NewOperator(Minus)), Number("5")], RightParen, ")", 19, [B.BracketDepth(0, 1, B.LeftParen), B.BracketDepth(10, 0, B.RightParen), B.BracketDepth(14, 1, B.LeftParen), B.BracketDepth(15, 2, B.LeftParen), B.BracketDepth(18, 1, B.RightParen)]), '7') ==
      Ok(Machine([Paren(B.LeftParen), Number("10"), Op(NewOperator(Addition)), Op(NewOperator(Minus)), Number("7.5"), Paren(B.RightParen), Op(NewOperator(Division)), Paren(B.LeftParen), Paren(B.LeftParen), Op(NewOperator(Minus)), Number("5"), Paren(B.RightParen), Op(NewOperator(Multiplication))], Integer, "7", 20, [B.BracketDepth(0, 1, B.LeftParen), B.BracketDepth(10, 0, B.RightParen), B.BracketDepth(14, 1, B.LeftParen), B.BracketDepth(15, 2, B.LeftParen), B.BracketDepth(18, 1, B.RightParen)]))
  {
    var m := Machine([Paren(B.LeftParen), Number("10"), Op(NewOperator(Addition)), Op(NewOperator(Minus)), Number("7.5"), Paren(B.RightParen), Op(NewOperator(Division)), Paren(B.LeftParen), Paren(B.LeftParen), Op(NewOperator(Minus)), Number("5")], RightParen, ")", 19, [B.BracketDepth(0, 1, B.LeftParen), B.BracketDepth(10, 0, B.RightParen), B.BracketDepth(14, 1, B.LeftParen), B.BracketDepth(15, 2, B.LeftParen), B.BracketDepth(18, 1, B.RightParen)]);
    DigitAfterClose(m, '7');
    assert [Paren(B.LeftParen), Number("10"), Op(NewOperator(Addition)), Op(NewOperator(Minus)), Number("7.5"), Paren(B.RightParen), Op(NewOperator(Division)), Paren(B.LeftParen), Paren(B.LeftParen), Op(NewOperator(Minus)), Number("5")] + [Paren(B.RightParen)] == [Paren(B.LeftParen), Number("10"), Op(NewOperator(Addition)), Op(NewOperator(Minus)), Number("7.5"), Paren(B.RightParen), Op(NewOperator(Division)), Paren(B.LeftParen), Paren(B.LeftParen), Op(NewOperator(Minus)), Number("5"), Paren(B.RightParen)];
    assert [Paren(B.LeftParen), Number("10"), Op(NewOperator(Addition)), Op(NewOperator(Minus)), Number("7.5"), Paren(B.RightParen), Op(NewOperator(Division)), Paren(B.LeftParen), Paren(B.LeftParen), Op(NewOperator(Minus)), Number("5"), Paren(B.RightParen)] + [Op(NewOperator(Multiplication))] == [Paren(B.LeftParen), Number("10"), Op(NewOperator(Addition)), Op(NewOperator(Minus)), Number("7.5"), Paren(B.RightParen), Op(NewOperator(Division)), Paren(B.LeftParen), Paren(B.LeftParen), Op(NewOperator(Minus)), Number("5"), Paren(B.RightParen), Op(NewOperator(Multiplication))];
  }

  lemma TokenizeSampleStep20()
    ensures Step(DefaultTokenRegistry(), Machine([Paren(B.LeftParen), Number("10"), Op(NewOperator(Addition)), Op(NewOperator(Minus)), Number("7.5"), Paren(B.RightParen), Op(NewOperator(Division)), Paren(B.LeftParen), Paren(B.LeftParen), Op(NewOperator(Minus)), Number("5"), Paren(B.RightParen), Op(NewOperator(Multiplication))], Integer, "7", 20, [B.BracketDepth(0, 1, B.LeftParen), B.BracketDepth(10, 0, B.RightParen), B.BracketDepth(14, 1, B.LeftParen), B.BracketDepth(15, 2, B.LeftParen), B.BracketDepth(18, 1, B.RightParen)]), ')') ==
      Ok(Machine([Paren(B.LeftParen), Number("10"), Op(NewOperator(Addition)), Op(NewOperator(Minus)), Number("7.5"), Paren(B.RightParen), Op(NewOperator(Division)), Paren(B.LeftParen), Paren(B.LeftParen), Op(NewOperator(Minus)), Number("5"), Paren(B.RightParen), Op(NewOperator(Multiplication)), Number("7")], RightParen, ")", 21, [B.BracketDepth(0, 1, B.LeftParen), B.BracketDepth(10, 0, B.RightParen), B.BracketDepth(14, 1, B.LeftParen), B.BracketDepth(15, 2, B.LeftParen), B.BracketDepth(18, 1, B.RightParen), B.BracketDepth(20, 0, B.RightParen)]))
  {
    var m := Machine([Paren(B.LeftParen), Number("10"), Op(NewOperator(Addition)), Op(NewOperator(Minus)), Number("7.5"), Paren(B.RightParen), Op(NewOperator(Division)), Paren(B.LeftParen), Paren(B.LeftParen), Op(NewOperator(Minus)), Number("5"), Paren(B.RightParen), Op(NewOperator(Multiplication))], Integer, "7", 20, [B.BracketDepth(0, 1, B.LeftParen), B.BracketDepth(10, 0, B.RightParen), B.BracketDepth(14, 1, B.LeftParen), B.BracketDepth(15, 2, B.LeftParen), B.BracketDepth(18, 1, B.RightParen)]);
    ParenCloses(m);
    assert [Paren(B.LeftParen), Number("10"), Op(NewOperator(Addition)), Op(NewOperator(Minus)), Number("7.5"), Paren(B.RightParen), Op(NewOperator(Division)), Paren(B.LeftParen), Paren(B.LeftParen), Op(NewOperator(Minus)), Number("5"), Paren(B.RightParen), Op(NewOperator(Multiplication))] + [Number("7")] == [Paren(B.LeftParen), Number("10"), Op(NewOperator(Addition)), Op(NewOperator(Minus)), Number("7.5"), Paren(B.RightParen), Op(NewOperator(Division)), Paren(B.LeftParen), Paren(B.LeftParen), Op(NewOperator(Minus)), Number("5"), Paren(B.RightParen), Op(NewOperator(Multiplication)), Number("7")];
    assert [B.BracketDepth(0, 1, B.LeftParen), B.BracketDepth(10, 0, B.RightParen), B.BracketDepth(14, 1, B.LeftParen), B.BracketDepth(15, 2, B.LeftParen), B.BracketDepth(18, 1, B.RightParen)] + [B.BracketDepth(20, 0, B.RightParen)] == [B.BracketDepth(0, 1, B.LeftParen), B.BracketDepth(10, 0, B.RightParen), B.BracketDepth(14, 1, B.LeftParen), B.BracketDepth(15, 2, B.LeftParen), B.BracketDepth(18, 1, B.RightParen), B.BracketDepth(20, 0, B.RightParen)];
  }

  lemma TokenizeSamplePart0()
    ensures Run(DefaultTokenRegistry(), Machine([], Nothing, "", 0, []), InputSample) == Done(Machine([Paren(B.LeftParen), Number("10"), Op(NewOperator(Addition)), Op(NewOperator(Minus)), Number("7.5"), Paren(B.RightParen), Op(NewOperator(Division)), Paren(B.LeftParen), Paren(B.LeftParen), Op(NewOperator(Minus)), Number("5"), Paren(B.RightParen), Op(NewOperator(Multiplication)), Number("7")], RightParen, ")", 21, [B.BracketDepth(0, 1, B.LeftParen), B.BracketDepth(10, 0, B.RightParen), B.BracketDepth(14, 1, B.LeftParen), B.BracketDepth(15, 2, B.LeftParen), B.BracketDepth(18, 1, B.RightParen), B.BracketDepth(20, 0, B.RightParen)]))
  {
    var s := InputSample;
    TokenizeSampleRunes();
    assert s[0..] == s;
    TokenizeSampleStep0();
    RunCons(DefaultTokenRegistry(), Machine([], Nothing, "", 0, []), s, 0, Machine([], LeftParen, "(", 1, [B.BracketDepth(0, 1, B.LeftParen)]));
    TokenizeSampleStep1();
    RunCons(DefaultTokenRegistry(), Machine([], LeftParen, "(", 1, [B.BracketDepth(0, 1, B.LeftParen)]), s, 1, Machine([Paren(B.LeftParen)], Integer, "1", 2, [B.BracketDepth(0, 1, B.LeftParen)]));
    TokenizeSampleStep2();
    RunCons(DefaultTokenRegistry(), Machine([Paren(B.LeftParen)], Integer, "1", 2, [B.BracketDepth(0, 1, B.LeftParen)]), s, 2, Machine([Paren(B.LeftParen)], Integer, "10", 3, [B.BracketDepth(0, 1, B.LeftParen)]));
    TokenizeSampleStep3();
    RunCons(DefaultTokenRegistry(), Machine([Paren(B.LeftParen)], Integer, "10", 3, [B.BracketDepth(0, 1, B.LeftParen)]), s, 3, Machine([Paren(B.LeftParen)], Integer, "10", 4, [B.BracketDepth(0, 1, B.LeftParen)]));
    TokenizeSamplePart1();
  }


  lemma TokenizeSamplePart1()
    ensures Run(DefaultTokenRegistry(), Machine([Paren(B.LeftParen)], Integer, "10", 4, [B.BracketDepth(0, 1, B.LeftParen)]), InputSample[4..]) == Done(Machine([Paren(B.LeftParen), Number("10"), Op(NewOperator(Addition)), Op(NewOperator(Minus)), Number("7.5"), Paren(B.RightParen), Op(NewOperator(Division)), Paren(B.LeftParen), Paren(B.LeftParen), Op(NewOperator(Minus)), Number("5"), Paren(B.RightParen), Op(NewOperator(Multiplication)), Number("7")], RightParen, ")", 21, [B.BracketDepth(0, 1, B.LeftParen), B.BracketDepth(10, 0, B.RightParen), B.BracketDepth(14, 1, B.LeftParen), B.BracketDepth(15, 2, B.LeftParen), B.BracketDepth(18, 1, B.RightParen), B.BracketDepth(20, 0, B.RightParen)]))
  {
    var s := InputSample;
    TokenizeSampleRunes();
    TokenizeSampleStep4();
    RunCons(DefaultTokenRegistry(), Machine([Paren(B.LeftParen)], Integer, "10", 4, [B.BracketDepth(0, 1, B.LeftParen)]), s, 4, Machine([Paren(B.LeftParen), Number("10")], BinaryOp, "+", 5, [B.BracketDepth(0, 1, B.LeftParen)]));
    TokenizeSampleStep5();
    RunCons(DefaultTokenRegistry(), Machine([Paren(B.LeftParen), Number("10")], BinaryOp, "+", 5, [B.BracketDepth(0, 1, B.LeftParen)]), s, 5, Machine([Paren(B.LeftParen), Number("10"), Op(NewOperator(Addition))], LeftUnaryOp, "-", 6, [B.BracketDepth(0, 1, B.LeftParen)]));
    TokenizeSampleStep6();
    RunCons(DefaultTokenRegistry(), Machine([Paren(B.LeftParen), Number("10"), Op(NewOperator(Addition))], LeftUnaryOp, "-", 6, [B.BracketDepth(0, 1, B.LeftParen)]), s, 6, Machine([Paren(B.LeftParen), Number("10"), Op(NewOperator(Addition))], LeftUnaryOp, "-", 7, [B.BracketDepth(0, 1, B.LeftParen)]));
    TokenizeSampleStep7();
    RunCons(DefaultTokenRegistry(), Machine([Paren(B.LeftParen), Number("10"), Op(NewOperator(Addition))], LeftUnaryOp, "-", 7, [B.BracketDepth(0, 1, B.LeftParen)]), s, 7, Machine([Paren(B.LeftParen), Number("10"), Op(NewOperator(Addition)), Op(NewOperator(Minus))], Integer, "7", 8, [B.BracketDepth(0, 1, B.LeftParen)]));
    TokenizeSamplePart2();
  }

  lemma TokenizeSamplePart2()
    ensures Run(DefaultTokenRegistry(), Machine([Paren(B.LeftParen), Number("10"), Op(NewOperator(Addition)), Op(NewOperator(Minus))], Integer, "7", 8, [B.BracketDepth(0, 1, B.LeftParen)]), InputSample[8..]) == Done(Machine([Paren(B.LeftParen), Number("10"), Op(NewOperator(Addition)), Op(NewOperator(Minus)), Number("7.5"), Paren(B.RightParen), Op(NewOperator(Division)), Paren(B.LeftParen), Paren(B.LeftParen), Op(NewOperator(Minus)), Number("5"), Paren(B.RightParen), Op(NewOperator(Multiplication)), Number("7")], RightParen, ")", 21, [B.BracketDepth(0, 1, B.LeftParen), B.BracketDepth(10, 0, B.RightParen), B.BracketDepth(14, 1, B.LeftParen), B.BracketDepth(15, 2, B.LeftParen), B.BracketDepth(18, 1, B.RightParen), B.BracketDepth(20, 0, B.RightParen)]))
  {
    var s := InputSample;
    TokenizeSampleRunes();
    TokenizeSampleStep8();
    RunCons(DefaultTokenRegistry(), Machine([Paren(B.LeftParen), Number("10"), Op(NewOperator(Addition)), Op(NewOperator(Minus))], Integer, "7", 8, [B.BracketDepth(0, 1, B.LeftParen)]), s, 8, Machine([Paren(B.LeftParen), Number("10"), Op(NewOperator(Addition)), Op(NewOperator(Minus))], Decimal, "7.", 9, [B.BracketDepth(0, 1, B.LeftParen)]));
    TokenizeSampleStep9();
    RunCons(DefaultTokenRegistry(), Machine([Paren(B.LeftParen), Number("10"), Op(NewOperator(Addition)), Op(NewOperator(Minus))], Decimal, "7.", 9, [B.BracketDepth(0, 1, B.LeftParen)]), s, 9, Machine([Paren(B.LeftParen), Number("10"), Op(NewOperator(Addition)), Op(NewOperator(Minus))], Decimal, "7.5", 10, [B.BracketDepth(0, 1, B.LeftParen)]));
    TokenizeSampleStep10();
    RunCons(DefaultTokenRegistry(), Machine([Paren(B.LeftParen), Number("10"), Op(NewOperator(Addition)), Op(NewOperator(Minus))], Decimal, "7.5", 10, [B.BracketDepth(0, 1, B.LeftParen)]), s, 10, Machine([Paren(B.LeftParen), Number("10"), Op(NewOperator(Addition)), Op(NewOperator(Minus)), Number("7.5")], RightParen, ")", 11, [B.BracketDepth(0, 1, B.LeftParen), B.BracketDepth(10, 0, B.RightParen)]));
    TokenizeSampleStep11();
    RunCons(DefaultTokenRegistry(), Machine([Paren(B.LeftParen), Number("10"), Op(NewOperator(Addition)), Op(NewOperator(Minus)), Number("7.5")], RightParen, ")", 11, [B.BracketDepth(0, 1, B.LeftParen), B.BracketDepth(10, 0, B.RightParen)]), s, 11, Machine([Paren(B.LeftParen), Number("10"), Op(NewOperator(Addition)), Op(NewOperator(Minus)), Number("7.5")], RightParen, ")", 12, [B.BracketDepth(0, 1, B.LeftParen), B.BracketDepth(10, 0, B.RightParen)]));
    TokenizeSamplePart3();
  }

  lemma TokenizeSamplePart3()
    ensures Run(DefaultTokenRegistry(), Machine([Paren(B.LeftParen), Number("10"), Op(NewOperator(Addition)), Op(NewOperator(Minus)), Number("7.5")], RightParen, ")", 12, [B.BracketDepth(0, 1, B.LeftParen), B.BracketDepth(10, 0, B.RightParen)]), InputSample[12..]) == Done(Machine([Paren(B.LeftParen), Number("10"), Op(NewOperator(Addition)), Op(NewOperator(Minus)), Number("7.5"), Paren(B.RightParen), Op(NewOperator(Division)), Paren(B.LeftParen), Paren(B.LeftParen), Op(NewOperator(Minus)), Number("5"), Paren(B.RightParen), Op(NewOperator(Multiplication)), Number("7")], RightParen, ")", 21, [B.BracketDepth(0, 1, B.LeftParen), B.BracketDepth(10, 0, B.RightParen), B.BracketDepth(14, 1, B.LeftParen), B.BracketDepth(15, 2, B.LeftParen), B.BracketDepth(18, 1, B.RightParen), B.BracketDepth(20, 0, B.RightParen)]))
  {
    var s := InputSample;
    TokenizeSampleRunes();
    TokenizeSampleStep12();
    RunCons(DefaultTokenRegistry(), Machine([Paren(B.LeftParen), Number("10"), Op(NewOperator(Addition)), Op(NewOperator(Minus)), Number("7.5")], RightParen, ")", 12, [B.BracketDepth(0, 1, B.LeftParen), B.BracketDepth(10, 0, B.RightParen)]), s, 12, Machine([Paren(B.LeftParen), Number("10"), Op(NewOperator(Addition)), Op(NewOperator(Minus)), Number("7.5"), Paren(B.RightParen)], BinaryOp, "/", 13, [B.BracketDepth(0, 1, B.LeftParen), B.BracketDepth(10, 0, B.RightParen)]));
    TokenizeSampleStep13();
    RunCons(DefaultTokenRegistry(), Machine([Paren(B.LeftParen), Number("10"), Op(NewOperator(Addition)), Op(NewOperator(Minus)), Number("7.5"), Paren(B.RightParen)], BinaryOp, "/", 13, [B.BracketDepth(0, 1, B.LeftParen), B.BracketDepth(10, 0, B.RightParen)]), s, 13, Machine([Paren(B.LeftParen), Number("10"), Op(NewOperator(Addition)), Op(NewOperator(Minus)), Number("7.5"), Paren(B.RightParen)], BinaryOp, "/", 14, [B.BracketDepth(0, 1, B.LeftParen), B.BracketDepth(10, 0, B.RightParen)]));
    TokenizeSampleStep14();
    RunCons(DefaultTokenRegistry(), Machine([Paren(B.LeftParen), Number("10"), Op(NewOperator(Addition)), Op(NewOperator(Minus)), Number("7.5"), Paren(B.RightParen)], BinaryOp, "/", 14, [B.BracketDepth(0, 1, B.LeftParen), B.BracketDepth(10, 0, B.RightParen)]), s, 14, Machine([Paren(B.LeftParen), Number("10"), Op(NewOperator(Addition)), Op(NewOperator(Minus)), Number("7.5"), Paren(B.RightParen), Op(NewOperator(Division))], LeftParen, "(", 15, [B.BracketDepth(0, 1, B.LeftParen), B.BracketDepth(10, 0, B.RightParen), B.BracketDepth(14, 1, B.LeftParen)]));
    TokenizeSampleStep15();
    RunCons(DefaultTokenRegistry(), Machine([Paren(B.LeftParen), Number("10"), Op(NewOperator(Addition)), Op(NewOperator(Minus)), Number("7.5"), Paren(B.RightParen), Op(NewOperator(Division))], LeftParen, "(", 15, [B.BracketDepth(0, 1, B.LeftParen), B.BracketDepth(10, 0, B.RightParen), B.BracketDepth(14, 1, B.LeftParen)]), s, 15, Machine([Paren(B.LeftParen), Number("10"), Op(NewOperator(Addition)), Op(NewOperator(Minus)), Number("7.5"), Paren(B.RightParen), Op(NewOperator(Division)), Paren(B.LeftParen)], LeftParen, "(", 16, [B.BracketDepth(0, 1, B.LeftParen), B.BracketDepth(10, 0, B.RightParen), B.BracketDepth(14, 1, B.LeftParen), B.BracketDepth(15, 2, B.LeftParen)]));
    TokenizeSamplePart4();
  }

  lemma TokenizeSamplePart4()
    ensures Run(DefaultTokenRegistry(), Machine([Paren(B.LeftParen), Number("10"), Op(NewOperator(Addition)), Op(NewOperator(Minus)), Number("7.5"), Paren(B.RightParen), Op(NewOperator(Division)), Paren(B.LeftParen)], LeftParen, "(", 16, [B.BracketDepth(0, 1, B.LeftParen), B.BracketDepth(10, 0, B.RightParen), B.BracketDepth(14, 1, B.LeftParen), B.BracketDepth(15, 2, B.LeftParen)]), InputSample[16..]) == Done(Machine([Paren(B.LeftParen), Number("10"), Op(NewOperator(Addition)), Op(NewOperator(Minus)), Number("7.5"), Paren(B.RightParen), Op(NewOperator(Division)), Paren(B.LeftParen), Paren(B.LeftParen), Op(NewOperator(Minus)), Number("5"), Paren(B.RightParen), Op(NewOperator(Multiplication)), Number("7")], RightParen, ")", 21, [B.BracketDepth(0, 1, B.LeftParen), B.BracketDepth(10, 0, B.RightParen), B.BracketDepth(14, 1, B.LeftParen), B.BracketDepth(15, 2, B.LeftParen), B.BracketDepth(18, 1, B.RightParen), B.BracketDepth(20, 0, B.RightParen)]))
  {
    var s := InputSample;
    TokenizeSampleRunes();
    TokenizeSampleStep16();
    RunCons(DefaultTokenRegistry(), Machine([Paren(B.LeftParen), Number("10"), Op(NewOperator(Addition)), Op(NewOperator(Minus)), Number("7.5"), Paren(B.RightParen), Op(NewOperator(Division)), Paren(B.LeftParen)], LeftParen, "(", 16, [B.BracketDepth(0, 1, B.LeftParen), B.BracketDepth(10, 0, B.RightParen), B.BracketDepth(14, 1, B.LeftParen), B.BracketDepth(15, 2, B.LeftParen)]), s, 16, Machine([Paren(B.LeftParen), Number("10"), Op(NewOperator(Addition)), Op(NewOperator(Minus)), Number("7.5"), Paren(B.RightParen), Op(NewOperator(Division)), Paren(B.LeftParen), Paren(B.LeftParen)], LeftUnaryOp, "-", 17, [B.BracketDepth(0, 1, B.LeftParen), B.BracketDepth(10, 0, B.RightParen), B.BracketDepth(14, 1, B.LeftParen), B.BracketDepth(15, 2, B.LeftParen)]));
    TokenizeSampleStep17();
    RunCons(DefaultTokenRegistry(), Machine([Paren(B.LeftParen), Number("10"), Op(NewOperator(Addition)), Op(NewOperator(Minus)), Number("7.5"), Paren(B.RightParen), Op(NewOperator(Division)), Paren(B.LeftParen), Paren(B.LeftParen)], LeftUnaryOp, "-", 17, [B.BracketDepth(0, 1, B.LeftParen), B.BracketDepth(10, 0, B.RightParen), B.BracketDepth(14, 1, B.LeftParen), B.BracketDepth(15, 2, B.LeftParen)]), s, 17, Machine([Paren(B.LeftParen), Number("10"), Op(NewOperator(Addition)), Op(NewOperator(Minus)), Number("7.5"), Paren(B.RightParen), Op(NewOperator(Division)), Paren(B.LeftParen), Paren(B.LeftParen), Op(NewOperator(Minus))], Integer, "5", 18, [B.BracketDepth(0, 1, B.LeftParen), B.BracketDepth(10, 0, B.RightParen), B.BracketDepth(14, 1, B.LeftParen), B.BracketDepth(15, 2, B.LeftParen)]));
    TokenizeSampleStep18();
    RunCons(DefaultTokenRegistry(), Machine([Paren(B.LeftParen), Number("10"), Op(NewOperator(Addition)), Op(NewOperator(Minus)), Number("7.5"), Paren(B.RightParen), Op(NewOperator(Division)), Paren(B.LeftParen), Paren(B.LeftParen), Op(NewOperator(Minus))], Integer, "5", 18, [B.BracketDepth(0, 1, B.LeftParen), B.BracketDepth(10, 0, B.RightParen), B.BracketDepth(14, 1, B.LeftParen), B.BracketDepth(15, 2, B.LeftParen)]), s, 18, Machine([Paren(B.LeftParen), Number("10"), Op(NewOperator(Addition)), Op(NewOperator(Minus)), Number("7.5"), Paren(B.RightParen), Op(NewOperator(Division)), Paren(B.LeftParen), Paren(B.LeftParen), Op(NewOperator(Minus)), Number("5")], RightParen, ")", 19, [B.BracketDepth(0, 1, B.LeftParen), B.BracketDepth(10, 0, B.RightParen), B.BracketDepth(14, 1, B.LeftParen), B.BracketDepth(15, 2, B.LeftParen), B.BracketDepth(18, 1, B.RightParen)]));
    TokenizeSampleStep19();
    RunCons(DefaultTokenRegistry(), Machine([Paren(B.LeftParen), Number("10"), Op(NewOperator(Addition)), Op(NewOperator(Minus)), Number("7.5"), Paren(B.RightParen), Op(NewOperator(Division)), Paren(B.LeftParen), Paren(B.LeftParen), Op(NewOperator(Minus)), Number("5")], RightParen, ")", 19, [B.BracketDepth(0, 1, B.LeftParen), B.BracketDepth(10, 0, B.RightParen), B.BracketDepth(14, 1, B.LeftParen), B.BracketDepth(15, 2, B.LeftParen), B.BracketDepth(18, 1, B.RightParen)]), s, 19, Machine([Paren(B.LeftParen), Number("10"), Op(NewOperator(Addition)), Op(NewOperator(Minus)), Number("7.5"), Paren(B.RightParen), Op(NewOperator(Division)), Paren(B.LeftParen), Paren(B.LeftParen), Op(NewOperator(Minus)), Number("5"), Paren(B.RightParen), Op(NewOperator(Multiplication))], Integer, "7", 20, [B.BracketDepth(0, 1, B.LeftParen), B.BracketDepth(10, 0, B.RightParen), B.BracketDepth(14, 1, B.LeftParen), B.BracketDepth(15, 2, B.LeftParen), B.BracketDepth(18, 1, B.RightParen)]));
    TokenizeSamplePart5();
  }

  lemma TokenizeSamplePart5()
    ensures Run(DefaultTokenRegistry(), Machine([Paren(B.LeftParen), Number("10"), Op(NewOperator(Addition)), Op(NewOperator(Minus)), Number("7.5"), Paren(B.RightParen), Op(NewOperator(Division)), Paren(B.LeftParen), Paren(B.LeftParen), Op(NewOperator(Minus)), Number("5"), Paren(B.RightParen), Op(NewOperator(Multiplication))], Integer, "7", 20, [B.BracketDepth(0, 1, B.LeftParen), B.BracketDepth(10, 0, B.RightParen), B.BracketDepth(14, 1, B.LeftParen), B.BracketDepth(15, 2, B.LeftParen), B.BracketDepth(18, 1, B.RightParen)]), InputSample[20..]) == Done(Machine([Paren(B.LeftParen), Number("10"), Op(NewOperator(Addition)), Op(NewOperator(Minus)), Number("7.5"), Paren(B.RightParen), Op(NewOperator(Division)), Paren(B.LeftParen), Paren(B.LeftParen), Op(NewOperator(Minus)), Number("5"), Paren(B.RightParen), Op(NewOperator(Multiplication)), Number("7")], RightParen, ")", 21, [B.BracketDepth(0, 1, B.LeftParen), B.BracketDepth(10, 0, B.RightParen), B.BracketDepth(14, 1, B.LeftParen), B.BracketDepth(15, 2, B.LeftParen), B.BracketDepth(18, 1, B.RightParen), B.BracketDepth(20, 0, B.RightParen)]))
  {
    var s := InputSample;
    TokenizeSampleRunes();
    TokenizeSampleStep20();
    RunCons(DefaultTokenRegistry(), Machine([Paren(B.LeftParen), Number("10"), Op(NewOperator(Addition)), Op(NewOperator(Minus)), Number("7.5"), Paren(B.RightParen), Op(NewOperator(Division)), Paren(B.LeftParen), Paren(B.LeftParen), Op(NewOperator(Minus)), Number("5"), Paren(B.RightParen), Op(NewOperator(Multiplication))], Integer, "7", 20, [B.BracketDepth(0, 1, B.LeftParen), B.BracketDepth(10, 0, B.RightParen), B.BracketDepth(14, 1, B.LeftParen), B.BracketDepth(15, 2, B.LeftParen), B.BracketDepth(18, 1, B.RightParen)]), s, 20, Machine([Paren(B.LeftParen), Number("10"), Op(NewOperator(Addition)), Op(NewOperator(Minus)), Number("7.5"), Paren(B.RightParen), Op(NewOperator(Division)), Paren(B.LeftParen), Paren(B.LeftParen), Op(NewOperator(Minus)), Number("5"), Paren(B.RightParen), Op(NewOperator(Multiplication)), Number("7")], RightParen, ")", 21, [B.BracketDepth(0, 1, B.LeftParen), B.BracketDepth(10, 0, B.RightParen), B.BracketDepth(14, 1, B.LeftParen), B.BracketDepth(15, 2, B.LeftParen), B.BracketDepth(18, 1, B.RightParen), B.BracketDepth(20, 0, B.RightParen)]));
    assert s[21..] == [];
    assert Run(DefaultTokenRegistry(), Machine([Paren(B.LeftParen), Number("10"), Op(NewOperator(Addition)), Op(NewOperator(Minus)), Number("7.5"), Paren(B.RightParen), Op(NewOperator(Division)), Paren(B.LeftParen), Paren(B.LeftParen), Op(NewOperator(Minus)), Number("5"), Paren(B.RightParen), Op(NewOperator(Multiplication)), Number("7")], RightParen, ")", 21, [B.BracketDepth(0, 1, B.LeftParen), B.BracketDepth(10, 0, B.RightParen), B.BracketDepth(14, 1, B.LeftParen), B.BracketDepth(15, 2, B.LeftParen), B.BracketDepth(18, 1, B.RightParen), B.BracketDepth(20, 0, B.RightParen)]), s[21..]) == Done(Machine([Paren(B.LeftParen), Number("10"), Op(NewOperator(Addition)), Op(NewOperator(Minus)), Number("7.5"), Paren(B.RightParen), Op(NewOperator(Division)), Paren(B.LeftParen), Paren(B.LeftParen), Op(NewOperator(Minus)), Number("5"), Paren(B.RightParen), Op(NewOperator(Multiplication)), Number("7")], RightParen, ")", 21, [B.BracketDepth(0, 1, B.LeftParen), B.BracketDepth(10, 0, B.RightParen), B.BracketDepth(14, 1, B.LeftParen), B.BracketDepth(15, 2, B.LeftParen), B.BracketDepth(18, 1, B.RightParen), B.BracketDepth(20, 0, B.RightParen)]));
  }

  /** "(10 +- 7.5) / ((-5)7)": whitespace is skipped, "+-" is an addition
      followed by a sign, and a number right after a closing bracket gets
      an implicit multiplication: fifteen tokens. */
  lemma TokenizeSample()
    ensures Tokenized(DefaultTokenRegistry(), [], InputSample) == Ok([
      Paren(B.LeftParen), Number("10"), Op(NewOperator(Addition)), Op(NewOperator(Minus)),
      Number("7.5"), Paren(B.RightParen), Op(NewOperator(Division)), Paren(B.LeftParen),
      Paren(B.LeftParen), Op(NewOperator(Minus)), Number("5"), Paren(B.RightParen),
      Op(NewOperator(Multiplication)), Number("7"), Paren(B.RightParen)])
  {
    var s := InputSample;
    TokenizeSamplePart0();
    assert [Paren(B.LeftParen), Number("10"), Op(NewOperator(Addition)), Op(NewOperator(Minus)), Number("7.5"), Paren(B.RightParen), Op(NewOperator(Division)), Paren(B.LeftParen), Paren(B.LeftParen), Op(NewOperator(Minus)), Number("5"), Paren(B.RightParen), Op(NewOperator(Multiplication)), Number("7")] + [Paren(B.RightParen)] == [Paren(B.LeftParen), Number("10"), Op(NewOperator(Addition)), Op(NewOperator(Minus)), Number("7.5"), Paren(B.RightParen), Op(NewOperator(Division)), Paren(B.LeftParen), Paren(B.LeftParen), Op(NewOperator(Minus)), Number("5"), Paren(B.RightParen), Op(NewOperator(Multiplication)), Number("7"), Paren(B.RightParen)];
  }

  const InputOpenParen: string := "(5"

  lemma TokenizeOpenParenRunes()
    ensures |InputOpenParen| == 2
    ensures InputOpenParen[0] == '('
    ensures InputOpenParen[1] == '5'
  {
  }

  lemma TokenizeOpenParenStep0()
    ensures Step(DefaultTokenRegistry(), Machine([], Nothing, "", 0, []), '(') ==
      Ok(Machine([], LeftParen, "(", 1, [B.BracketDepth(0, 1, B.LeftParen)]))
  {
    var m := Machine([], Nothing, "", 0, []);
    ParenOpens(m);
    assert m.tokens + [] == m.tokens;
    assert [] + [B.BracketDepth(0, 1, B.LeftParen)] == [B.BracketDepth(0, 1, B.LeftParen)];
  }

  lemma TokenizeOpenParenStep1()
    ensures Step(DefaultTokenRegistry(), Machine([], LeftParen, "(", 1, [B.BracketDepth(0, 1, B.LeftParen)]), '5') ==
      Ok(Machine([Paren(B.LeftParen)], Integer, "5", 2, [B.BracketDepth(0, 1, B.LeftParen)]))
  {
    var m := Machine([], LeftParen, "(", 1, [B.BracketDepth(0, 1, B.LeftParen)]);
    DigitOpens(m, '5');
    assert [] + [Paren(B.LeftParen)] == [Paren(B.LeftParen)];
  }

  /** "(5" is accepted, because Tokenize leaves the end-of-input checks out.
      The bracket stays open at depth 1, and the end-of-input scan finds
      the entry for index 0. */
  lemma TokenizeOpenParen()
    ensures Tokenized(DefaultTokenRegistry(), [], InputOpenParen) == Ok([Paren(B.LeftParen), Number("5")])
    ensures var log := [B.BracketDepth(0, 1, B.LeftParen)];
      Run(DefaultTokenRegistry(), Start([]), InputOpenParen) == Done(Machine([Paren(B.LeftParen)], Integer, "5", 2, log)) &&
      B.LogDepth(log) == 1 && log[B.LatestAtDepth(log, B.LogDepth(log), |log|)].index == 0
  {
    var s := InputOpenParen;
    TokenizeOpenParenRunes();
    assert s[0..] == s;
    TokenizeOpenParenStep0();
    RunCons(DefaultTokenRegistry(), Machine([], Nothing, "", 0, []), s, 0, Machine([], LeftParen, "(", 1, [B.BracketDepth(0, 1, B.LeftParen)]));
    TokenizeOpenParenStep1();
    RunCons(DefaultTokenRegistry(), Machine([], LeftParen, "(", 1, [B.BracketDepth(0, 1, B.LeftParen)]), s, 1, Machine([Paren(B.LeftParen)], Integer, "5", 2, [B.BracketDepth(0, 1, B.LeftParen)]));
    assert s[2..] == [];
    assert Run(DefaultTokenRegistry(), Machine([Paren(B.LeftParen)], Integer, "5", 2, [B.BracketDepth(0, 1, B.LeftParen)]), s[2..]) == Done(Machine([Paren(B.LeftParen)], Integer, "5", 2, [B.BracketDepth(0, 1, B.LeftParen)]));
    assert [Paren(B.LeftParen)] + [Number("5")] == [Paren(B.LeftParen), Number("5")];
  }

  const InputUnclosedPair: string := "((5)"

  lemma TokenizeUnclosedPairRunes()
    ensures |InputUnclosedPair| == 4
    ensures InputUnclosedPair[0] == '('
    ensures InputUnclosedPair[1] == '('
    ensures InputUnclosedPair[2] == '5'
    ensures InputUnclosedPair[3] == ')'
  {
  }

  lemma TokenizeUnclosedPairStep0()
    ensures Step(DefaultTokenRegistry(), Machine([], Nothing, "", 0, []), '(') ==
      Ok(Machine([], LeftParen, "(", 1, [B.BracketDepth(0, 1, B.LeftParen)]))
  {
    var m := Machine([], Nothing, "", 0, []);
    ParenOpens(m);
    assert m.tokens + [] == m.tokens;
    assert [] + [B.BracketDepth(0, 1, B.LeftParen)] == [B.BracketDepth(0, 1, B.LeftParen)];
  }

  lemma TokenizeUnclosedPairStep1()
    ensures Step(DefaultTokenRegistry(), Machine([], LeftParen, "(", 1, [B.BracketDepth(0, 1, B.LeftParen)]), '(') ==
      Ok(Machine([Paren(B.LeftParen)], LeftParen, "(", 2, [B.BracketDepth(0, 1, B.LeftParen), B.BracketDepth(1, 2, B.LeftParen)]))
  {
    var m := Machine([], LeftParen, "(", 1, [B.BracketDepth(0, 1, B.LeftParen)]);
    ParenOpens(m);
    assert [] + [Paren(B.LeftParen)] == [Paren(B.LeftParen)];
    assert [B.BracketDepth(0, 1, B.LeftParen)] + [B.BracketDepth(1, 2, B.LeftParen)] == [B.BracketDepth(0, 1, B.LeftParen), B.BracketDepth(1, 2, B.LeftParen)];
  }

  lemma TokenizeUnclosedPairStep2()
    ensures Step(DefaultTokenRegistry(), Machine([Paren(B.LeftParen)], LeftParen, "(", 2, [B.BracketDepth(0, 1, B.LeftParen), B.BracketDepth(1, 2, B.LeftParen)]), '5') ==
      Ok(Machine([Paren(B.LeftParen), Paren(B.LeftParen)], Integer, "5", 3, [B.BracketDepth(0, 1, B.LeftParen), B.BracketDepth(1, 2, B.LeftParen)]))
  {
    var m := Machine([Paren(B.LeftParen)], LeftParen, "(", 2, [B.BracketDepth(0, 1, B.LeftParen), B.BracketDepth(1, 2, B.LeftParen)]);
    DigitOpens(m, '5');
    assert [Paren(B.LeftParen)] + [Paren(B.LeftParen)] == [Paren(B.LeftParen), Paren(B.LeftParen)];
  }

  lemma TokenizeUnclosedPairStep3()
    ensures Step(DefaultTokenRegistry(), Machine([Paren(B.LeftParen), Paren(B.LeftParen)], Integer, "5", 3, [B.BracketDepth(0, 1, B.LeftParen), B.BracketDepth(1, 2, B.LeftParen)]), ')') ==
      Ok(Machine([Paren(B.LeftParen), Paren(B.LeftParen), Number("5")], RightParen, ")", 4, [B.BracketDepth(0, 1, B.LeftParen), B.BracketDepth(1, 2, B.LeftParen), B.BracketDepth(3, 1, B.RightParen)]))
  {
    var m := Machine([Paren(B.LeftParen), Paren(B.LeftParen)], Integer, "5", 3, [B.BracketDepth(0, 1, B.LeftParen), B.BracketDepth(1, 2, B.LeftParen)]);
    ParenCloses(m);
    assert [Paren(B.LeftParen), Paren(B.LeftParen)] + [Number("5")] == [Paren(B.LeftParen), Paren(B.LeftParen), Number("5")];
    assert [B.BracketDepth(0, 1, B.LeftParen), B.BracketDepth(1, 2, B.LeftParen)] + [B.BracketDepth(3, 1, B.RightParen)] == [B.BracketDepth(0, 1, B.LeftParen), B.BracketDepth(1, 2, B.LeftParen), B.BracketDepth(3, 1, B.RightParen)];
  }

  /** "((5)" ends at depth 1 with a log whose last entry is the closing
      bracket at index 3; see `Brackets.ScanReportsClosingBracket`. */
  lemma TokenizeUnclosedPair()
    ensures var log := [B.BracketDepth(0, 1, B.LeftParen), B.BracketDepth(1, 2, B.LeftParen), B.BracketDepth(3, 1, B.RightParen)];
      Run(DefaultTokenRegistry(), Start([]), InputUnclosedPair) ==
        Done(Machine([Paren(B.LeftParen), Paren(B.LeftParen), Number("5")], RightParen, ")", 4, log))
  {
    var s := InputUnclosedPair;
    TokenizeUnclosedPairRunes();
    assert s[0..] == s;
    TokenizeUnclosedPairStep0();
    RunCons(DefaultTokenRegistry(), Machine([], Nothing, "", 0, []), s, 0, Machine([], LeftParen, "(", 1, [B.BracketDepth(0, 1, B.LeftParen)]));
    TokenizeUnclosedPairStep1();
    RunCons(DefaultTokenRegistry(), Machine([], LeftParen, "(", 1, [B.BracketDepth(0, 1, B.LeftParen)]), s, 1, Machine([Paren(B.LeftParen)], LeftParen, "(", 2, [B.BracketDepth(0, 1, B.LeftParen), B.BracketDepth(1, 2, B.LeftParen)]));
    TokenizeUnclosedPairStep2();
    RunCons(DefaultTokenRegistry(), Machine([Paren(B.LeftParen)], LeftParen, "(", 2, [B.BracketDepth(0, 1, B.LeftParen), B.BracketDepth(1, 2, B.LeftParen)]), s, 2, Machine([Paren(B.LeftParen), Paren(B.LeftParen)], Integer, "5", 3, [B.BracketDepth(0, 1, B.LeftParen), B.BracketDepth(1, 2, B.LeftParen)]));
    TokenizeUnclosedPairStep3();
    RunCons(DefaultTokenRegistry(), Machine([Paren(B.LeftParen), Paren(B.LeftParen)], Integer, "5", 3, [B.BracketDepth(0, 1, B.LeftParen), B.BracketDepth(1, 2, B.LeftParen)]), s, 3, Machine([Paren(B.LeftParen), Paren(B.LeftParen), Number("5")], RightParen, ")", 4, [B.BracketDepth(0, 1, B.LeftParen), B.BracketDepth(1, 2, B.LeftParen), B.BracketDepth(3, 1, B.RightParen)]));
    assert s[4..] == [];
    assert Run(DefaultTokenRegistry(), Machine([Paren(B.LeftParen), Paren(B.LeftParen), Number("5")], RightParen, ")", 4, [B.BracketDepth(0, 1, B.LeftParen), B.BracketDepth(1, 2, B.LeftParen), B.BracketDepth(3, 1, B.RightParen)]), s[4..]) == Done(Machine([Paren(B.LeftParen), Paren(B.LeftParen), Number("5")], RightParen, ")", 4, [B.BracketDepth(0, 1, B.LeftParen), B.BracketDepth(1, 2, B.LeftParen), B.BracketDepth(3, 1, B.RightParen)]));
    assert [Paren(B.LeftParen), Paren(B.LeftParen), Number("5")] + [Paren(B.RightParen)] == [Paren(B.LeftParen), Paren(B.LeftParen), Number("5"), Paren(B.RightParen)];
  }

  const InputUnknownSymbol: string := "5###"

  lemma TokenizeUnknownSymbolRunes()
    ensures |InputUnknownSymbol| == 4
    ensures InputUnknownSymbol[0] == '5'
    ensures InputUnknownSymbol[1] == '#'
    ensures InputUnknownSymbol[2] == '#'
    ensures InputUnknownSymbol[3] == '#'
  {
  }

  lemma TokenizeUnknownSymbolStep0()
    ensures Step(DefaultTokenRegistry(), Machine([], Nothing, "", 0, []), '5') ==
      Ok(Machine([], Integer, "5", 1, []))
  {
    var m := Machine([], Nothing, "", 0, []);
    DigitOpens(m, '5');
    assert m.tokens + [] == m.tokens;
  }

  lemma TokenizeUnknownSymbolStep1()
    ensures Step(DefaultTokenRegistry(), Machine([], Integer, "5", 1, []), '#') ==
      Err(SyntaxError(UnknownSymbol, "#", 1))
  {
    var m := Machine([], Integer, "5", 1, []);
    HashUnknown(m);
  }

  /** "5###": the first '#' is an unknown symbol at index 1. */
  lemma TokenizeUnknownSymbol()
    ensures Tokenized(DefaultTokenRegistry(), [], InputUnknownSymbol) == Err(SyntaxError(UnknownSymbol, "#", 1))
  {
    var s := InputUnknownSymbol;
    TokenizeUnknownSymbolRunes();
    assert s[0..] == s;
    TokenizeUnknownSymbolStep0();
    RunCons(DefaultTokenRegistry(), Machine([], Nothing, "", 0, []), s, 0, Machine([], Integer, "5", 1, []));
    TokenizeUnknownSymbolStep1();
    RunHalts(DefaultTokenRegistry(), Machine([], Integer, "5", 1, []), s, 1, SyntaxError(UnknownSymbol, "#", 1));
  }

  const InputLonePoint: string := ".+"

  lemma TokenizeLonePointRunes()
    ensures |InputLonePoint| == 2
    ensures InputLonePoint[0] == '.'
    ensures InputLonePoint[1] == '+'
  {
  }

  lemma TokenizeLonePointStep0()
    ensures Step(DefaultTokenRegistry(), Machine([], Nothing, "", 0, []), '.') ==
      Ok(Machine([], DecimalPoint, ".", 1, []))
  {
    var m := Machine([], Nothing, "", 0, []);
    PointOpens(m);
    assert m.tokens + [] == m.tokens;
  }

  lemma TokenizeLonePointStep1()
    ensures Step(DefaultTokenRegistry(), Machine([], DecimalPoint, ".", 1, []), '+') ==
      Err(SyntaxError(LoneDecimal, ".", 0))
  {
    var m := Machine([], DecimalPoint, ".", 1, []);
    PlusAfterPoint(m);
  }

  /** ".+": an operator after a lone point reports the point at index 0. */
  lemma TokenizeLonePoint()
    ensures Tokenized(DefaultTokenRegistry(), [], InputLonePoint) == Err(SyntaxError(LoneDecimal, ".", 0))
  {
    var s := InputLonePoint;
    TokenizeLonePointRunes();
    assert s[0..] == s;
    TokenizeLonePointStep0();
    RunCons(DefaultTokenRegistry(), Machine([], Nothing, "", 0, []), s, 0, Machine([], DecimalPoint, ".", 1, []));
    TokenizeLonePointStep1();
    RunHalts(DefaultTokenRegistry(), Machine([], DecimalPoint, ".", 1, []), s, 1, SyntaxError(LoneDecimal, ".", 0));
  }

  const InputLoneParen: string := ".("

  lemma TokenizeLoneParenRunes()
    ensures |InputLoneParen| == 2
    ensures InputLoneParen[0] == '.'
    ensures InputLoneParen[1] == '('
  {
  }

  lemma TokenizeLoneParenStep0()
    ensures Step(DefaultTokenRegistry(), Machine([], Nothing, "", 0, []), '.') ==
      Ok(Machine([], DecimalPoint, ".", 1, []))
  {
    var m := Machine([], Nothing, "", 0, []);
    PointOpens(m);
    assert m.tokens + [] == m.tokens;
  }

  lemma TokenizeLoneParenStep1()
    ensures Step(DefaultTokenRegistry(), Machine([], DecimalPoint, ".", 1, []), '(') ==
      Err(SyntaxError(LoneDecimal, ".", 0))
  {
    var m := Machine([], DecimalPoint, ".", 1, []);
    ParenAfterPoint(m);
  }

  /** ".(": an opening bracket after a lone point reports the point at index 0. */
  lemma TokenizeLoneParen()
    ensures Tokenized(DefaultTokenRegistry(), [], InputLoneParen) == Err(SyntaxError(LoneDecimal, ".", 0))
  {
    var s := InputLoneParen;
    TokenizeLoneParenRunes();
    assert s[0..] == s;
    TokenizeLoneParenStep0();
    RunCons(DefaultTokenRegistry(), Machine([], Nothing, "", 0, []), s, 0, Machine([], DecimalPoint, ".", 1, []));
    TokenizeLoneParenStep1();
    RunHalts(DefaultTokenRegistry(), Machine([], DecimalPoint, ".", 1, []), s, 1, SyntaxError(LoneDecimal, ".", 0));
  }

  const InputMissingRightOperand: string := "(5*)"

  lemma TokenizeMissingRightOperandRunes()
    ensures |InputMissingRightOperand| == 4
    ensures InputMissingRightOperand[0] == '('
    ensures InputMissingRightOperand[1] == '5'
    ensures InputMissingRightOperand[2] == '*'
    ensures InputMissingRightOperand[3] == ')'
  {
  }

  lemma TokenizeMissingRightOperandStep0()
    ensures Step(DefaultTokenRegistry(), Machine([], Nothing, "", 0, []), '(') ==
      Ok(Machine([], LeftParen, "(", 1, [B.BracketDepth(0, 1, B.LeftParen)]))
  {
    var m := Machine([], Nothing, "", 0, []);
    ParenOpens(m);
    assert m.tokens + [] == m.tokens;
    assert [] + [B.BracketDepth(0, 1, B.LeftParen)] == [B.BracketDepth(0, 1, B.LeftParen)];
  }

  lemma TokenizeMissingRightOperandStep1()
    ensures Step(DefaultTokenRegistry(), Machine([], LeftParen, "(", 1, [B.BracketDepth(0, 1, B.LeftParen)]), '5') ==
      Ok(Machine([Paren(B.LeftParen)], Integer, "5", 2, [B.BracketDepth(0, 1, B.LeftParen)]))
  {
    var m := Machine([], LeftParen, "(", 1, [B.BracketDepth(0, 1, B.LeftParen)]);
    DigitOpens(m, '5');
    assert [] + [Paren(B.LeftParen)] == [Paren(B.LeftParen)];
  }

  lemma TokenizeMissingRightOperandStep2()
    ensures Step(DefaultTokenRegistry(), Machine([Paren(B.LeftParen)], Integer, "5", 2, [B.BracketDepth(0, 1, B.LeftParen)]), '*') ==
      Ok(Machine([Paren(B.LeftParen), Number("5")], BinaryOp, "*", 3, [B.BracketDepth(0, 1, B.LeftParen)]))
  {
    var m := Machine([Paren(B.LeftParen)], Integer, "5", 2, [B.BracketDepth(0, 1, B.LeftParen)]);
    BinaryOnlyAfterOperand(m, '*');
    assert [Paren(B.LeftParen)] + [Number("5")] == [Paren(B.LeftParen), Number("5")];
  }

  lemma TokenizeMissingRightOperandStep3()
    ensures CommitReady(DefaultTokenRegistry(), BinaryOp, "*")
    ensures Step(DefaultTokenRegistry(), Machine([Paren(B.LeftParen), Number("5")], BinaryOp, "*", 3, [B.BracketDepth(0, 1, B.LeftParen)]), ')') ==
      Err(SyntaxError(NoRightOperand, "*", 2))
  {
    var m := Machine([Paren(B.LeftParen), Number("5")], BinaryOp, "*", 3, [B.BracketDepth(0, 1, B.LeftParen)]);
    CommitsMultiplication(m);
    CloseAfterOperator(m);
  }

  /** "(5*)": the bracket closes after a binary operator, which lacks its
      right operand; the error names the operator at index 2. */
  lemma TokenizeMissingRightOperand()
    ensures Tokenized(DefaultTokenRegistry(), [], InputMissingRightOperand) == Err(SyntaxError(NoRightOperand, "*", 2))
  {
    var s := InputMissingRightOperand;
    TokenizeMissingRightOperandRunes();
    assert s[0..] == s;
    TokenizeMissingRightOperandStep0();
    RunCons(DefaultTokenRegistry(), Machine([], Nothing, "", 0, []), s, 0, Machine([], LeftParen, "(", 1, [B.BracketDepth(0, 1, B.LeftParen)]));
    TokenizeMissingRightOperandStep1();
    RunCons(DefaultTokenRegistry(), Machine([], LeftParen, "(", 1, [B.BracketDepth(0, 1, B.LeftParen)]), s, 1, Machine([Paren(B.LeftParen)], Integer, "5", 2, [B.BracketDepth(0, 1, B.LeftParen)]));
    TokenizeMissingRightOperandStep2();
    RunCons(DefaultTokenRegistry(), Machine([Paren(B.LeftParen)], Integer, "5", 2, [B.BracketDepth(0, 1, B.LeftParen)]), s, 2, Machine([Paren(B.LeftParen), Number("5")], BinaryOp, "*", 3, [B.BracketDepth(0, 1, B.LeftParen)]));
    CommitsMultiplication(Machine([Paren(B.LeftParen), Number("5")], BinaryOp, "*", 3, [B.BracketDepth(0, 1, B.LeftParen)]));
    TokenizeMissingRightOperandStep3();
    RunHalts(DefaultTokenRegistry(), Machine([Paren(B.LeftParen), Number("5")], BinaryOp, "*", 3, [B.BracketDepth(0, 1, B.LeftParen)]), s, 3, SyntaxError(NoRightOperand, "*", 2));
  }

  const InputMissingLeftOperand: string := "5*/6"

  lemma TokenizeMissingLeftOperandRunes()
    ensures |InputMissingLeftOperand| == 4
    ensures InputMissingLeftOperand[0] == '5'
    ensures InputMissingLeftOperand[1] == '*'
    ensures InputMissingLeftOperand[2] == '/'
    ensures InputMissingLeftOperand[3] == '6'
  {
  }

  lemma TokenizeMissingLeftOperandStep0()
    ensures Step(DefaultTokenRegistry(), Machine([], Nothing, "", 0, []), '5') ==
      Ok(Machine([], Integer, "5", 1, []))
  {
    var m := Machine([], Nothing, "", 0, []);
    DigitOpens(m, '5');
    assert m.tokens + [] == m.tokens;
  }

  lemma TokenizeMissingLeftOperandStep1()
    ensures Step(DefaultTokenRegistry(), Machine([], Integer, "5", 1, []), '*') ==
      Ok(Machine([Number("5")], BinaryOp, "*", 2, []))
  {
    var m := Machine([], Integer, "5", 1, []);
    BinaryOnlyAfterOperand(m, '*');
    assert [] + [Number("5")] == [Number("5")];
  }

  lemma TokenizeMissingLeftOperandStep2()
    ensures CommitReady(DefaultTokenRegistry(), BinaryOp, "*")
    ensures Step(DefaultTokenRegistry(), Machine([Number("5")], BinaryOp, "*", 2, []), '/') ==
      Err(SyntaxError(NoLeftOperand, "/", 2))
  {
    var m := Machine([Number("5")], BinaryOp, "*", 2, []);
    CommitsMultiplication(m);
    SlashAfterOperator(m);
  }

  // "5*/6": '/' right after '*' has no left operand, at index 2.
  lemma TokenizeMissingLeftOperand()
    ensures Tokenized(DefaultTokenRegistry(), [], InputMissingLeftOperand) == Err(SyntaxError(NoLeftOperand, "/", 2))
  {
    var s := InputMissingLeftOperand;
    TokenizeMissingLeftOperandRunes();
    assert s[0..] == s;
    TokenizeMissingLeftOperandStep0();
    RunCons(DefaultTokenRegistry(), Machine([], Nothing, "", 0, []), s, 0, Machine([], Integer, "5", 1, []));
    TokenizeMissingLeftOperandStep1();
    RunCons(DefaultTokenRegistry(), Machine([], Integer, "5", 1, []), s, 1, Machine([Number("5")], BinaryOp, "*", 2, []));
    CommitsMultiplication(Machine([Number("5")], BinaryOp, "*", 2, []));
    TokenizeMissingLeftOperandStep2();
    RunHalts(DefaultTokenRegistry(), Machine([Number("5")], BinaryOp, "*", 2, []), s, 2, SyntaxError(NoLeftOperand, "/", 2));
  }

  const InputMultipleDecimal: string := "1..5"

  lemma TokenizeMultipleDecimalRunes()
    ensures |InputMultipleDecimal| == 4
    ensures InputMultipleDecimal[0] == '1'
    ensures InputMultipleDecimal[1] == '.'
    ensures InputMultipleDecimal[2] == '.'
    ensures InputMultipleDecimal[3] == '5'
  {
  }

  lemma TokenizeMultipleDecimalStep0()
    ensures Step(DefaultTokenRegistry(), Machine([], Nothing, "", 0, []), '1') ==
      Ok(Machine([], Integer, "1", 1, []))
  {
    var m := Machine([], Nothing, "", 0, []);
    DigitOpens(m, '1');
    assert m.tokens + [] == m.tokens;
  }

  lemma TokenizeMultipleDecimalStep1()
    ensures Step(DefaultTokenRegistry(), Machine([], Integer, "1", 1, []), '.') ==
      Ok(Machine([], Decimal, "1.", 2, []))
  {
    var m := Machine([], Integer, "1", 1, []);
    PointInInteger(m);
    assert "1" + "." == "1.";
  }

  lemma TokenizeMultipleDecimalStep2()
    ensures Step(DefaultTokenRegistry(), Machine([], Decimal, "1.", 2, []), '.') ==
      Err(SyntaxError(MultipleDecimal, ".", 2))
  {
    var m := Machine([], Decimal, "1.", 2, []);
    PointTwice(m);
  }

  /** "1..5": the second point is a multiple decimal point at index 2. */
  lemma TokenizeMultipleDecimal()
    ensures Tokenized(DefaultTokenRegistry(), [], InputMultipleDecimal) == Err(SyntaxError(MultipleDecimal, ".", 2))
  {
    var s := InputMultipleDecimal;
    TokenizeMultipleDecimalRunes();
    assert s[0..] == s;
    TokenizeMultipleDecimalStep0();
    RunCons(DefaultTokenRegistry(), Machine([], Nothing, "", 0, []), s, 0, Machine([], Integer, "1", 1, []));
    TokenizeMultipleDecimalStep1();
    RunCons(DefaultTokenRegistry(), Machine([], Integer, "1", 1, []), s, 1, Machine([], Decimal, "1.", 2, []));
    TokenizeMultipleDecimalStep2();
    RunHalts(DefaultTokenRegistry(), Machine([], Decimal, "1.", 2, []), s, 2, SyntaxError(MultipleDecimal, ".", 2));
  }

  const InputTrailingPoint: string := "."

  lemma TokenizeTrailingPointRunes()
    ensures |InputTrailingPoint| == 1
    ensures InputTrailingPoint[0] == '.'
  {
  }

  lemma TokenizeTrailingPointStep0()
    ensures Step(DefaultTokenRegistry(), Machine([], Nothing, "", 0, []), '.') ==
      Ok(Machine([], DecimalPoint, ".", 1, []))
  {
    var m := Machine([], Nothing, "", 0, []);
    PointOpens(m);
    assert m.tokens + [] == m.tokens;
  }

  /** ".": the lone point is still pending at the end, and committing it
      emits nothing, so the result is no tokens and no error. */
  lemma TokenizeTrailingPoint()
    ensures Run(DefaultTokenRegistry(), Start([]), InputTrailingPoint) == Done(Machine([], DecimalPoint, ".", 1, []))
    ensures Tokenized(DefaultTokenRegistry(), [], InputTrailingPoint) == Ok([])
  {
    var s := InputTrailingPoint;
    TokenizeTrailingPointRunes();
    assert s[0..] == s;
    TokenizeTrailingPointStep0();
    RunCons(DefaultTokenRegistry(), Machine([], Nothing, "", 0, []), s, 0, Machine([], DecimalPoint, ".", 1, []));
    assert s[1..] == [];
    assert Run(DefaultTokenRegistry(), Machine([], DecimalPoint, ".", 1, []), s[1..]) == Done(Machine([], DecimalPoint, ".", 1, []));
    var none: seq<Token> := [];
    assert none + [] == none;
  }

  const InputTrailingPointAfterSum: string := "5+."

  lemma TokenizeTrailingPointAfterSumRunes()
    ensures |InputTrailingPointAfterSum| == 3
    ensures InputTrailingPointAfterSum[0] == '5'
    ensures InputTrailingPointAfterSum[1] == '+'
    ensures InputTrailingPointAfterSum[2] == '.'
  {
  }

  lemma TokenizeTrailingPointAfterSumStep0()
    ensures Step(DefaultTokenRegistry(), Machine([], Nothing, "", 0, []), '5') ==
      Ok(Machine([], Integer, "5", 1, []))
  {
    var m := Machine([], Nothing, "", 0, []);
    DigitOpens(m, '5');
    assert m.tokens + [] == m.tokens;
  }

  lemma TokenizeTrailingPointAfterSumStep1()
    ensures Step(DefaultTokenRegistry(), Machine([], Integer, "5", 1, []), '+') ==
      Ok(Machine([Number("5")], BinaryOp, "+", 2, []))
  {
    var m := Machine([], Integer, "5", 1, []);
    BinaryAfterOperand(m, '+');
    assert [] + [Number("5")] == [Number("5")];
  }

  lemma TokenizeTrailingPointAfterSumStep2()
    ensures CommitReady(DefaultTokenRegistry(), BinaryOp, "+")
    ensures Step(DefaultTokenRegistry(), Machine([Number("5")], BinaryOp, "+", 2, []), '.') ==
      Ok(Machine([Number("5"), Op(NewOperator(Addition))], DecimalPoint, ".", 3, []))
  {
    var m := Machine([Number("5")], BinaryOp, "+", 2, []);
    CommitsAddition(m);
    PointOpens(m);
    assert [Number("5")] + [Op(NewOperator(Addition))] == [Number("5"), Op(NewOperator(Addition))];
  }

  /** "5+.": the addition is committed by the point, and the point itself
      is dropped at the end. */
  lemma TokenizeTrailingPointAfterSum()
    ensures Run(DefaultTokenRegistry(), Start([]), InputTrailingPointAfterSum) ==
      Done(Machine([Number("5"), Op(NewOperator(Addition))], DecimalPoint, ".", 3, []))
    ensures Tokenized(DefaultTokenRegistry(), [], InputTrailingPointAfterSum) ==
      Ok([Number("5"), Op(NewOperator(Addition))])
  {
    var s := InputTrailingPointAfterSum;
    TokenizeTrailingPointAfterSumRunes();
    assert s[0..] == s;
    TokenizeTrailingPointAfterSumStep0();
    RunCons(DefaultTokenRegistry(), Machine([], Nothing, "", 0, []), s, 0, Machine([], Integer, "5", 1, []));
    TokenizeTrailingPointAfterSumStep1();
    RunCons(DefaultTokenRegistry(), Machine([], Integer, "5", 1, []), s, 1, Machine([Number("5")], BinaryOp, "+", 2, []));
    TokenizeTrailingPointAfterSumStep2();
    RunCons(DefaultTokenRegistry(), Machine([Number("5")], BinaryOp, "+", 2, []), s, 2, Machine([Number("5"), Op(NewOperator(Addition))], DecimalPoint, ".", 3, []));
    assert s[3..] == [];
    assert Run(DefaultTokenRegistry(), Machine([Number("5"), Op(NewOperator(Addition))], DecimalPoint, ".", 3, []), s[3..]) == Done(Machine([Number("5"), Op(NewOperator(Addition))], DecimalPoint, ".", 3, []));
    assert [Number("5"), Op(NewOperator(Addition))] + [] == [Number("5"), Op(NewOperator(Addition))];
  }

}
