/** The operator registry, which maps one rune to an ordered list of operator
    variants, and the token registry's rune classifiers (registry.go). */
module Registry {
  import opened Wrappers
  import opened Operators

  /** A lookup filter; `None` stands for a nil filter, which is skipped. */
  type Filter = Operator -> bool

  type OperatorTable = map<char, seq<Operator>>

  /** The variants registered for `r`; an unregistered rune has none. */
  function Variants(table: OperatorTable, r: char): seq<Operator> {
    if r in table then table[r] else []
  }

  /** `op` satisfies every non-nil filter. */
  ghost predicate Passes(filters: seq<Option<Filter>>, op: Operator) {
    forall i :: 0 <= i < |filters| && filters[i].Some? ==> filters[i].value(op)
  }

  /** The inner filter loop: skips nil filters, stops at the first failing one. */
  function PassesEach(filters: seq<Option<Filter>>, op: Operator): (b: bool)
    ensures (forall i :: 0 <= i < |filters| ==> filters[i].None?) ==> b
    decreases |filters|
  {
    if |filters| == 0 then true
    else if filters[0].None? then PassesEach(filters[1..], op)
    else if !filters[0].value(op) then false
    else PassesEach(filters[1..], op)
  }

  /** The filter loop accepts exactly the operators that pass every non-nil filter. */
  lemma {:induction false} PassesEachSpec(filters: seq<Option<Filter>>, op: Operator)
    ensures PassesEach(filters, op) <==> Passes(filters, op)
    decreases |filters|
  {
    if |filters| > 0 {
      PassesEachSpec(filters[1..], op);
      assert forall i :: 1 <= i < |filters| ==> filters[i] == filters[1..][i - 1];
    }
  }

  /** The outer loop: the first variant that passes, with an empty filter
      list accepting the first variant outright. */
  function FirstMatch(ops: seq<Operator>, filters: seq<Option<Filter>>): (m: Option<Operator>)
    ensures m.Some? ==> m.value in ops
    ensures |ops| > 0 && |filters| == 0 ==> m == Some(ops[0])
    decreases |ops|
  {
    if |ops| == 0 then None
    else if |filters| == 0 then Some(ops[0])
    else if PassesEach(filters, ops[0]) then Some(ops[0])
    else FirstMatch(ops[1..], filters)
  }

  /** The outer loop finds nothing exactly when no variant passes, and
      otherwise the earliest variant that passes. */
  lemma {:induction false} FirstMatchSpec(ops: seq<Operator>, filters: seq<Option<Filter>>)
    ensures var res := FirstMatch(ops, filters);
      res.None? <==> forall k :: 0 <= k < |ops| ==> !Passes(filters, ops[k])
    ensures var res := FirstMatch(ops, filters);
      res.Some? ==>
        exists k :: 0 <= k < |ops| && ops[k] == res.value && Passes(filters, ops[k]) &&
          forall j :: 0 <= j < k ==> !Passes(filters, ops[j])
    decreases |ops|
  {
    if |ops| > 0 {
      if |filters| == 0 {
        assert Passes(filters, ops[0]);
      } else {
        PassesEachSpec(filters, ops[0]);
        if !PassesEach(filters, ops[0]) {
          FirstMatchSpec(ops[1..], filters);
          var res := FirstMatch(ops, filters);
          if res.Some? {
            var k :| 0 <= k < |ops[1..]| && ops[1..][k] == res.value && Passes(filters, ops[1..][k]) &&
              forall j :: 0 <= j < k ==> !Passes(filters, ops[1..][j]);
            assert ops[k + 1] == res.value;
            assert forall j :: 0 <= j < k + 1 ==> !Passes(filters, ops[j]) by {
              forall j | 0 <= j < k + 1
                ensures !Passes(filters, ops[j])
              {
                if j > 0 {
                  assert ops[j] == ops[1..][j - 1];
                }
              }
            }
          } else {
            forall k | 0 <= k < |ops|
              ensures !Passes(filters, ops[k])
            {
              if k > 0 {
                assert ops[k] == ops[1..][k - 1];
              }
            }
          }
        }
      }
    }
  }

  /** The earliest variant registered for `r` that satisfies all non-nil
      filters; `None` when the rune is unregistered or nothing matches. */
  function GetOperator(table: OperatorTable, r: char, filters: seq<Option<Filter>>): (res: Option<Operator>)
    ensures res.Some? ==> r in table && res.value in table[r]
  {
    FirstMatch(Variants(table, r), filters)
  }

  /** A lookup finds nothing exactly when no variant of `r` passes the
      filters; otherwise it finds a passing variant registered for `r`, and
      no earlier variant passes. */
  lemma GetOperatorSpec(table: OperatorTable, r: char, filters: seq<Option<Filter>>)
    ensures var res := GetOperator(table, r, filters);
      res.None? <==> forall op :: op in Variants(table, r) ==> !Passes(filters, op)
    ensures var res := GetOperator(table, r, filters);
      res.Some? ==> res.value in Variants(table, r) && Passes(filters, res.value)
    ensures var res := GetOperator(table, r, filters);
      res.Some? ==>
        exists k :: 0 <= k < |Variants(table, r)| && Variants(table, r)[k] == res.value &&
          forall j :: 0 <= j < k ==> !Passes(filters, Variants(table, r)[j])
  {
    FirstMatchSpec(Variants(table, r), filters);
  }

  /** With no filters, or only nil ones, a registered rune yields its first variant. */
  lemma NilFiltersGiveFirst(table: OperatorTable, r: char, filters: seq<Option<Filter>>)
    requires forall i :: 0 <= i < |filters| ==> filters[i].None?
    ensures |Variants(table, r)| > 0 ==> GetOperator(table, r, filters) == Some(Variants(table, r)[0])
    ensures |Variants(table, r)| == 0 ==> GetOperator(table, r, filters) == None
  {
    var ops := Variants(table, r);
    if |ops| > 0 {
      assert Passes(filters, ops[0]);
      PassesEachSpec(filters, ops[0]);
    }
  }

  /** Appending a variant never changes an existing match, and makes the new
      variant the match when nothing matched before and it passes. */
  lemma {:induction false} FirstMatchAppend(ops: seq<Operator>, op: Operator, filters: seq<Option<Filter>>)
    ensures FirstMatch(ops + [op], filters) ==
      if FirstMatch(ops, filters).Some? then FirstMatch(ops, filters)
      else if Passes(filters, op) then Some(op)
      else None
    decreases |ops|
  {
    PassesEachSpec(filters, op);
    if |ops| > 0 && |filters| > 0 && !PassesEach(filters, ops[0]) {
      assert (ops + [op])[1..] == ops[1..] + [op];
      FirstMatchAppend(ops[1..], op, filters);
    }
  }

  /** Lookups with filter lists that accept the same operators agree. */
  lemma {:induction false} SameMatch(ops: seq<Operator>, f1: seq<Option<Filter>>, f2: seq<Option<Filter>>)
    requires forall op :: Passes(f1, op) <==> Passes(f2, op)
    ensures FirstMatch(ops, f1) == FirstMatch(ops, f2)
    decreases |ops|
  {
    if |ops| > 0 {
      assert Passes([], ops[0]);
      PassesEachSpec(f1, ops[0]);
      PassesEachSpec(f2, ops[0]);
      SameMatch(ops[1..], f1, f2);
    }
  }

  lemma PassesPair(f: Option<Filter>, g: Option<Filter>, op: Operator)
    ensures Passes([f, g], op) <==> (f.Some? ==> f.value(op)) && (g.Some? ==> g.value(op))
  {
    var fs := [f, g];
    assert fs[0] == f && fs[1] == g;
  }

  /** The order of two filters does not matter. */
  lemma SwappedFiltersAgree(table: OperatorTable, r: char, f: Option<Filter>, g: Option<Filter>)
    ensures GetOperator(table, r, [f, g]) == GetOperator(table, r, [g, f])
  {
    forall op
      ensures Passes([f, g], op) <==> Passes([g, f], op)
    {
      PassesPair(f, g, op);
      PassesPair(g, f, op);
    }
    SameMatch(Variants(table, r), [f, g], [g, f]);
  }

  /** A registry whose table the caller may extend in place. */
  class OperatorRegistry {
    var table: OperatorTable

    constructor (initial: OperatorTable)
      ensures table == initial
    {
      table := initial;
    }

    /** Appends `op` at the end of the variants of `r`. */
    method Register(r: char, op: Operator)
      modifies this
      ensures table == old(table)[r := Variants(old(table), r) + [op]]
      ensures Variants(table, r) == Variants(old(table), r) + [op]
      ensures forall c :: c != r ==> Variants(table, c) == Variants(old(table), c)
    {
      table := table[r := Variants(table, r) + [op]];
    }
  }

  /** Lookups after `Register` agree with lookups before it, except that a
      rune that matched nothing now matches the new variant if it passes. */
  lemma RegisterLookup(table: OperatorTable, r: char, op: Operator, c: char, filters: seq<Option<Filter>>)
    ensures var t := table[r := Variants(table, r) + [op]];
      GetOperator(t, c, filters) ==
        if c != r || GetOperator(table, c, filters).Some? then GetOperator(table, c, filters)
        else if Passes(filters, op) then Some(op)
        else None
  {
    if c == r {
      FirstMatchAppend(Variants(table, r), op, filters);
    }
  }

  function DefaultOperators(): (t: OperatorTable)
    ensures t.Keys == {'+', '-', '*', '/', '^', '!'}
    ensures forall r :: r in t ==> |t[r]| > 0
  {
    map[
      '+' := [NewOperator(Plus), NewOperator(Addition)],
      '-' := [NewOperator(Minus), NewOperator(Subtraction)],
      '*' := [NewOperator(Multiplication)],
      '/' := [NewOperator(Division)],
      '^' := [NewOperator(Power)],
      '!' := [NewOperator(Factorial)]
    ]
  }

  /** The rune classifiers over a registry of operators. */
  datatype TokenRegistry = TokenRegistry(operators: OperatorTable) {

    /** An ASCII decimal digit. */
    predicate IsDigit(r: char) {
      '0' <= r <= '9'
    }

    /** A rune with at least one registered variant (a lookup with one nil filter). */
    predicate IsOperator(r: char) {
      GetOperator(operators, r, [None]).Some?
    }

    predicate IsLeftBracket(r: char) {
      r == '('
    }

    predicate IsRightBracket(r: char) {
      r == ')'
    }

    predicate IsDecimalPoint(r: char) {
      r == '.'
    }

    /** A rune with the Unicode White_Space property. */
    predicate IsWhitespace(r: char) {
      var c := r as int;
      (0x09 <= c <= 0x0D) || c == 0x20 || c == 0x85 || c == 0xA0 || c == 0x1680 ||
      (0x2000 <= c <= 0x200A) || c == 0x2028 || c == 0x2029 || c == 0x202F ||
      c == 0x205F || c == 0x3000
    }
  }

  function DefaultTokenRegistry(): TokenRegistry {
    TokenRegistry(DefaultOperators())
  }

  /** A rune is an operator exactly when it has a registered variant. */
  lemma IsOperatorIffRegistered(reg: TokenRegistry, r: char)
    ensures reg.IsOperator(r) <==> |Variants(reg.operators, r)| > 0
  {
    NilFiltersGiveFirst(reg.operators, r, [None]);
  }

  /** The default operator runes are exactly + - * / ^ !. */
  lemma DefaultOperatorRunes(r: char)
    ensures DefaultTokenRegistry().IsOperator(r) <==> r in "+-*/^!"
  {
    IsOperatorIffRegistered(DefaultTokenRegistry(), r);
  }

  /** A sign registered before its binary form: the unary, right-associative
      lookup finds the sign and the binary lookup skips it. */
  lemma {:induction false} SignThenBinary(sign: Operator, binary: Operator)
    requires IsUnaryOp(sign) && IsRightAssocOp(sign) && IsBinaryOp(binary)
    ensures FirstMatch([sign, binary], [Some(IsUnaryOp), Some(IsRightAssocOp)]) == Some(sign)
    ensures FirstMatch([sign, binary], [Some(IsBinaryOp)]) == Some(binary)
  {
    var signFilters: seq<Option<Filter>> := [Some(IsUnaryOp), Some(IsRightAssocOp)];
    var filters: seq<Option<Filter>> := [Some(IsBinaryOp)];
    PassesPair(Some(IsUnaryOp), Some(IsRightAssocOp), sign);
    PassesEachSpec(signFilters, sign);
    assert filters[0] == Some(IsBinaryOp) && !IsBinaryOp(sign);
    assert !Passes(filters, sign) && Passes(filters, binary);
    PassesEachSpec(filters, sign);
    PassesEachSpec(filters, binary);
    assert [sign, binary][1..] == [binary];
  }

  /** The default lookups that tell the sign operators from the binary ones. */
  lemma DefaultSignLookups()
    ensures GetOperator(DefaultOperators(), '+', [Some(IsUnaryOp), Some(IsRightAssocOp)]) == Some(NewOperator(Plus))
    ensures GetOperator(DefaultOperators(), '+', [Some(IsBinaryOp)]) == Some(NewOperator(Addition))
    ensures GetOperator(DefaultOperators(), '-', [Some(IsUnaryOp), Some(IsRightAssocOp)]) == Some(NewOperator(Minus))
    ensures GetOperator(DefaultOperators(), '-', [Some(IsBinaryOp)]) == Some(NewOperator(Subtraction))
  {
    assert Variants(DefaultOperators(), '+') == [NewOperator(Plus), NewOperator(Addition)];
    assert Variants(DefaultOperators(), '-') == [NewOperator(Minus), NewOperator(Subtraction)];
    SignThenBinary(NewOperator(Plus), NewOperator(Addition));
    SignThenBinary(NewOperator(Minus), NewOperator(Subtraction));
  }

  /** The default lookups of the binary operators and the postfix factorial. */
  lemma DefaultOtherLookups()
    ensures GetOperator(DefaultOperators(), '*', [Some(IsBinaryOp)]) == Some(NewOperator(Multiplication))
    ensures GetOperator(DefaultOperators(), '/', [Some(IsBinaryOp)]) == Some(NewOperator(Division))
    ensures GetOperator(DefaultOperators(), '^', [Some(IsBinaryOp)]) == Some(NewOperator(Power))
    ensures GetOperator(DefaultOperators(), '!', [Some(IsUnaryOp), Some(IsLeftAssocOp)]) == Some(NewOperator(Factorial))
  {
    var binary: seq<Option<Filter>> := [Some(IsBinaryOp)];
    var postfix: seq<Option<Filter>> := [Some(IsUnaryOp), Some(IsLeftAssocOp)];
    PassesEachSpec(binary, NewOperator(Multiplication));
    PassesEachSpec(binary, NewOperator(Division));
    PassesEachSpec(binary, NewOperator(Power));
    PassesPair(Some(IsUnaryOp), Some(IsLeftAssocOp), NewOperator(Factorial));
    PassesEachSpec(postfix, NewOperator(Factorial));
  }

  /** Each bracket and point classifier accepts exactly one rune, and under
      the default registry no rune falls into two classes. */
  lemma DefaultClassesDisjoint(r: char)
    ensures DefaultTokenRegistry().IsLeftBracket(r) <==> r == '('
    ensures DefaultTokenRegistry().IsRightBracket(r) <==> r == ')'
    ensures DefaultTokenRegistry().IsDecimalPoint(r) <==> r == '.'
    ensures var reg := DefaultTokenRegistry();
      var classes := [reg.IsDigit(r), reg.IsDecimalPoint(r), reg.IsLeftBracket(r),
                      reg.IsRightBracket(r), reg.IsOperator(r), reg.IsWhitespace(r)];
      forall i, j :: 0 <= i < j < |classes| ==> !(classes[i] && classes[j])
  {
    DefaultOperatorRunes(r);
  }
}
