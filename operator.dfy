/** Arithmetic operators: a fixed table of symbol, precedence,
    associativity and arity per operator type (operator.go). */
module Operators {

  /** An operator type is an integer; the eight named constants below are
      the known ones and every other value is an unknown operator. */
  type OpType = int

  const Addition: OpType := 1
  const Subtraction: OpType := 2
  const Multiplication: OpType := 3
  const Division: OpType := 4
  const Power: OpType := 5
  const Plus: OpType := 6
  const Minus: OpType := 7
  const Factorial: OpType := 8

  predicate IsKnown(t: OpType) {
    Addition <= t <= Factorial
  }

  datatype Assoc = LeftAssoc | RightAssoc

  datatype Arity = Binary | Unary

  datatype Operator = Operator(opType: OpType) {

    /** The symbol the operator is written with; "<?>" for an unknown type. */
    function String(): (s: string)
      ensures IsKnown(opType) <==> |s| == 1
      ensures !IsKnown(opType) ==> s == "<?>"
    {
      if opType == Addition || opType == Plus then "+"
      else if opType == Subtraction || opType == Minus then "-"
      else if opType == Multiplication then "*"
      else if opType == Division then "/"
      else if opType == Power then "^"
      else if opType == Factorial then "!"
      else "<?>"
    }

    function Type(): OpType {
      opType
    }

    /** Binding strength: higher binds tighter; 0 for an unknown type. */
    function Precedence(): (p: int)
      ensures 0 <= p <= 6
      ensures p == 0 <==> !IsKnown(opType)
    {
      if opType == Addition || opType == Subtraction then 2
      else if opType == Multiplication || opType == Division then 3
      else if opType == Plus || opType == Minus then 4
      else if opType == Power then 5
      else if opType == Factorial then 6
      else 0
    }

    function Associativity(): Assoc {
      if opType == Plus || opType == Minus || opType == Power then RightAssoc
      else LeftAssoc
    }

    function Arity(): Arity {
      if opType == Plus || opType == Minus || opType == Factorial then Unary
      else Binary
    }
  }

  function NewOperator(t: OpType): (op: Operator)
    ensures op.Type() == t
  {
    Operator(t)
  }

  predicate IsUnaryOp(op: Operator) {
    op.Arity() == Unary
  }

  predicate IsBinaryOp(op: Operator) {
    op.Arity() == Binary
  }

  predicate IsLeftAssocOp(op: Operator) {
    op.Associativity() == LeftAssoc
  }

  predicate IsRightAssocOp(op: Operator) {
    op.Associativity() == RightAssoc
  }

  /** The symbols of the eight known operator types. */
  lemma SymbolTable()
    ensures NewOperator(Addition).String() == "+" && NewOperator(Plus).String() == "+"
    ensures NewOperator(Subtraction).String() == "-" && NewOperator(Minus).String() == "-"
    ensures NewOperator(Multiplication).String() == "*"
    ensures NewOperator(Division).String() == "/"
    ensures NewOperator(Power).String() == "^"
    ensures NewOperator(Factorial).String() == "!"
    ensures forall t :: !IsKnown(t) ==> NewOperator(t).String() == "<?>"
  {
  }

  /** Precedence levels, strictly ordered from the additive operators up to
      factorial, with an unknown type below all of them. */
  lemma PrecedenceOrder(u: OpType)
    requires !IsKnown(u)
    ensures NewOperator(Addition).Precedence() == NewOperator(Subtraction).Precedence() == 2
    ensures NewOperator(Multiplication).Precedence() == NewOperator(Division).Precedence() == 3
    ensures NewOperator(Plus).Precedence() == NewOperator(Minus).Precedence() == 4
    ensures NewOperator(Power).Precedence() == 5
    ensures NewOperator(Factorial).Precedence() == 6
    ensures NewOperator(u).Precedence() < NewOperator(Addition).Precedence()
            < NewOperator(Multiplication).Precedence() < NewOperator(Plus).Precedence()
            < NewOperator(Power).Precedence() < NewOperator(Factorial).Precedence()
  {
  }

  /** Plus, Minus and Power are the right-associative types; all others,
      unknown ones included, are left-associative. */
  lemma RightAssocTypes(op: Operator)
    ensures IsRightAssocOp(op) <==> op.opType in {Plus, Minus, Power}
  {
  }

  /** Plus, Minus and Factorial are the unary types; all others, unknown
      ones included, are binary. */
  lemma UnaryTypes(op: Operator)
    ensures IsUnaryOp(op) <==> op.opType in {Plus, Minus, Factorial}
  {
  }

  /** Exactly one arity predicate and exactly one associativity predicate
      holds of every operator. */
  lemma ExactlyOneClass(op: Operator)
    ensures IsUnaryOp(op) != IsBinaryOp(op)
    ensures IsLeftAssocOp(op) != IsRightAssocOp(op)
  {
  }

  /** The signs are the only prefix (unary, right-associative) operators
      and factorial is the only postfix (unary, left-associative) one. */
  lemma PrefixAndPostfix(op: Operator)
    ensures IsUnaryOp(op) && IsRightAssocOp(op) <==> op.opType == Plus || op.opType == Minus
    ensures IsUnaryOp(op) && IsLeftAssocOp(op) <==> op.opType == Factorial
  {
  }
}
