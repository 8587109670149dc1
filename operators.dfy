/** The operator table: each of the five operator symbols with its precedence
    level and its associativity, and the comparison the converter uses. */
module Operators {
  import opened Results

  datatype Operator = Plus | Minus | Times | Divide | Power

  datatype Associativity = Left | Right

  /** Precedence levels; a higher level binds tighter. */
  const AdditiveLevel := 2
  const MultiplicativeLevel := 3
  const PowerLevel := 4

  function Precedence(o: Operator): (p: int)
    ensures AdditiveLevel <= p <= PowerLevel
    ensures p == AdditiveLevel <==> o == Plus || o == Minus
    ensures p == PowerLevel <==> o == Power
  {
    match o
    case Plus => AdditiveLevel
    case Minus => AdditiveLevel
    case Times => MultiplicativeLevel
    case Divide => MultiplicativeLevel
    case Power => PowerLevel
  }

  function Assoc(o: Operator): (a: Associativity)
    ensures a == Right <==> o == Power
  {
    if o == Power then Right else Left
  }

  /** Compares two operators by precedence: negative, zero or positive as the
      first binds less tightly than, as tightly as, or tighter than the second. */
  function CompareTokens(a: Operator, b: Operator): (d: int)
    ensures -2 <= d <= 2
    ensures d < 0 <==> Precedence(a) < Precedence(b)
    ensures d == 0 <==> Precedence(a) == Precedence(b)
  {
    Precedence(a) - Precedence(b)
  }

  /** Whether an incoming operator `o` pops the operator `top` off the operator
      stack before it is pushed: a left-associative `o` pops every operator that
      binds at least as tightly, a right-associative one only those that bind
      strictly tighter. What it leaves in place binds strictly less tightly
      than `o`, or is a `^` under an incoming `^`. */
  predicate Pops(o: Operator, top: Operator)
    ensures Pops(o, top) ==> Precedence(o) <= Precedence(top)
    ensures !Pops(o, top) <==> Precedence(top) < Precedence(o) || (o == Power && top == Power)
  {
    (Assoc(o) == Left && CompareTokens(o, top) <= 0)
    || (Assoc(o) == Right && CompareTokens(o, top) < 0)
  }

  /** The symbol under which each operator is stored in the table. */
  function Symbol(o: Operator): string {
    match o
    case Plus => "+"
    case Minus => "-"
    case Times => "*"
    case Divide => "/"
    case Power => "^"
  }

  /** Table lookup by symbol: None for a string that is not a key. */
  function OperatorOf(s: string): (r: Option<Operator>)
    ensures r.Some? ==> Symbol(r.value) == s
  {
    if s == "+" then Some(Plus)
    else if s == "-" then Some(Minus)
    else if s == "*" then Some(Times)
    else if s == "/" then Some(Divide)
    else if s == "^" then Some(Power)
    else None
  }

  /** Looking up an operator's own symbol finds that operator, and the table's
      keys are exactly the five symbols. */
  lemma SymbolLookup(o: Operator, s: string)
    ensures OperatorOf(Symbol(o)) == Some(o)
    ensures OperatorOf(s).Some? <==> s in {"+", "-", "*", "/", "^"}
  {
  }
}
