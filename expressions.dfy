/** Expression trees as the reference meaning of infix input: written out
    with conventional precedence and associativity, a tree converts to its
    postfix form, and that postfix form evaluates to the tree's value. */
module Expressions {
  import opened Results
  import opened Operators
  import opened Tokens
  import opened Converter
  import opened Evaluator

  /** `Group` is a pair of parentheses written around its inner expression. */
  datatype Expr = Lit(value: real) | Bin(op: Operator, left: Expr, right: Expr) | Group(inner: Expr)

  /** The expression written out as infix tokens. */
  function Infix(e: Expr): seq<Token> {
    match e
    case Lit(v) => [Num(v)]
    case Bin(o, l, r) => Infix(l) + [Op(o)] + Infix(r)
    case Group(g) => [LParen] + Infix(g) + [RParen]
  }

  /** The expression written out as postfix tokens: operands first, then the operator. */
  function Postfix(e: Expr): seq<Token> {
    match e
    case Lit(v) => [Num(v)]
    case Bin(o, l, r) => Postfix(l) + Postfix(r) + [Op(o)]
    case Group(g) => Postfix(g)
  }

  /** The value of the tree: left operand first, then right, then the operator. */
  function Eval(e: Expr, pow: PowFn): Result<real, EvalError> {
    match e
    case Lit(v) => Ok(v)
    case Group(g) => Eval(g, pow)
    case Bin(o, l, r) =>
      match Eval(l, pow)
      case Err(x) => Err(x)
      case Ok(a) =>
        match Eval(r, pow)
        case Err(x) => Err(x)
        case Ok(b) => Apply(o, a, b, pow)
  }

  /** An unbracketed operator child on the left of `o` binds at least as
      tightly, and only as tightly when `o` is left-associative. */
  predicate LeftFits(o: Operator, l: Expr) {
    !l.Bin? || Precedence(l.op) > Precedence(o)
    || (Precedence(l.op) == Precedence(o) && Assoc(o) == Left)
  }

  /** An unbracketed operator child on the right of `o` binds at least as
      tightly, and only as tightly when `o` is right-associative. */
  predicate RightFits(o: Operator, r: Expr) {
    !r.Bin? || Precedence(r.op) > Precedence(o)
    || (Precedence(r.op) == Precedence(o) && Assoc(o) == Right)
  }

  /** Every unbracketed subtree sits where precedence and associativity put
      it, so that reading `Infix(e)` conventionally gives back `e`. */
  predicate WellGrouped(e: Expr) {
    match e
    case Lit(_) => true
    case Group(g) => WellGrouped(g)
    case Bin(o, l, r) => WellGrouped(l) && WellGrouped(r) && LeftFits(o, l) && RightFits(o, r)
  }

  /** The operators of `e` outside any parentheses. */
  function TopOps(e: Expr): set<Operator> {
    match e
    case Lit(_) => {}
    case Group(_) => {}
    case Bin(o, l, r) => {o} + TopOps(l) + TopOps(r)
  }

  /** The tokens of `e` the converter has emitted once it has read `Infix(e)`. */
  function Done(e: Expr): seq<Token> {
    match e
    case Lit(v) => [Num(v)]
    case Group(g) => Postfix(g)
    case Bin(o, l, r) => Postfix(l) + Done(r)
  }

  /** The operators of `e` still on the stack once it has read `Infix(e)`:
      those along the right spine, bottom first. */
  function Pending(e: Expr): seq<Token> {
    match e
    case Lit(_) => []
    case Group(_) => []
    case Bin(o, _, r) => [Op(o)] + Pending(r)
  }

  /** No operator of `e` outside parentheses pops anything off `stack`. */
  predicate Fits(e: Expr, stack: seq<Token>) {
    forall o | o in TopOps(e) :: Halts(o, stack)
  }

  /* ---------- Precedence along the tree ---------- */

  lemma {:induction false} TopOpsAtLeast(e: Expr)
    requires e.Bin? && WellGrouped(e)
    ensures forall x | x in TopOps(e) :: Precedence(x) >= Precedence(e.op)
  {
    if e.left.Bin? {
      TopOpsAtLeast(e.left);
    }
    if e.right.Bin? {
      TopOpsAtLeast(e.right);
    }
  }

  lemma {:induction false} PendingAreTopOps(e: Expr)
    ensures forall t | t in Pending(e) :: t.Op? && t.op in TopOps(e)
  {
    if e.Bin? {
      PendingAreTopOps(e.right);
    }
  }

  /** An operator reading the right operand `r` never pops `o` beneath it. */
  lemma RightOperandFits(o: Operator, r: Expr, stack: seq<Token>)
    requires WellGrouped(r) && RightFits(o, r)
    ensures Fits(r, stack + [Op(o)])
  {
    if r.Bin? {
      TopOpsAtLeast(r);
    }
  }

  /** The operator `o` pops everything its left operand left pending. */
  lemma LeftPendingPopped(o: Operator, l: Expr)
    requires WellGrouped(l) && LeftFits(o, l)
    ensures forall t | t in Pending(l) :: t.Op? && Pops(o, t.op)
  {
    PendingAreTopOps(l);
    if l.Bin? {
      TopOpsAtLeast(l);
    }
  }

  /** The postfix form is what is emitted plus what is still pending, popped. */
  lemma {:induction false} PostfixSplits(e: Expr)
    ensures Postfix(e) == Done(e) + Reversed(Pending(e))
  {
    match e
    case Lit(_) =>
    case Group(_) =>
    case Bin(o, l, r) =>
      PostfixSplits(r);
      ReversedCons(Op(o), Pending(r));
  }

  /* ---------- Stack facts the conversion relies on ---------- */

  lemma AppendAssoc<T>(a: seq<T>, b: seq<T>, c: seq<T>)
    ensures a + b + c == a + (b + c)
  {
  }

  lemma {:induction false} KeptAbove(o: Operator, stack: seq<Token>, segment: seq<Token>)
    requires forall t | t in segment :: t.Op? && Pops(o, t.op)
    requires Halts(o, stack)
    ensures Kept(o, stack + segment) == |stack|
    decreases |segment|
  {
    if segment == [] {
      assert stack + segment == stack;
    } else {
      var n := |segment| - 1;
      assert (stack + segment)[..|stack| + n] == stack + segment[..n];
      assert segment[n] in segment;
      KeptAbove(o, stack, segment[..n]);
    }
  }

  lemma {:induction false} TopmostOpenBelow(stack: seq<Token>, segment: seq<Token>)
    requires LParen !in segment
    ensures TopmostOpen(stack + [LParen] + segment) == |stack|
    decreases |segment|
  {
    if segment != [] {
      var n := |segment| - 1;
      assert (stack + [LParen] + segment)[..|stack| + 1 + n] == stack + [LParen] + segment[..n];
      assert segment[n] in segment;
      TopmostOpenBelow(stack, segment[..n]);
    }
  }

  /* ---------- Conversion of a written-out tree ---------- */

  /** Reading `Infix(e)` emits `Done(e)` and leaves `Pending(e)` on the stack. */
  lemma {:induction false} RunInfix(e: Expr, rest: seq<Token>, out: seq<Token>, stack: seq<Token>)
    requires WellGrouped(e) && Fits(e, stack)
    ensures Run(Infix(e) + rest, ConvState(out, stack))
         == Run(rest, ConvState(out + Done(e), stack + Pending(e)))
    decreases e, 1
  {
    match e
    case Lit(v) =>
      RunOne(Num(v), rest, ConvState(out, stack));
      assert stack + Pending(e) == stack;
    case Group(g) =>
      RunGroup(g, rest, out, stack);
      assert stack + Pending(e) == stack;
    case Bin(o, l, r) =>
      assert o in TopOps(e) && TopOps(l) <= TopOps(e);
      RunBin(o, l, r, rest, out, stack);
      assert out + Postfix(l) + Done(r) == out + Done(e);
      assert stack + [Op(o)] + Pending(r) == stack + Pending(e);
  }

  lemma {:induction false} RunGroup(g: Expr, rest: seq<Token>, out: seq<Token>, stack: seq<Token>)
    requires WellGrouped(g)
    ensures Run(Infix(Group(g)) + rest, ConvState(out, stack))
         == Run(rest, ConvState(out + Postfix(g), stack))
    decreases Group(g), 0
  {
    var inner := stack + [LParen];
    var tail := [RParen] + rest;
    assert Infix(Group(g)) + rest == [LParen] + (Infix(g) + tail);
    assert ([LParen] + (Infix(g) + tail))[1..] == Infix(g) + tail;
    assert Run(Infix(Group(g)) + rest, ConvState(out, stack))
        == Run(Infix(g) + tail, ConvState(out, inner));
    RunInfix(g, tail, out, inner);
    CloseGroup(g, out, stack);
    assert tail[0] == RParen && tail[1..] == rest;
  }

  /** The `)` of a group moves what the group left pending to the output. */
  lemma CloseGroup(g: Expr, out: seq<Token>, stack: seq<Token>)
    ensures PopToParen(ConvState(out + Done(g), stack + [LParen] + Pending(g)))
         == Ok(ConvState(out + Postfix(g), stack))
  {
    PendingAreTopOps(g);
    TopmostOpenBelow(stack, Pending(g));
    var full := stack + [LParen] + Pending(g);
    assert full[|stack| + 1..] == Pending(g);
    assert full[..|stack|] == stack;
    PostfixSplits(g);
    AppendAssoc(out, Done(g), Reversed(Pending(g)));
  }

  lemma PopSegment(o: Operator, out: seq<Token>, stack: seq<Token>, segment: seq<Token>)
    requires Kept(o, stack + segment) == |stack|
    ensures PopOperators(o, ConvState(out, stack + segment)) == ConvState(out + Reversed(segment), stack)
  {
    var full := stack + segment;
    assert full[|stack|..] == segment;
    assert full[..|stack|] == stack;
  }

  lemma LeftPendingKept(o: Operator, l: Expr, stack: seq<Token>)
    requires WellGrouped(l) && LeftFits(o, l) && Halts(o, stack)
    ensures Kept(o, stack + Pending(l)) == |stack|
  {
    LeftPendingPopped(o, l);
    KeptAbove(o, stack, Pending(l));
  }

  /** The operator after a left operand pops everything that operand left
      pending, and nothing beneath it. */
  lemma OperatorAfterLeft(o: Operator, l: Expr, out: seq<Token>, stack: seq<Token>)
    requires WellGrouped(l) && LeftFits(o, l) && Halts(o, stack)
    ensures PopOperators(o, ConvState(out + Done(l), stack + Pending(l)))
         == ConvState(out + Postfix(l), stack)
  {
    LeftPendingKept(o, l, stack);
    PopSegment(o, out + Done(l), stack, Pending(l));
    PostfixSplits(l);
    AppendAssoc(out, Done(l), Reversed(Pending(l)));
  }

  lemma {:induction false} RunBin(o: Operator, l: Expr, r: Expr, rest: seq<Token>, out: seq<Token>, stack: seq<Token>)
    requires WellGrouped(l) && WellGrouped(r) && LeftFits(o, l) && RightFits(o, r)
    requires Fits(l, stack) && Halts(o, stack)
    ensures Run(Infix(l) + [Op(o)] + Infix(r) + rest, ConvState(out, stack))
         == Run(rest, ConvState(out + Postfix(l) + Done(r), stack + [Op(o)] + Pending(r)))
    decreases Bin(o, l, r), 0
  {
    LeftThenOperator(o, l, Infix(r) + rest, out, stack);
    assert Infix(l) + [Op(o)] + Infix(r) + rest == Infix(l) + [Op(o)] + (Infix(r) + rest);
    RightOperandFits(o, r, stack);
    RunInfix(r, rest, out + Postfix(l), stack + [Op(o)]);
  }

  /** Reading a left operand and the operator after it emits the operand's
      postfix form and leaves the operator alone on top of the stack. */
  lemma {:induction false} LeftThenOperator(o: Operator, l: Expr, rest: seq<Token>, out: seq<Token>, stack: seq<Token>)
    requires WellGrouped(l) && LeftFits(o, l) && Fits(l, stack) && Halts(o, stack)
    ensures Run(Infix(l) + [Op(o)] + rest, ConvState(out, stack))
         == Run(rest, ConvState(out + Postfix(l), stack + [Op(o)]))
    decreases l, 2
  {
    AppendAssoc(Infix(l), [Op(o)], rest);
    RunInfix(l, [Op(o)] + rest, out, stack);
    OperatorAfterLeft(o, l, out, stack);
    RunOne(Op(o), rest, ConvState(out + Done(l), stack + Pending(l)));
  }

  /** A tree written out in infix converts to exactly its postfix form. */
  lemma ConvertInfix(e: Expr)
    requires WellGrouped(e)
    ensures Convert(Infix(e)) == Ok(Postfix(e))
  {
    assert Infix(e) + [] == Infix(e);
    RunInfix(e, [], [], []);
    assert [] + Done(e) == Done(e) && [] + Pending(e) == Pending(e);
    PostfixSplits(e);
  }

  /* ---------- Evaluation of a postfix form ---------- */

  /** Evaluating `Postfix(e)` pushes the value of `e`, or stops with its error. */
  lemma {:induction false} EvalRunPostfix(e: Expr, rest: seq<Token>, stack: seq<real>, pow: PowFn)
    ensures EvalRun(Postfix(e) + rest, stack, pow)
         == match Eval(e, pow)
            case Err(x) => Err(x)
            case Ok(v) => EvalRun(rest, stack + [v], pow)
  {
    match e
    case Lit(v) =>
      assert (Postfix(e) + rest)[0] == Num(v) && (Postfix(e) + rest)[1..] == rest;
    case Group(g) =>
      EvalRunPostfix(g, rest, stack, pow);
    case Bin(o, l, r) =>
      var tail := [Op(o)] + rest;
      assert Postfix(e) + rest == Postfix(l) + (Postfix(r) + tail);
      EvalRunPostfix(l, Postfix(r) + tail, stack, pow);
      if Eval(l, pow).Ok? {
        var a := Eval(l, pow).value;
        EvalRunPostfix(r, tail, stack + [a], pow);
        if Eval(r, pow).Ok? {
          var b := Eval(r, pow).value;
          var two := stack + [a] + [b];
          assert two[..|two| - 2] == stack;
          assert two[|two| - 2] == a && two[|two| - 1] == b;
          assert tail[0] == Op(o) && tail[1..] == rest;
        }
      }
  }

  /** The postfix form of a tree evaluates to the tree's value. */
  lemma EvaluatePostfix(e: Expr, pow: PowFn)
    ensures Evaluate(Postfix(e), pow) == Eval(e, pow)
  {
    assert Postfix(e) + [] == Postfix(e);
    EvalRunPostfix(e, [], [], pow);
  }

  /** Converting and then evaluating a written-out tree gives its
      conventional value, including its division-by-zero error. */
  lemma ConvertThenEvaluate(e: Expr, pow: PowFn)
    requires WellGrouped(e)
    ensures Convert(Infix(e)).Ok?
    ensures Evaluate(Convert(Infix(e)).value, pow) == Eval(e, pow)
  {
    ConvertInfix(e);
    EvaluatePostfix(e, pow);
  }
}
