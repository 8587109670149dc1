/** The stack machine that evaluates postfix (RPN) tokens to one number. */
module Evaluator {
  import opened Results
  import opened Operators
  import opened Tokens

  /** Why evaluation fails: a zero right operand of `/` or `^` (the source's
      "Divide by 0 error!"), an operator meeting fewer than two values or a
      final pop of an empty stack (an empty-stack exception), more than one
      value left at the end, and a parenthesis, which no number parser accepts. */
  datatype EvalError = DivideByZero | StackUnderflow | TooManyValues | EmptyStack | NotANumber

  /** The library's power function on doubles, which the model does not define. */
  type PowFn = (real, real) -> real

  /** One operator applied to its operands in source order: `a` was pushed
      first and `b` last. */
  function Apply(o: Operator, a: real, b: real, pow: PowFn): (r: Result<real, EvalError>)
    ensures r.Err? <==> (o == Divide || o == Power) && b == 0.0
    ensures r.Err? ==> r.error == DivideByZero
  {
    match o
    case Plus => Ok(a + b)
    case Times => Ok(a * b)
    case Minus => Ok(a - b)
    case Divide => if b == 0.0 then Err(DivideByZero) else Ok(a / b)
    case Power => if b == 0.0 then Err(DivideByZero) else Ok(pow(a, b))
  }

  /** One iteration of the evaluation loop on the value stack (top = last).
      A number is pushed; an operator replaces the two topmost values by its
      result, taking the value below the top as its left operand and the top as
      its right one; nothing under them changes. It fails only on an operator
      meeting fewer than two values, on a zero right operand of `/` or `^`, or
      on a parenthesis. */
  function EvalStep(stack: seq<real>, t: Token, pow: PowFn): (r: Result<seq<real>, EvalError>)
    ensures r.Ok? ==>
      |r.value| == |stack| + Delta(t) && |r.value| > 0
      && r.value[..|r.value| - 1] == stack[..|r.value| - 1]
    ensures t.Num? ==> r.Ok? && r.value[|r.value| - 1] == t.value
    ensures t == LParen || t == RParen ==> r == Err(NotANumber)
    ensures t.Op? && r.Ok? ==>
      Apply(t.op, stack[|stack| - 2], stack[|stack| - 1], pow) == Ok(r.value[|r.value| - 1])
    ensures t.Op? ==> (r.Ok? <==> |stack| >= 2 && !((t.op == Divide || t.op == Power) && stack[|stack| - 1] == 0.0))
    ensures r.Err? ==>
      if t.Op? && |stack| < 2 then r.error == StackUnderflow
      else if t.Op? then r.error == DivideByZero
      else r.error == NotANumber
  {
    match t
    case Num(v) => Ok(stack + [v])
    case Op(o) =>
      if |stack| < 2 then Err(StackUnderflow)
      else (
        match Apply(o, stack[|stack| - 2], stack[|stack| - 1], pow)
        case Err(e) => Err(e)
        case Ok(v) => Ok(stack[..|stack| - 2] + [v]))
    case LParen => Err(NotANumber)
    case RParen => Err(NotANumber)
  }

  /** The evaluation loop over the remaining tokens: a successful run leaves
      numbers-minus-operators more values on the stack. */
  function EvalRun(tokens: seq<Token>, stack: seq<real>, pow: PowFn): (r: Result<seq<real>, EvalError>)
    ensures r.Ok? ==> |r.value| == |stack| + Height(tokens)
    decreases |tokens|
  {
    if tokens == [] then Ok(stack)
    else
      match EvalStep(stack, tokens[0], pow)
      case Err(e) => Err(e)
      case Ok(stack') => EvalRun(tokens[1..], stack', pow)
  }

  /** One iteration of the loop, taken on its own. */
  lemma EvalOne(t: Token, rest: seq<Token>, stack: seq<real>, pow: PowFn)
    ensures EvalStep(stack, t, pow).Err? ==>
      EvalRun([t] + rest, stack, pow) == Err(EvalStep(stack, t, pow).error)
    ensures EvalStep(stack, t, pow).Ok? ==>
      EvalRun([t] + rest, stack, pow) == EvalRun(rest, EvalStep(stack, t, pow).value, pow)
  {
    assert ([t] + rest)[0] == t && ([t] + rest)[1..] == rest;
  }

  /** The end of evaluation: it succeeds, with the one value, exactly when one
      value remains; more is `TooManyValues`, none an empty-stack pop. */
  function Finish(stack: seq<real>): (r: Result<real, EvalError>)
    ensures r.Ok? <==> |stack| == 1
    ensures r.Ok? ==> r.value == stack[0]
    ensures r.Err? ==> (r.error == TooManyValues <==> |stack| > 1) && (r.error == EmptyStack <==> stack == [])
  {
    if |stack| > 1 then Err(TooManyValues)
    else if stack == [] then Err(EmptyStack)
    else Ok(stack[0])
  }

  /** Evaluation succeeds only if every operator meets at least two values and
      exactly one more number than operators appears; in particular an RPN
      sequence holding a parenthesis never evaluates. */
  function Evaluate(rpn: seq<Token>, pow: PowFn): (r: Result<real, EvalError>)
    ensures r.Ok? ==> Feasible(rpn, 0) && Height(rpn) == 1
    ensures LParen in rpn || RParen in rpn ==> r.Err?
  {
    EvalRunSucceeds(rpn, [], pow);
    match EvalRun(rpn, [], pow)
    case Err(e) => Err(e)
    case Ok(stack) => Finish(stack)
  }

  method EvaluateRPN(rpn: seq<Token>, pow: PowFn) returns (r: Result<real, EvalError>)
    ensures r == Evaluate(rpn, pow)
  {
    var stack: seq<real> := [];
    var i := 0;
    while i < |rpn|
      invariant 0 <= i <= |rpn|
      invariant EvalRun(rpn, [], pow) == EvalRun(rpn[i..], stack, pow)
    {
      var token := rpn[i];
      ghost var before := stack;
      assert rpn[i..][0] == token && rpn[i..][1..] == rpn[i + 1..];
      match token {
        case Op(o) =>
          if stack == [] {
            return Err(StackUnderflow);
          }
          var b := stack[|stack| - 1];
          stack := stack[..|stack| - 1];
          if stack == [] {
            return Err(StackUnderflow);
          }
          var a := stack[|stack| - 1];
          stack := stack[..|stack| - 1];
          assert stack == before[..|before| - 2];
          var value: real;
          match o {
            case Plus => value := b + a;
            case Times =>
              value := b * a;
              assert Apply(Times, a, b, pow).value == value;
            case Minus => value := a - b;
            case Divide =>
              if b == 0.0 {
                return Err(DivideByZero);
              }
              value := a / b;
            case Power =>
              if b == 0.0 {
                return Err(DivideByZero);
              }
              value := pow(a, b);
          }
          assert a == before[|before| - 2] && b == before[|before| - 1];
          assert Apply(o, a, b, pow) == Ok(value);
          stack := stack + [value];
        case Num(v) =>
          stack := stack + [v];
        case LParen =>
          return Err(NotANumber);
        case RParen =>
          return Err(NotANumber);
      }
      assert EvalStep(before, token, pow) == Ok(stack);
      i := i + 1;
    }
    assert rpn[i..] == [];
    if |stack| > 1 {
      return Err(TooManyValues);
    }
    if stack == [] {
      return Err(EmptyStack);
    }
    r := Ok(stack[0]);
  }

  /* ---------- Stack-height accounting ---------- */

  /** How a token changes the height of the value stack. */
  function Delta(t: Token): int {
    match t
    case Num(_) => 1
    case Op(_) => -1
    case LParen => 0
    case RParen => 0
  }

  /** Numbers minus operators. */
  function Height(ts: seq<Token>): int
    decreases |ts|
  {
    if ts == [] then 0 else Delta(ts[0]) + Height(ts[1..])
  }

  /** From a stack of height `h`, the tokens contain no parenthesis and every
      operator finds at least two values on the stack. */
  predicate Feasible(ts: seq<Token>, h: int) {
    (forall t | t in ts :: t.Num? || t.Op?)
    && forall i | 0 <= i < |ts| :: ts[i].Op? ==> h + Height(ts[..i]) >= 2
  }

  lemma HeightCons(t: Token, ts: seq<Token>)
    ensures Height([t] + ts) == Delta(t) + Height(ts)
  {
    assert ([t] + ts)[1..] == ts;
  }

  /** Peels the first token off a feasibility claim. */
  lemma {:induction false} FeasibleCons(ts: seq<Token>, h: int)
    requires ts != []
    ensures Feasible(ts, h) <==>
      (ts[0].Num? || (ts[0].Op? && h >= 2)) && Feasible(ts[1..], h + Delta(ts[0]))
  {
    var t, rest := ts[0], ts[1..];
    assert ts == [t] + rest;
    assert ts[..0] == [];
    forall i | 0 <= i < |rest|
      ensures h + Height(ts[..i + 1]) == h + Delta(t) + Height(rest[..i])
    {
      assert ts[..i + 1] == [t] + rest[..i];
      HeightCons(t, rest[..i]);
    }
    if Feasible(ts, h) {
      forall i | 0 <= i < |rest| && rest[i].Op?
        ensures h + Delta(t) + Height(rest[..i]) >= 2
      {
        assert ts[i + 1] == rest[i];
      }
    }
    if (t.Num? || (t.Op? && h >= 2)) && Feasible(rest, h + Delta(t)) {
      forall i | 0 <= i < |ts| && ts[i].Op?
        ensures h + Height(ts[..i]) >= 2
      {
        if i > 0 {
          assert ts[i] == rest[i - 1];
        }
      }
    }
  }

  /** A successful run saw no parenthesis, and every operator in it met at
      least two values. */
  lemma {:induction false} EvalRunSucceeds(ts: seq<Token>, stack: seq<real>, pow: PowFn)
    ensures EvalRun(ts, stack, pow).Ok? ==> Feasible(ts, |stack|)
    decreases |ts|
  {
    if ts != [] {
      FeasibleCons(ts, |stack|);
      var step := EvalStep(stack, ts[0], pow);
      if step.Ok? {
        EvalRunSucceeds(ts[1..], step.value, pow);
      }
    }
  }

  /** A feasible run succeeds unless a zero right operand stops it. */
  lemma {:induction false} EvalRunFeasible(ts: seq<Token>, stack: seq<real>, pow: PowFn)
    requires Feasible(ts, |stack|)
    ensures EvalRun(ts, stack, pow).Ok? || EvalRun(ts, stack, pow) == Err(DivideByZero)
    decreases |ts|
  {
    if ts != [] {
      FeasibleCons(ts, |stack|);
      var step := EvalStep(stack, ts[0], pow);
      if step.Ok? {
        EvalRunFeasible(ts[1..], step.value, pow);
      }
    }
  }

  /** When every operator meets at least two values, the outcome is decided by
      the final height: one value gives a result, more give TooManyValues,
      none gives EmptyStack; a zero right operand of `/` or `^` preempts all
      three. */
  lemma EvaluateFeasible(rpn: seq<Token>, pow: PowFn)
    requires Feasible(rpn, 0)
    ensures Evaluate(rpn, pow) == Err(DivideByZero) || (
      && (Height(rpn) == 1 ==> Evaluate(rpn, pow).Ok?)
      && (Height(rpn) > 1 ==> Evaluate(rpn, pow) == Err(TooManyValues))
      && (Height(rpn) == 0 ==> Evaluate(rpn, pow) == Err(EmptyStack)))
  {
    EvalRunFeasible(rpn, [], pow);
  }
}
