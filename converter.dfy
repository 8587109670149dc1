/** Dijkstra's shunting-yard conversion from infix tokens to postfix (RPN)
    tokens, with an operator stack whose top is its last element. */
module Converter {
  import opened Results
  import opened Operators
  import opened Tokens

  /** The one way conversion fails: a `)` with no `(` left on the stack, where
      the source pops an empty stack. */
  datatype ConvertError = UnmatchedRightParen

  /** The converter's working state: the output list and the operator stack. */
  datatype ConvState = ConvState(out: seq<Token>, stack: seq<Token>)

  const Start := ConvState([], [])

  /** The inner loop for an incoming operator `o` stops on this stack: it is
      empty, its top is not an operator, or `o` does not pop its top. */
  predicate Halts(o: Operator, stack: seq<Token>) {
    stack == [] || !stack[|stack| - 1].Op? || !Pops(o, stack[|stack| - 1].op)
  }

  /** The height the operator stack has once the incoming operator `o` has
      popped what it pops: everything above it is an operator that `o` pops,
      and `o` does not pop what is left on top. */
  function Kept(o: Operator, stack: seq<Token>): (k: nat)
    ensures k <= |stack|
    decreases |stack|
  {
    if stack != [] && stack[|stack| - 1].Op? && Pops(o, stack[|stack| - 1].op) then
      Kept(o, stack[..|stack| - 1])
    else
      |stack|
  }

  lemma {:induction false} KeptStops(o: Operator, stack: seq<Token>)
    ensures Halts(o, stack[..Kept(o, stack)])
    ensures forall j | Kept(o, stack) <= j < |stack| :: stack[j].Op? && Pops(o, stack[j].op)
    decreases |stack|
  {
    if stack != [] && stack[|stack| - 1].Op? && Pops(o, stack[|stack| - 1].op) {
      var k := Kept(o, stack[..|stack| - 1]);
      KeptStops(o, stack[..|stack| - 1]);
      assert stack[..|stack| - 1][..k] == stack[..k];
    } else {
      assert stack[..|stack|] == stack;
    }
  }

  /** The incoming operator `o` moves the operators it pops from the top of the
      stack to the output, in pop order. */
  function PopOperators(o: Operator, s: ConvState): (r: ConvState)
    ensures |r.stack| <= |s.stack| && r.stack == s.stack[..|r.stack|]
    ensures r.out == s.out + Reversed(s.stack[|r.stack|..])
    ensures Halts(o, r.stack)
    ensures forall j | |r.stack| <= j < |s.stack| :: s.stack[j].Op? && Pops(o, s.stack[j].op)
  {
    KeptStops(o, s.stack);
    var k := Kept(o, s.stack);
    ConvState(s.out + Reversed(s.stack[k..]), s.stack[..k])
  }

  /** The index of the topmost `(` on the stack, or -1 when there is none. */
  function TopmostOpen(stack: seq<Token>): (k: int)
    ensures -1 <= k < |stack|
    ensures k == -1 <==> LParen !in stack
    ensures k >= 0 ==> stack[k] == LParen && LParen !in stack[k + 1..]
    decreases |stack|
  {
    if stack == [] then -1
    else if stack[|stack| - 1] == LParen then |stack| - 1
    else
      var rest := stack[..|stack| - 1];
      assert stack == rest + [stack[|stack| - 1]];
      var k := TopmostOpen(rest);
      assert k >= 0 ==> stack[k + 1..] == rest[k + 1..] + [stack[|stack| - 1]];
      k
  }

  /** The `)` case: moves everything above the topmost `(` to the output and
      drops that `(`; fails when the stack holds no `(`. */
  function PopToParen(s: ConvState): (r: Result<ConvState, ConvertError>)
    ensures r.Err? <==> LParen !in s.stack
    ensures r.Ok? ==>
      var k := |r.value.stack|;
      k < |s.stack| && r.value.stack == s.stack[..k] && s.stack[k] == LParen
      && LParen !in s.stack[k + 1..] && r.value.out == s.out + Reversed(s.stack[k + 1..])
  {
    var k := TopmostOpen(s.stack);
    if k < 0 then Err(UnmatchedRightParen)
    else Ok(ConvState(s.out + Reversed(s.stack[k + 1..]), s.stack[..k]))
  }

  /** One iteration of the conversion loop. It fails only on a `)` with no `(`
      on the stack; a `)` takes itself and one `(` out of circulation while
      every other token is moved to the output or the stack; and an operator
      is pushed onto a stack whose top it does not pop. */
  function Step(s: ConvState, t: Token): (r: Result<ConvState, ConvertError>)
    ensures r.Err? <==> t == RParen && LParen !in s.stack
    ensures r.Ok? ==>
      |r.value.out| + |r.value.stack| == |s.out| + |s.stack| + (if t == RParen then -1 else 1)
    ensures t.Op? ==>
      r.Ok? && var st := r.value.stack;
      |st| > 0 && st[|st| - 1] == t && Halts(t.op, st[..|st| - 1])
  {
    match t
    case Op(o) =>
      var p := PopOperators(o, s);
      Ok(ConvState(p.out, p.stack + [t]))
    case LParen => Ok(ConvState(s.out, s.stack + [LParen]))
    case RParen => PopToParen(s)
    case Num(_) => Ok(ConvState(s.out + [t], s.stack))
  }

  /** The conversion loop over the remaining tokens: output and stack together
      grow by one token per input token, less two for each `)`. */
  function Run(tokens: seq<Token>, s: ConvState): (r: Result<ConvState, ConvertError>)
    decreases |tokens|
  {
    if tokens == [] then Ok(s)
    else
      match Step(s, tokens[0])
      case Err(e) => Err(e)
      case Ok(s') => Run(tokens[1..], s')
  }

  /** One iteration of the loop, taken on its own. */
  lemma RunOne(t: Token, rest: seq<Token>, s: ConvState)
    requires Step(s, t).Ok?
    ensures Run([t] + rest, s) == Run(rest, Step(s, t).value)
  {
    assert ([t] + rest)[0] == t && ([t] + rest)[1..] == rest;
  }

  /** The final flush: the output keeps what it had, followed by the stack from
      its top down to its bottom. */
  function Flush(s: ConvState): (r: seq<Token>)
    ensures |r| == |s.out| + |s.stack|
    ensures r[..|s.out|] == s.out
    ensures forall i | |s.out| <= i < |r| :: r[i] == s.stack[|r| - 1 - i]
  {
    s.out + Reversed(s.stack)
  }

  /** Conversion fails exactly when some prefix of the input closes a
      parenthesis it has not opened, and number tokens pass straight through:
      the output's numbers are the input's, in the same order. */
  function Convert(tokens: seq<Token>): (r: Result<seq<Token>, ConvertError>)
    ensures r.Ok? <==> NoUnmatchedClose(tokens)
    ensures r.Ok? ==> Numbers(r.value) == Numbers(tokens)
  {
    RunSucceeds(tokens, Start);
    RunNumbers(tokens, Start);
    RunShape(tokens, Start);
    match Run(tokens, Start)
    case Err(e) => Err(e)
    case Ok(s) => FlushKeepsNumbers(s); Ok(Flush(s))
  }

  /* ---------- What conversion preserves ---------- */

  /** The operator stack only ever holds operators and `(`. */
  predicate StackShape(stack: seq<Token>) {
    forall t | t in stack :: t.Op? || t == LParen
  }

  /** Opening minus closing parentheses. */
  function Depth(ts: seq<Token>): int {
    multiset(ts)[LParen] as int - multiset(ts)[RParen] as int
  }

  /** No prefix closes more parentheses than it has opened. */
  predicate NoUnmatchedClose(ts: seq<Token>) {
    forall i | 0 <= i <= |ts| :: Depth(ts[..i]) >= 0
  }

  /** The tokens a `)` takes out of circulation: itself and the `(` it matches. */
  function Matched(t: Token): multiset<Token> {
    if t == RParen then multiset{LParen, RParen} else multiset{}
  }

  function MatchedAll(ts: seq<Token>): multiset<Token>
    decreases |ts|
  {
    if ts == [] then multiset{} else Matched(ts[0]) + MatchedAll(ts[1..])
  }

  lemma {:induction false} MatchedAllCounts(ts: seq<Token>)
    ensures MatchedAll(ts)[LParen] == multiset(ts)[RParen]
    ensures MatchedAll(ts)[RParen] == multiset(ts)[RParen]
    ensures forall t | t != LParen && t != RParen :: MatchedAll(ts)[t] == 0
    decreases |ts|
  {
    if ts != [] {
      assert ts == [ts[0]] + ts[1..];
      assert multiset(ts) == multiset{ts[0]} + multiset(ts[1..]);
      assert MatchedAll(ts) == Matched(ts[0]) + MatchedAll(ts[1..]);
      MatchedAllCounts(ts[1..]);
      forall t | t != LParen && t != RParen ensures MatchedAll(ts)[t] == 0 {
        assert Matched(ts[0])[t] == 0;
      }
    }
  }

  lemma {:induction false} MatchedAllSize(ts: seq<Token>)
    ensures |MatchedAll(ts)| == 2 * multiset(ts)[RParen]
    decreases |ts|
  {
    if ts != [] {
      assert ts == [ts[0]] + ts[1..];
      assert multiset(ts) == multiset{ts[0]} + multiset(ts[1..]);
      MatchedAllSize(ts[1..]);
    }
  }

  /** A segment holding no number token contributes nothing to Numbers, and
      neither does its reversal. */
  lemma NoNumbersReversed(segment: seq<Token>)
    requires forall t | t in segment :: !t.Num?
    ensures Numbers(Reversed(segment)) == []
  {
    forall x | x in Reversed(segment) ensures !x.Num? {
      var i :| 0 <= i < |segment| && Reversed(segment)[i] == x;
      assert x == segment[|segment| - 1 - i];
    }
    NumbersNone(Reversed(segment));
  }

  /** An operator step pops only operators and pushes an operator, so it keeps
      the stack's shape and its `(`. */
  lemma StepOpShape(s: ConvState, o: Operator)
    requires StackShape(s.stack)
    ensures StackShape(Step(s, Op(o)).value.stack)
    ensures multiset(Step(s, Op(o)).value.stack)[LParen] == multiset(s.stack)[LParen]
  {
    var st := s.stack;
    var k := Kept(o, st);
    KeptStops(o, st);
    assert st == st[..k] + st[k..];
    assert LParen !in st[k..];
    assert multiset(st[k..])[LParen] == 0;
  }

  /** An operator step moves what it pops from the stack to the output and
      adds itself. */
  lemma StepOpMultiset(s: ConvState, o: Operator)
    ensures var s' := Step(s, Op(o)).value;
      forall x: Token :: multiset(s'.out)[x] + multiset(s'.stack)[x]
                         == multiset(s.out)[x] + multiset(s.stack)[x] + multiset{Op(o)}[x]
  {
    var st := s.stack;
    var k := Kept(o, st);
    assert st == st[..k] + st[k..];
    ReversedMultiset(st[k..]);
    var s' := Step(s, Op(o)).value;
    assert multiset(s'.out) == multiset(s.out) + multiset(st[k..]);
    assert multiset(s'.stack) == multiset(st[..k]) + multiset{Op(o)};
  }

  /** An operator step adds no number to the output. */
  lemma StepOpNumbers(s: ConvState, o: Operator)
    requires StackShape(s.stack)
    ensures Numbers(Step(s, Op(o)).value.out) == Numbers(s.out)
  {
    var st := s.stack;
    var k := Kept(o, st);
    assert forall t | t in st[k..] :: !t.Num? by {
      forall t | t in st[k..] ensures !t.Num? { assert t in st; }
    }
    NoNumbersReversed(st[k..]);
    NumbersAppend(s.out, Reversed(st[k..]));
  }

  /** A `)` step drops the topmost `(` and pops only what lies above it. */
  lemma StepCloseShape(s: ConvState)
    requires StackShape(s.stack) && LParen in s.stack
    ensures Step(s, RParen).Ok?
    ensures StackShape(Step(s, RParen).value.stack)
    ensures multiset(Step(s, RParen).value.stack)[LParen] + 1 == multiset(s.stack)[LParen]
  {
    var st := s.stack;
    var k := TopmostOpen(st);
    assert st == st[..k] + [LParen] + st[k + 1..];
    assert multiset(st[k + 1..])[LParen] == 0;
  }

  /** A `)` step moves what lies above the topmost `(` to the output and takes
      that `(` out of circulation. */
  lemma StepCloseMultiset(s: ConvState)
    requires LParen in s.stack
    ensures Step(s, RParen).Ok?
    ensures var s' := Step(s, RParen).value;
      forall x: Token :: multiset(s'.out)[x] + multiset(s'.stack)[x] + multiset{LParen}[x]
                         == multiset(s.out)[x] + multiset(s.stack)[x]
  {
    var st := s.stack;
    var k := TopmostOpen(st);
    assert st == st[..k] + [LParen] + st[k + 1..];
    ReversedMultiset(st[k + 1..]);
    var s' := Step(s, RParen).value;
    assert multiset(s'.out) == multiset(s.out) + multiset(st[k + 1..]);
    assert multiset(s'.stack) == multiset(st[..k]);
  }

  /** A `)` step adds no number to the output. */
  lemma StepCloseNumbers(s: ConvState)
    requires StackShape(s.stack) && LParen in s.stack
    ensures Step(s, RParen).Ok?
    ensures Numbers(Step(s, RParen).value.out) == Numbers(s.out)
  {
    var st := s.stack;
    var k := TopmostOpen(st);
    assert forall t | t in st[k + 1..] :: !t.Num? by {
      forall t | t in st[k + 1..] ensures !t.Num? { assert t in st; }
    }
    NoNumbersReversed(st[k + 1..]);
    NumbersAppend(s.out, Reversed(st[k + 1..]));
  }

  /** One conversion step keeps the stack's shape and changes its count of `(`
      by the step's depth; a `)` fails exactly when no `(` is on the stack. */
  lemma StepShape(s: ConvState, t: Token)
    requires StackShape(s.stack)
    ensures Step(s, t).Ok? <==> (t == RParen ==> LParen in s.stack)
    ensures Step(s, t).Ok? ==>
      StackShape(Step(s, t).value.stack)
      && multiset(Step(s, t).value.stack)[LParen] as int == multiset(s.stack)[LParen] as int + Depth([t])
  {
    match t
    case Op(o) => StepOpShape(s, o);
    case LParen =>
    case RParen =>
      if LParen in s.stack {
        StepCloseShape(s);
      }
    case Num(_) =>
  }

  /** One conversion step moves tokens between input, stack and output without
      creating or losing any, except that a `)` removes itself and one `(`. */
  lemma StepMultiset(s: ConvState, t: Token)
    ensures Step(s, t).Ok? ==>
      var s' := Step(s, t).value;
      forall x: Token :: multiset(s'.out)[x] + multiset(s'.stack)[x] + Matched(t)[x]
                         == multiset(s.out)[x] + multiset(s.stack)[x] + multiset{t}[x]
  {
    match t
    case Op(o) => StepOpMultiset(s, o);
    case LParen =>
    case RParen =>
      if LParen in s.stack {
        StepCloseMultiset(s);
      }
    case Num(_) =>
  }

  /** One conversion step appends the token's number, if it is one, and no
      other number to the output. */
  lemma StepNumbers(s: ConvState, t: Token)
    requires StackShape(s.stack)
    ensures Step(s, t).Ok? ==> Numbers(Step(s, t).value.out) == Numbers(s.out) + Numbers([t])
  {
    match t
    case Op(o) => StepOpNumbers(s, o);
    case LParen =>
    case RParen =>
      if LParen in s.stack {
        StepCloseNumbers(s);
      }
    case Num(_) =>
      NumbersAppend(s.out, [t]);
  }

  lemma {:induction false} RunShape(tokens: seq<Token>, s: ConvState)
    requires StackShape(s.stack)
    ensures Run(tokens, s).Ok? ==> StackShape(Run(tokens, s).value.stack)
    decreases |tokens|
  {
    if tokens != [] {
      StepShape(s, tokens[0]);
      if Step(s, tokens[0]).Ok? {
        RunShape(tokens[1..], Step(s, tokens[0]).value);
      }
    }
  }

  lemma {:induction false} RunMultiset(tokens: seq<Token>, s: ConvState)
    ensures Run(tokens, s).Ok? ==>
      var s' := Run(tokens, s).value;
      forall x: Token :: multiset(s'.out)[x] + multiset(s'.stack)[x] + MatchedAll(tokens)[x]
                         == multiset(s.out)[x] + multiset(s.stack)[x] + multiset(tokens)[x]
    decreases |tokens|
  {
    if tokens == [] {
    } else if Step(s, tokens[0]).Ok? {
      var t := tokens[0];
      var s1 := Step(s, t).value;
      StepMultiset(s, t);
      RunMultiset(tokens[1..], s1);
      assert tokens == [t] + tokens[1..];
      assert multiset(tokens) == multiset{t} + multiset(tokens[1..]);
      assert Run(tokens, s) == Run(tokens[1..], s1);
    }
  }

  lemma {:induction false} RunNumbers(tokens: seq<Token>, s: ConvState)
    requires StackShape(s.stack)
    ensures Run(tokens, s).Ok? ==> Numbers(Run(tokens, s).value.out) == Numbers(s.out) + Numbers(tokens)
    decreases |tokens|
  {
    if tokens != [] && Step(s, tokens[0]).Ok? {
      var t := tokens[0];
      var s1 := Step(s, t).value;
      StepShape(s, t);
      StepNumbers(s, t);
      RunNumbers(tokens[1..], s1);
      assert tokens == [t] + tokens[1..];
      NumbersAppend([t], tokens[1..]);
    }
  }

  /** The depth of a non-empty prefix is that of the first token plus that of
      the rest of the prefix. */
  lemma DepthSplit(tokens: seq<Token>)
    requires tokens != []
    ensures forall i | 1 <= i <= |tokens| :: Depth(tokens[..i]) == Depth([tokens[0]]) + Depth(tokens[1..][..i - 1])
  {
    forall i | 1 <= i <= |tokens|
      ensures Depth(tokens[..i]) == Depth([tokens[0]]) + Depth(tokens[1..][..i - 1])
    {
      assert tokens[..i] == [tokens[0]] + tokens[1..][..i - 1];
    }
  }

  lemma {:induction false} RunSucceeds(tokens: seq<Token>, s: ConvState)
    requires StackShape(s.stack)
    ensures Run(tokens, s).Ok? <==>
      forall i | 0 <= i <= |tokens| :: multiset(s.stack)[LParen] as int + Depth(tokens[..i]) >= 0
    decreases |tokens|
  {
    var h := multiset(s.stack)[LParen] as int;
    if tokens == [] {
      assert tokens[..0] == [];
    } else {
      var t := tokens[0];
      StepShape(s, t);
      assert tokens[..1] == [t];
      if Step(s, t).Ok? {
        var s1 := Step(s, t).value;
        RunSucceeds(tokens[1..], s1);
        DepthSplit(tokens);
        if Run(tokens, s).Ok? {
          forall i | 0 <= i <= |tokens| ensures h + Depth(tokens[..i]) >= 0 {
            if i == 0 { assert tokens[..0] == []; }
          }
        } else {
          var i :| 0 <= i <= |tokens[1..]| && multiset(s1.stack)[LParen] as int + Depth(tokens[1..][..i]) < 0;
          assert h + Depth(tokens[..i + 1]) < 0;
        }
      } else {
        assert h + Depth(tokens[..1]) < 0;
      }
    }
  }

  /** The final flush adds no number to the output. */
  lemma FlushKeepsNumbers(s: ConvState)
    requires StackShape(s.stack)
    ensures Numbers(Flush(s)) == Numbers(s.out)
  {
    assert forall t | t in s.stack :: !t.Num?;
    NoNumbersReversed(s.stack);
    NumbersAppend(s.out, Reversed(s.stack));
  }

  /** Conversion conserves tokens: the output holds the input's tokens less one
      `(` and one `)` for each `)` of the input. */
  lemma ConvertMultiset(tokens: seq<Token>)
    ensures Convert(tokens).Ok? ==>
      multiset(Convert(tokens).value) + MatchedAll(tokens) == multiset(tokens)
  {
    RunMultiset(tokens, Start);
    if Run(tokens, Start).Ok? {
      var s := Run(tokens, Start).value;
      ReversedMultiset(s.stack);
      var out := Convert(tokens).value;
      assert multiset(out) == multiset(s.out) + multiset(s.stack);
      forall x: Token ensures (multiset(out) + MatchedAll(tokens))[x] == multiset(tokens)[x] {
        assert multiset(Start.out)[x] == 0 && multiset(Start.stack)[x] == 0;
      }
    }
  }

  /** Every operator reaches the output exactly once, no `)` does, each `(`
      left unmatched is emitted into the output, and the output is shorter
      than the input by two tokens per `)`. */
  lemma ConvertConserves(tokens: seq<Token>)
    ensures Convert(tokens).Ok? ==>
      var out := Convert(tokens).value;
      (forall o: Operator :: multiset(out)[Op(o)] == multiset(tokens)[Op(o)])
      && multiset(out)[RParen] == 0
      && multiset(out)[LParen] as int == multiset(tokens)[LParen] as int - multiset(tokens)[RParen] as int
      && |out| == |tokens| - 2 * multiset(tokens)[RParen]
  {
    ConvertMultiset(tokens);
    MatchedAllCounts(tokens);
    MatchedAllSize(tokens);
    if Convert(tokens).Ok? {
      var out := Convert(tokens).value;
      assert |multiset(out) + MatchedAll(tokens)| == |multiset(tokens)|;
      forall o: Operator ensures multiset(out)[Op(o)] == multiset(tokens)[Op(o)] {
        assert (multiset(out) + MatchedAll(tokens))[Op(o)] == multiset(tokens)[Op(o)];
      }
      assert (multiset(out) + MatchedAll(tokens))[RParen] == multiset(tokens)[RParen];
      assert (multiset(out) + MatchedAll(tokens))[LParen] == multiset(tokens)[LParen];
    }
  }

  /** On balanced input the output is the input with every parenthesis
      removed. */
  lemma ConvertBalanced(tokens: seq<Token>)
    requires NoUnmatchedClose(tokens) && Depth(tokens) == 0
    ensures Convert(tokens).Ok?
    ensures LParen !in Convert(tokens).value && RParen !in Convert(tokens).value
    ensures |Convert(tokens).value| == |tokens| - multiset(tokens)[LParen] - multiset(tokens)[RParen]
  {
    ConvertConserves(tokens);
    assert tokens[..|tokens|] == tokens;
  }

  /* ---------- The order of the operator stack ---------- */

  /** `a` may sit directly below `b` on the operator stack. */
  predicate Below(a: Operator, b: Operator) {
    Precedence(a) < Precedence(b) || (a == Power && b == Power)
  }

  /** Within each stretch of the stack between parentheses, precedences rise
      strictly from bottom to top, except that `^` may sit on `^`. */
  predicate Ordered(stack: seq<Token>) {
    forall i | 0 < i < |stack| :: stack[i - 1].Op? && stack[i].Op? ==> Below(stack[i - 1].op, stack[i].op)
  }

  lemma StepKeepsOrdered(s: ConvState, t: Token)
    requires Ordered(s.stack)
    ensures Step(s, t).Ok? ==> Ordered(Step(s, t).value.stack)
  {
    var st := s.stack;
    match t
    case Op(o) =>
      var k := Kept(o, st);
      KeptStops(o, st);
      var st' := st[..k] + [t];
      forall i | 0 < i < |st'| && st'[i - 1].Op? && st'[i].Op?
        ensures Below(st'[i - 1].op, st'[i].op)
      {
        if i < k {
          assert st'[i - 1] == st[i - 1] && st'[i] == st[i];
        }
      }
    case LParen =>
      var st' := st + [LParen];
      forall i | 0 < i < |st'| && st'[i - 1].Op? && st'[i].Op?
        ensures Below(st'[i - 1].op, st'[i].op)
      {
        assert st'[i - 1] == st[i - 1] && st'[i] == st[i];
      }
    case RParen =>
      var k := TopmostOpen(st);
      if k >= 0 {
        forall i | 0 < i < k && st[..k][i - 1].Op? && st[..k][i].Op?
          ensures Below(st[..k][i - 1].op, st[..k][i].op)
        {
          assert st[..k][i - 1] == st[i - 1] && st[..k][i] == st[i];
        }
      }
    case Num(_) =>
  }

  /** Every operator stack the conversion passes through is ordered. */
  lemma {:induction false} RunKeepsOrdered(tokens: seq<Token>, s: ConvState)
    requires Ordered(s.stack)
    ensures Run(tokens, s).Ok? ==> Ordered(Run(tokens, s).value.stack)
    decreases |tokens|
  {
    if tokens != [] {
      StepKeepsOrdered(s, tokens[0]);
      if Step(s, tokens[0]).Ok? {
        RunKeepsOrdered(tokens[1..], Step(s, tokens[0]).value);
      }
    }
  }

  /** The inner loop for an incoming operator: pops operators to the output
      while the incoming operator pops them. */
  method PopWhileBinding(o: Operator, out: seq<Token>, stack: seq<Token>)
    returns (rpn: seq<Token>, operatorStack: seq<Token>)
    ensures ConvState(rpn, operatorStack) == PopOperators(o, ConvState(out, stack))
  {
    rpn, operatorStack := out, stack;
    ghost var k := Kept(o, stack);
    while operatorStack != [] && operatorStack[|operatorStack| - 1].Op?
      invariant Kept(o, operatorStack) == k
      invariant |operatorStack| <= |stack|
      invariant operatorStack == stack[..|operatorStack|]
      invariant rpn == out + Reversed(stack[|operatorStack|..])
      decreases |operatorStack|
    {
      if Pops(o, operatorStack[|operatorStack| - 1].op) {
        ghost var m := |operatorStack|;
        assert stack[m - 1..] == [operatorStack[m - 1]] + stack[m..];
        ReversedCons(operatorStack[m - 1], stack[m..]);
        rpn := rpn + [operatorStack[|operatorStack| - 1]];
        operatorStack := operatorStack[..|operatorStack| - 1];
        continue;
      }
      break;
    }
  }

  /** The `)` case: pops operators to the output down to the nearest `(`, then
      pops that `(`, which fails on an empty stack. */
  method PopThroughParen(out: seq<Token>, stack: seq<Token>)
    returns (r: Result<ConvState, ConvertError>)
    ensures r == PopToParen(ConvState(out, stack))
  {
    var rpn, operatorStack := out, stack;
    ghost var k := TopmostOpen(stack);
    while operatorStack != [] && operatorStack[|operatorStack| - 1] != LParen
      invariant TopmostOpen(operatorStack) == k
      invariant |operatorStack| <= |stack|
      invariant operatorStack == stack[..|operatorStack|]
      invariant rpn == out + Reversed(stack[|operatorStack|..])
      decreases |operatorStack|
    {
      ghost var m := |operatorStack|;
      assert stack[m - 1..] == [operatorStack[m - 1]] + stack[m..];
      ReversedCons(operatorStack[m - 1], stack[m..]);
      rpn := rpn + [operatorStack[|operatorStack| - 1]];
      operatorStack := operatorStack[..|operatorStack| - 1];
    }
    if operatorStack == [] {
      return Err(UnmatchedRightParen);
    }
    assert stack[..|operatorStack|][..k] == stack[..k];
    r := Ok(ConvState(rpn, operatorStack[..|operatorStack| - 1]));
  }

  /** The final loop: pops what remains on the stack to the output. */
  method FlushStack(out: seq<Token>, stack: seq<Token>) returns (rpn: seq<Token>)
    ensures rpn == Flush(ConvState(out, stack))
  {
    rpn := out;
    var operatorStack := stack;
    while operatorStack != []
      invariant operatorStack == stack[..|operatorStack|]
      invariant rpn == out + Reversed(stack[|operatorStack|..])
      decreases |operatorStack|
    {
      ghost var m := |operatorStack|;
      assert stack[m - 1..] == [operatorStack[m - 1]] + stack[m..];
      ReversedCons(operatorStack[m - 1], stack[m..]);
      rpn := rpn + [operatorStack[|operatorStack| - 1]];
      operatorStack := operatorStack[..|operatorStack| - 1];
    }
    assert stack[0..] == stack;
  }

  method ConvertInfixToRPN(tokens: seq<Token>) returns (r: Result<seq<Token>, ConvertError>)
    ensures r == Convert(tokens)
  {
    var rpn: seq<Token> := [];
    var operatorStack: seq<Token> := [];
    var i := 0;
    while i < |tokens|
      invariant 0 <= i <= |tokens|
      invariant Run(tokens, Start) == Run(tokens[i..], ConvState(rpn, operatorStack))
    {
      var token := tokens[i];
      ghost var before := ConvState(rpn, operatorStack);
      assert tokens[i..][0] == token && tokens[i..][1..] == tokens[i + 1..];
      match token {
        case Op(o) =>
          rpn, operatorStack := PopWhileBinding(o, rpn, operatorStack);
          operatorStack := operatorStack + [token];
        case LParen =>
          operatorStack := operatorStack + [token];
        case RParen =>
          var popped := PopThroughParen(rpn, operatorStack);
          if popped.Err? {
            return Err(popped.error);
          }
          rpn, operatorStack := popped.value.out, popped.value.stack;
        case Num(_) =>
          rpn := rpn + [token];
      }
      assert Step(before, token) == Ok(ConvState(rpn, operatorStack));
      i := i + 1;
    }
    assert tokens[i..] == [];
    rpn := FlushStack(rpn, operatorStack);
    r := Ok(rpn);
  }
}
