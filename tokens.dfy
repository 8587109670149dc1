/** Tokens after classification, and helpers over token sequences. */
module Tokens {
  import opened Operators

  /** A token: the source keeps tokens as strings and tells an operator by table
      lookup, a parenthesis by its text, and treats anything else as a number. */
  datatype Token = Num(value: real) | Op(op: Operator) | LParen | RParen

  /** The elements of a stack (top = last element) in the order that popping
      them one by one yields. */
  function Reversed<T>(s: seq<T>): (r: seq<T>)
    ensures |r| == |s|
    ensures forall i | 0 <= i < |s| :: r[i] == s[|s| - 1 - i]
  {
    seq(|s|, i requires 0 <= i < |s| => s[|s| - 1 - i])
  }

  lemma ReversedCons<T>(x: T, s: seq<T>)
    ensures Reversed([x] + s) == Reversed(s) + [x]
  {
    assert forall i | 0 <= i < |s| + 1 :: Reversed([x] + s)[i] == (Reversed(s) + [x])[i];
  }

  lemma ReversedSnoc<T>(s: seq<T>, x: T)
    ensures Reversed(s + [x]) == [x] + Reversed(s)
  {
    assert forall i | 0 <= i < |s| + 1 :: Reversed(s + [x])[i] == ([x] + Reversed(s))[i];
  }

  lemma ReversedMultiset<T>(s: seq<T>)
    ensures multiset(Reversed(s)) == multiset(s)
    decreases |s|
  {
    if s != [] {
      assert s == s[..|s| - 1] + [s[|s| - 1]];
      ReversedSnoc(s[..|s| - 1], s[|s| - 1]);
      ReversedMultiset(s[..|s| - 1]);
    }
  }

  /** The values of the number tokens, in order. */
  function Numbers(ts: seq<Token>): seq<real> {
    if ts == [] then []
    else (if ts[0].Num? then [ts[0].value] else []) + Numbers(ts[1..])
  }

  lemma {:induction false} NumbersAppend(a: seq<Token>, b: seq<Token>)
    ensures Numbers(a + b) == Numbers(a) + Numbers(b)
    decreases |a|
  {
    if a == [] {
      assert a + b == b;
    } else {
      assert (a + b)[0] == a[0];
      assert (a + b)[1..] == a[1..] + b;
      NumbersAppend(a[1..], b);
    }
  }

  lemma {:induction false} NumbersNone(ts: seq<Token>)
    requires forall t | t in ts :: !t.Num?
    ensures Numbers(ts) == []
    decreases |ts|
  {
    if ts != [] {
      assert ts[0] in ts;
      NumbersNone(ts[1..]);
    }
  }
}
