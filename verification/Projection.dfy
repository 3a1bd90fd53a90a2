/** Projections of a queue: what remains of a sequence when each element is
    replaced by the (possibly empty) list of events it stands for. */
module Projection {

  function Collect<T, U>(s: seq<T>, f: T -> seq<U>): seq<U> {
    if s == [] then [] else f(s[0]) + Collect(s[1..], f)
  }

  lemma {:induction false} CollectAppend<T, U>(s: seq<T>, t: seq<T>, f: T -> seq<U>)
    ensures Collect(s + t, f) == Collect(s, f) + Collect(t, f)
  {
    if s == [] {
      assert s + t == t;
    } else {
      assert (s + t)[1..] == s[1..] + t;
      CollectAppend(s[1..], t, f);
    }
  }

  lemma {:induction false} CollectSnoc<T, U>(s: seq<T>, x: T, f: T -> seq<U>)
    ensures Collect(s + [x], f) == Collect(s, f) + f(x)
  {
    CollectAppend(s, [x], f);
    assert Collect([x], f) == f(x) + Collect([], f) == f(x);
  }

  /** Replacing an element by one that stands for the same events is invisible. */
  lemma {:induction false} CollectSet<T, U>(s: seq<T>, i: nat, x: T, f: T -> seq<U>)
    requires i < |s| && f(x) == f(s[i])
    ensures Collect(s[i := x], f) == Collect(s, f)
  {
    if i == 0 {
      assert s[i := x][1..] == s[1..];
    } else {
      assert s[i := x][1..] == s[1..][i - 1 := x];
      CollectSet(s[1..], i - 1, x, f);
    }
  }

  lemma {:induction false} CollectEmpty<T, U>(s: seq<T>, f: T -> seq<U>)
    requires Collect(s, f) == []
    ensures forall i | 0 <= i < |s| :: f(s[i]) == []
  {
    if s != [] {
      CollectEmpty(s[1..], f);
      forall i | 0 <= i < |s| ensures f(s[i]) == [] {
        if i > 0 {
          assert s[i] == s[1..][i - 1];
        }
      }
    }
  }

  /** An element that stands for some event keeps the projection nonempty. */
  lemma {:induction false} CollectMember<T, U>(s: seq<T>, i: nat, f: T -> seq<U>)
    requires i < |s|
    ensures |f(s[i])| <= |Collect(s, f)|
  {
    if i > 0 {
      CollectMember(s[1..], i - 1, f);
    }
  }
}
