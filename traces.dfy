/**
 Event traces shared by both level managers: every visible effect of a
 manager is appended to a sequence, and the one-shot guarantees of the
 managers are stated as occurrence counts over that sequence.
*/
module Traces {

  lemma AppendAssoc<T>(a: seq<T>, b: seq<T>, c: seq<T>)
    ensures (a + b) + c == a + (b + c)
  {
  }

  /** How many times `e` occurs in `t`. */
  ghost function Count<T>(t: seq<T>, e: T): nat
  {
    if t == [] then 0 else Count(t[..|t| - 1], e) + (if t[|t| - 1] == e then 1 else 0)
  }

  /** Counting distributes over concatenation. */
  lemma {:induction false} CountAppend<T>(t: seq<T>, u: seq<T>, e: T)
    ensures Count(t + u, e) == Count(t, e) + Count(u, e)
  {
    if u == [] {
      assert t + u == t;
    } else {
      assert (t + u)[..|t + u| - 1] == t + u[..|u| - 1];
      CountAppend(t, u[..|u| - 1], e);
    }
  }

  /** An event that does not occur has count zero. */
  lemma {:induction false} CountAbsent<T>(u: seq<T>, e: T)
    requires e !in u
    ensures Count(u, e) == 0
  {
    if u != [] {
      assert u[|u| - 1] in u;
      assert forall x :: x in u[..|u| - 1] ==> x in u;
      CountAbsent(u[..|u| - 1], e);
    }
  }

  /** `e` occurs exactly once in `t` when `fired`, and not at all otherwise. */
  ghost predicate OnceIff<T>(t: seq<T>, e: T, fired: bool)
  {
    Count(t, e) == if fired then 1 else 0
  }

  /** Appending a stretch in which `e` does not occur keeps its one-shot status. */
  lemma KeepOnce<T>(t: seq<T>, u: seq<T>, e: T, fired: bool)
    requires OnceIff(t, e, fired) && e !in u
    ensures OnceIff(t + u, e, fired)
  {
    CountAppend(t, u, e);
    CountAbsent(u, e);
  }

  /** Appending a stretch in which `e` occurs exactly once fires it. */
  lemma MarkOnce<T>(t: seq<T>, a: seq<T>, e: T, b: seq<T>)
    requires OnceIff(t, e, false) && e !in a && e !in b
    ensures OnceIff(t + (a + [e] + b), e, true)
  {
    CountAppend(t, a + [e] + b, e);
    CountAppend(a + [e], b, e);
    CountAppend(a, [e], e);
    CountAbsent(a, e);
    CountAbsent(b, e);
    assert [e][..0] == [];
  }
}
