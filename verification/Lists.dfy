/** The intrusive lists of the scheduler, seen as sequences. */
module Lists {

  /** An object is linked in a list at most once. */
  predicate NoDup<T(==)>(s: seq<T>) {
    forall i, j :: 0 <= i < j < |s| ==> s[i] != s[j]
  }

  /** The list without `x`; the other elements keep their order. */
  function Remove<T(==)>(s: seq<T>, x: T): seq<T> {
    if s == [] then []
    else if s[0] == x then Remove(s[1..], x)
    else [s[0]] + Remove(s[1..], x)
  }

  /** The list without any element of `xs`. */
  function RemoveAll<T(==)>(s: seq<T>, xs: seq<T>): seq<T> {
    if xs == [] then s
    else Remove(RemoveAll(s, xs[..|xs| - 1]), xs[|xs| - 1])
  }

  lemma {:induction false} RemoveFacts<T>(s: seq<T>, x: T)
    ensures forall y :: y in Remove(s, x) ==> y in s && y != x
    ensures forall y :: y in s && y != x ==> y in Remove(s, x)
    ensures NoDup(s) ==> NoDup(Remove(s, x)) && |Remove(s, x)| == |s| - (if x in s then 1 else 0)
  {
    if s != [] {
      RemoveFacts(s[1..], x);
      assert s == [s[0]] + s[1..];
      if NoDup(s) {
        assert NoDup(s[1..]) && s[0] !in s[1..];
        if s[0] != x {
          PushFacts(Remove(s[1..], x), s[0]);
        }
      }
    }
  }

  lemma {:induction false} RemoveAllFacts<T>(s: seq<T>, xs: seq<T>)
    ensures forall y :: y in RemoveAll(s, xs) ==> y in s && y !in xs
    ensures forall y :: y in s && y !in xs ==> y in RemoveAll(s, xs)
    ensures NoDup(s) ==> NoDup(RemoveAll(s, xs))
  {
    if xs != [] {
      var n := |xs| - 1;
      RemoveAllFacts(s, xs[..n]);
      RemoveFacts(RemoveAll(s, xs[..n]), xs[n]);
      assert xs == xs[..n] + [xs[n]];
    }
  }

  lemma PushFacts<T>(s: seq<T>, x: T)
    requires NoDup(s) && x !in s
    ensures NoDup([x] + s) && NoDup(s + [x])
  {
  }

  /** Removing the first element of a list is dropping its head. */
  lemma RemoveHead<T>(s: seq<T>)
    requires s != [] && NoDup(s)
    ensures Remove(s, s[0]) == s[1..]
  {
    RemoveAbsent(s[1..], s[0]);
  }

  lemma {:induction false} RemoveAbsent<T>(s: seq<T>, x: T)
    requires x !in s
    ensures Remove(s, x) == s
  {
    if s != [] {
      RemoveAbsent(s[1..], x);
      assert s == [s[0]] + s[1..];
    }
  }
}
