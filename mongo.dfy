/** MongoDB's `$pull` update operator on an array field: every element that matches
    the condition is removed, and the others stay in their order. */
module Mongo {

  function Pull<T>(s: seq<T>, matches: T -> bool): (r: seq<T>)
    ensures forall i :: 0 <= i < |r| ==> !matches(r[i])
    ensures forall i :: 0 <= i < |r| ==> r[i] in s
    ensures forall i :: 0 <= i < |s| && !matches(s[i]) ==> s[i] in r
    ensures |r| <= |s|
    decreases |s|
  {
    if s == [] then []
    else if matches(s[0]) then Pull(s[1..], matches)
    else [s[0]] + Pull(s[1..], matches)
  }

  /** Pulling from a concatenation pulls from each part: the kept elements of the first
      part come before the kept elements of the second, so relative order is kept. */
  lemma {:induction false} PullConcat<T>(a: seq<T>, b: seq<T>, matches: T -> bool)
    ensures Pull(a + b, matches) == Pull(a, matches) + Pull(b, matches)
    decreases |a|
  {
    if a == [] {
      assert a + b == b;
    } else {
      PullConcat(a[1..], b, matches);
      assert (a + b)[1..] == a[1..] + b;
    }
  }

  /** When nothing matches, `$pull` leaves the array as it was. */
  lemma {:induction false} PullNothing<T>(s: seq<T>, matches: T -> bool)
    requires forall i :: 0 <= i < |s| ==> !matches(s[i])
    ensures Pull(s, matches) == s
    decreases |s|
  {
    if s != [] {
      PullNothing(s[1..], matches);
    }
  }

  /** Pulling a second time changes nothing, so a repeated `$pull` is harmless. */
  lemma PullIdempotent<T>(s: seq<T>, matches: T -> bool)
    ensures Pull(Pull(s, matches), matches) == Pull(s, matches)
  {
    PullNothing(Pull(s, matches), matches);
  }

  /** Each element that does not match occurs as often afterwards as before; the
      matching ones are gone. */
  lemma {:induction false} PullCount<T>(s: seq<T>, matches: T -> bool, x: T)
    ensures multiset(Pull(s, matches))[x] == if matches(x) then 0 else multiset(s)[x]
    decreases |s|
  {
    if s != [] {
      PullCount(s[1..], matches, x);
      assert s == [s[0]] + s[1..];
    }
  }
}
