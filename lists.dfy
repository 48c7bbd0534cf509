/** Removal by identity from the shared object lists. Every `die` of the
    game scans its owning list with `for i in range(len(list))`, compares each
    element with `self` (object identity: no class defines equality) and
    deletes the first match. */
module Lists {

  /** Position of the first occurrence of `x` in `s`. */
  function IndexOf<T(==)>(s: seq<T>, x: T): (i: nat)
    requires x in s
    ensures i < |s| && s[i] == x && x !in s[..i]
    decreases |s|
  {
    if s[0] == x then 0
    else
      var j := IndexOf(s[1..], x);
      assert s[..j + 1] == [s[0]] + s[1..][..j];
      j + 1
  }

  /** `s` with its first occurrence of `x` deleted; `s` itself when `x` is
      absent. */
  function RemoveFirst<T(==)>(s: seq<T>, x: T): (r: seq<T>)
    ensures x !in s ==> r == s
    ensures |r| == if x in s then |s| - 1 else |s|
    ensures forall y :: y in r ==> y in s
    decreases |s|
  {
    if s == [] then []
    else if s[0] == x then s[1..]
    else
      assert s == [s[0]] + s[1..];
      [s[0]] + RemoveFirst(s[1..], x)
  }

  /** Removal cuts out exactly the element at the first occurrence. */
  lemma {:induction false} RemoveFirstSplit<T>(s: seq<T>, x: T)
    requires x in s
    ensures var i := IndexOf(s, x); RemoveFirst(s, x) == s[..i] + s[i + 1..]
    decreases |s|
  {
    if s[0] != x {
      RemoveFirstSplit(s[1..], x);
      var j := IndexOf(s[1..], x);
      assert s[..j + 1] == [s[0]] + s[1..][..j];
      assert s[j + 2..] == s[1..][j + 1..];
    }
  }

  /** Removal takes away exactly one occurrence of `x`, if there is one,
      and leaves every other element's count alone. */
  lemma {:induction false} RemoveFirstCounts<T>(s: seq<T>, x: T)
    ensures multiset(RemoveFirst(s, x)) == multiset(s) - multiset{x}
    ensures forall y :: y in s && y != x ==> y in RemoveFirst(s, x)
    decreases |s|
  {
    if s != [] {
      assert s == [s[0]] + s[1..];
      if s[0] != x {
        RemoveFirstCounts(s[1..], x);
      }
    }
  }

  /** The deletion loop of `die`: find the first element identical to `x`,
      delete it and stop. */
  method RemoveFirstIn<T(==)>(s: seq<T>, x: T) returns (r: seq<T>)
    ensures r == RemoveFirst(s, x)
  {
    r := s;
    var i := 0;
    while i < |s|
      invariant 0 <= i <= |s|
      invariant x !in s[..i]
    {
      if s[i] == x {
        r := s[..i] + s[i + 1..];
        assert IndexOf(s, x) == i by {
          var k := IndexOf(s, x);
          assert forall j :: 0 <= j < i ==> s[..i][j] == s[j];
          assert forall j :: 0 <= j < k ==> s[..k][j] == s[j];
        }
        RemoveFirstSplit(s, x);
        return;
      }
      assert s[..i + 1] == s[..i] + [s[i]];
      i := i + 1;
    }
    assert s[..i] == s;
  }

  /** Removal keeps every other element, in its original order: the
      elements before the deleted one stay in place and the ones after it
      shift down by one. */
  lemma RemoveFirstOrder<T>(s: seq<T>, x: T, j: nat)
    requires x in s && j < |s| - 1
    ensures var k := IndexOf(s, x);
      RemoveFirst(s, x)[j] == if j < k then s[j] else s[j + 1]
  {
    RemoveFirstSplit(s, x);
  }

  /** Number of occurrences of `x` in `s`. */
  function Count<T(==)>(s: seq<T>, x: T): nat {
    multiset(s)[x]
  }

  /** `die` called `n` times on the same list. */
  function RemoveTimes<T(==)>(s: seq<T>, x: T, n: nat): seq<T>
    decreases n
  {
    if n == 0 then s else RemoveFirst(RemoveTimes(s, x, n - 1), x)
  }

  /** Dying is idempotent: for an object listed at most once, any positive
      number of `die` calls has the effect of the first, which shrinks the
      list by exactly one when the object was listed. */
  lemma {:induction false} RemoveTimesIdempotent<T>(s: seq<T>, x: T, n: nat)
    requires Count(s, x) <= 1 && n >= 1
    ensures RemoveTimes(s, x, n) == RemoveFirst(s, x)
    ensures |RemoveTimes(s, x, n)| == if x in s then |s| - 1 else |s|
    decreases n
  {
    if n > 1 {
      RemoveTimesIdempotent(s, x, n - 1);
      var r := RemoveFirst(s, x);
      assert x !in r by {
        RemoveFirstCounts(s, x);
        assert multiset(r)[x] == 0;
      }
    }
  }

  /** Two `die` calls on an object listed once shrink the list by exactly
      one. */
  lemma DieTwice<T>(s: seq<T>, x: T)
    requires Count(s, x) == 1
    ensures |RemoveFirst(RemoveFirst(s, x), x)| == |s| - 1
  {
    RemoveTimesIdempotent(s, x, 2);
  }
}
