/**
 * Sequence operations shared by the model: Python slicing, order-preserving
 * removal, move-to-front, JavaScript `Set` toggling (a JavaScript `Set`
 * iterates in insertion order, so it is modelled as a sequence without
 * duplicates) and first-occurrence de-duplication.
 */
module Seqs {

  predicate NoDuplicates<T(==)>(s: seq<T>) {
    forall i, j :: 0 <= i < j < |s| ==> s[i] != s[j]
  }

  /** Appending an element not yet present keeps a sequence free of duplicates. */
  lemma AppendFresh<T>(s: seq<T>, x: T)
    requires NoDuplicates(s) && x !in s
    ensures NoDuplicates(s + [x])
  {
  }

  /** Prepending an element not yet present keeps a sequence free of duplicates. */
  lemma PrependFresh<T>(x: T, s: seq<T>)
    requires NoDuplicates(s) && x !in s
    ensures NoDuplicates([x] + s)
  {
  }

  /** `a` is `b` with some elements left out, the rest in their original order. */
  predicate IsSubsequence<T(==)>(a: seq<T>, b: seq<T>)
    decreases |b|
  {
    a == [] || (b != [] && if a[0] == b[0] then IsSubsequence(a[1..], b[1..]) else IsSubsequence(a, b[1..]))
  }

  lemma {:induction false} SubsequenceDropFirst<T>(a: seq<T>, b: seq<T>)
    requires a != [] && IsSubsequence(a, b)
    ensures IsSubsequence(a[1..], b)
    decreases |b|, 0
  {
    if a[0] != b[0] {
      SubsequenceDropFirst(a, b[1..]);
      SubsequenceSkip(a[1..], b[0], b[1..]);
      assert [b[0]] + b[1..] == b;
    } else {
      SubsequenceSkip(a[1..], b[0], b[1..]);
      assert [b[0]] + b[1..] == b;
    }
  }

  /** An element added in front of `b` does not spoil `a`'s embedding. */
  lemma {:induction false} SubsequenceSkip<T>(a: seq<T>, x: T, b: seq<T>)
    requires IsSubsequence(a, b)
    ensures IsSubsequence(a, [x] + b)
    decreases |b|, 1
  {
    assert ([x] + b)[1..] == b;
    if a != [] && a[0] == x {
      SubsequenceDropFirst(a, b);
    }
  }

  lemma {:induction false} SubsequenceOfSelf<T>(s: seq<T>)
    ensures IsSubsequence(s, s)
    decreases |s|
  {
    if s != [] {
      SubsequenceOfSelf(s[1..]);
    }
  }

  lemma SubsequenceKeep<T>(a: seq<T>, x: T, b: seq<T>)
    requires IsSubsequence(a, b)
    ensures IsSubsequence([x] + a, [x] + b)
  {
    assert ([x] + a)[1..] == a;
    assert ([x] + b)[1..] == b;
  }

  lemma {:induction false} SubsequenceElements<T>(a: seq<T>, b: seq<T>)
    requires IsSubsequence(a, b)
    ensures forall x :: x in a ==> x in b
    decreases |b|
  {
    if a != [] {
      if a[0] == b[0] {
        SubsequenceElements(a[1..], b[1..]);
        assert forall x :: x in a ==> x == a[0] || x in a[1..];
      } else {
        SubsequenceElements(a, b[1..]);
      }
    }
  }

  /** Every element except `x`, in order: `s.filter((y) => y !== x)`. */
  function RemoveAll<T(==, !new)>(s: seq<T>, x: T): (r: seq<T>)
    ensures forall y :: y in r <==> y in s && y != x
    ensures |r| <= |s| && IsSubsequence(r, s)
    ensures NoDuplicates(s) ==> NoDuplicates(r)
    ensures x !in s ==> r == s
    ensures NoDuplicates(s) && x in s ==> |r| == |s| - 1
  {
    if s == [] then []
    else
      var rest := RemoveAll(s[1..], x);
      assert forall y :: y in s <==> y == s[0] || y in s[1..];
      assert NoDuplicates(s) ==> s[0] !in s[1..] && NoDuplicates(s[1..]);
      if s[0] == x then
        SubsequenceSkip(rest, s[0], s[1..]);
        assert [s[0]] + s[1..] == s;
        rest
      else
        SubsequenceKeep(rest, s[0], s[1..]);
        assert [s[0]] + s[1..] == s;
        [s[0]] + rest
  }

  lemma {:induction false} RemoveAllMultiset<T(!new)>(s: seq<T>, x: T)
    ensures multiset(RemoveAll(s, x)) == multiset(s)[x := 0]
  {
    if s != [] {
      var rest := RemoveAll(s[1..], x);
      RemoveAllMultiset(s[1..], x);
      if s[0] == x {
        assert RemoveAll(s, x) == rest;
        DropHeadCount(s, x);
      } else {
        assert RemoveAll(s, x) == [s[0]] + rest;
        KeepHeadCount(s, x, rest);
      }
    }
  }

  lemma DropHeadCount<T>(s: seq<T>, x: T)
    requires s != [] && s[0] == x
    ensures multiset(s)[x := 0] == multiset(s[1..])[x := 0]
  {
    assert s == [s[0]] + s[1..];
  }

  lemma KeepHeadCount<T>(s: seq<T>, x: T, rest: seq<T>)
    requires s != [] && s[0] != x && multiset(rest) == multiset(s[1..])[x := 0]
    ensures multiset([s[0]] + rest) == multiset(s)[x := 0]
  {
    assert s == [s[0]] + s[1..];
  }

  /** In a sequence without duplicates, an element occurs once. */
  lemma {:induction false} OccursOnce<T>(s: seq<T>, x: T)
    requires NoDuplicates(s) && x in s
    ensures multiset(s)[x] == 1
  {
    assert s == [s[0]] + s[1..];
    if s[0] == x {
      assert x !in s[1..];
    } else {
      assert NoDuplicates(s[1..]);
      OccursOnce(s[1..], x);
    }
  }

  /** `[x, ...s.filter((y) => y !== x)]`: x first, then the others in their old order. */
  function MoveToFront<T(==, !new)>(x: T, s: seq<T>): (r: seq<T>)
    ensures r != [] && r[0] == x && r[1..] == RemoveAll(s, x)
    ensures forall y :: y in r <==> y == x || y in s
    ensures NoDuplicates(s) ==> NoDuplicates(r)
  {
    var r := [x] + RemoveAll(s, x);
    assert r[1..] == RemoveAll(s, x);
    r
  }

  /** x occurs exactly once after it is moved to the front. */
  lemma MoveToFrontOnce<T(!new)>(x: T, s: seq<T>)
    ensures multiset(MoveToFront(x, s))[x] == 1
  {
    RemoveAllMultiset(s, x);
  }

  /** Moving an element of a duplicate-free sequence to the front permutes it. */
  lemma MoveToFrontPermutes<T(!new)>(x: T, s: seq<T>)
    requires x in s && NoDuplicates(s)
    ensures multiset(MoveToFront(x, s)) == multiset(s)
  {
    RemoveAllMultiset(s, x);
    OccursOnce(s, x);
    assert multiset(MoveToFront(x, s)) == multiset{x} + multiset(s)[x := 0];
  }

  /** Moving the same element to the front twice is the same as once. */
  lemma MoveToFrontIdempotent<T(!new)>(x: T, s: seq<T>)
    ensures MoveToFront(x, MoveToFront(x, s)) == MoveToFront(x, s)
  {
    var r := MoveToFront(x, s);
    assert r == [x] + r[1..];
    assert RemoveAll(r, x) == RemoveAll(r[1..], x);
  }

  /**
   * `new Set(prev)` followed by `delete(x)` when x is present, `add(x)`
   * (at the end of the iteration order) when it is not.
   */
  function Toggle<T(==, !new)>(s: seq<T>, x: T): (r: seq<T>)
    ensures x in r <==> x !in s
    ensures forall y :: y != x ==> (y in r <==> y in s)
    ensures NoDuplicates(s) ==> NoDuplicates(r) && |r| == if x in s then |s| - 1 else |s| + 1
  {
    if x in s then RemoveAll(s, x) else s + [x]
  }

  /** Toggling twice restores the members; it restores the order too unless x was present. */
  lemma ToggleTwice<T(!new)>(s: seq<T>, x: T)
    requires NoDuplicates(s)
    ensures forall y :: y in Toggle(Toggle(s, x), x) <==> y in s
    ensures x !in s ==> Toggle(Toggle(s, x), x) == s
  {
    if x !in s {
      RemoveAllAppended(s, x);
    }
  }

  lemma {:induction false} RemoveAllAppended<T(!new)>(s: seq<T>, x: T)
    requires x !in s
    ensures RemoveAll(s + [x], x) == s
  {
    if s != [] {
      assert (s + [x])[1..] == s[1..] + [x];
      RemoveAllAppended(s[1..], x);
    } else {
      assert [] + [x] == [x];
    }
  }

  /** The first occurrence of every element, in the order of first occurrence. */
  function Distinct<T(==, !new)>(s: seq<T>): (r: seq<T>)
    ensures NoDuplicates(r)
    ensures forall y :: y in r <==> y in s
  {
    if s == [] then []
    else
      var front := Distinct(s[..|s| - 1]);
      assert forall y :: y in s <==> y in s[..|s| - 1] || y == s[|s| - 1];
      if s[|s| - 1] in front then front else front + [s[|s| - 1]]
  }

  /** Appending one element to a sequence appends it to its first occurrences unless it already occurred. */
  lemma DistinctSnoc<T(!new)>(s: seq<T>, x: T)
    ensures Distinct(s + [x]) == if x in Distinct(s) then Distinct(s) else Distinct(s) + [x]
  {
    assert (s + [x])[..|s + [x]| - 1] == s;
  }

  function Min(a: int, b: int): (m: int)
    ensures m <= a && m <= b && (m == a || m == b)
  {
    if a <= b then a else b
  }

  function Max(a: int, b: int): (m: int)
    ensures m >= a && m >= b && (m == a || m == b)
  {
    if a <= b then b else a
  }

  /** Python's index normalisation for slices: negative counts from the end, then clamp. */
  function SliceIndex(i: int, n: nat): (k: nat)
    ensures k <= n
    ensures 0 <= i <= n ==> k == i
    ensures i > n ==> k == n
  {
    if i < 0 then (if i + n < 0 then 0 else i + n) else if i > n then n else i
  }

  /** Python `s[i:j]`: never fails, empty when the bounds cross. */
  function Slice<T>(s: seq<T>, i: int, j: int): (r: seq<T>)
    ensures 0 <= i <= j <= |s| ==> r == s[i..j]
    ensures 0 <= i <= j ==> r == s[Min(i, |s|)..Min(j, |s|)]
    ensures 0 <= i && |s| <= i ==> r == []
    ensures |r| <= |s|
  {
    var a, b := SliceIndex(i, |s|), SliceIndex(j, |s|);
    if a <= b then s[a..b] else []
  }

  /** A negative bound counts from the end of the sequence, stopping at its start. */
  lemma SliceNegative<T>(s: seq<T>, i: int, j: int)
    ensures i < 0 ==> Slice(s, i, j) == Slice(s, Max(i + |s|, 0), j)
    ensures j < 0 ==> Slice(s, i, j) == Slice(s, i, Max(j + |s|, 0))
  {
  }
}
