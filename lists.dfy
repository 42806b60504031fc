/**
 * The two array primitives the subscriber registries are built from:
 * `Array.prototype.indexOf` (strict-equality search) and `splice(index, 1)`.
 */
module Lists {

  /** `s.indexOf(x)`: the first index holding `x`, or -1 when there is none. */
  function IndexOf<T(==)>(s: seq<T>, x: T): (i: int)
    ensures -1 <= i < |s|
    ensures i == -1 <==> x !in s
    ensures 0 <= i ==> s[i] == x && x !in s[..i]
  {
    if |s| == 0 then -1
    else if s[0] == x then 0
    else
      var j := IndexOf(s[1..], x);
      assert s[1..][..if j < 0 then 0 else j] == s[1..if j < 0 then 1 else j + 1];
      if j == -1 then -1 else j + 1
  }

  /** `s.splice(i, 1)`: `s` without the element at position `i`. */
  function RemoveAt<T>(s: seq<T>, i: nat): (r: seq<T>)
    requires i < |s|
    ensures |r| == |s| - 1
    ensures forall k :: 0 <= k < i ==> r[k] == s[k]
    ensures forall k :: i <= k < |r| ==> r[k] == s[k + 1]
  {
    s[..i] + s[i + 1..]
  }

  /**
   * What `detach` / `unsubscribe` do to the list: look `x` up with `indexOf`
   * and, when found, splice that one position out.
   */
  function RemoveFirst<T(==)>(s: seq<T>, x: T): (r: seq<T>)
    ensures x !in s ==> r == s
    ensures x in s ==> |r| == |s| - 1
  {
    var i := IndexOf(s, x);
    if i == -1 then s else RemoveAt(s, i)
  }

  /** Exactly one copy of `x` goes, when there is one; every other element keeps its count. */
  lemma RemoveFirstCount<T>(s: seq<T>, x: T)
    ensures multiset(RemoveFirst(s, x)) == multiset(s) - multiset{x}
  {
    var i := IndexOf(s, x);
    if i != -1 {
      assert s == s[..i] + [s[i]] + s[i + 1..];
    }
  }

  /**
   * Only the FIRST occurrence goes: whatever stands before it (where `x` does
   * not occur) and whatever follows it (including later copies of `x`) stays,
   * in the same order.
   */
  lemma RemoveFirstOccurrence<T>(p: seq<T>, x: T, q: seq<T>)
    requires x !in p
    ensures RemoveFirst(p + [x] + q, x) == p + q
  {
    var s := p + [x] + q;
    var i := IndexOf(s, x);
    assert s[|p|] == x;
    assert i == |p|;
    assert s[..i] == p;
    assert s[i + 1..] == q;
  }

  /** Adding an absent element at the end and then removing it gives the list back. */
  lemma AppendThenRemove<T>(s: seq<T>, x: T)
    requires x !in s
    ensures RemoveFirst(s + [x], x) == s
  {
    RemoveFirstOccurrence(s, x, []);
    assert s + [x] + [] == s + [x];
    assert s + [] == s;
  }

  /**
   * Removing an element that occurs at most once makes it absent, so a second
   * removal is a no-op.
   */
  lemma RemoveTwice<T>(s: seq<T>, x: T)
    requires multiset(s)[x] <= 1
    ensures x !in RemoveFirst(s, x)
    ensures RemoveFirst(RemoveFirst(s, x), x) == RemoveFirst(s, x)
  {
    RemoveFirstCount(s, x);
    var r := RemoveFirst(s, x);
    assert multiset(r)[x] == 0;
  }
}
