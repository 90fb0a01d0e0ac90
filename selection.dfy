/** The list of dataset keys selected in the front-end's dropdown.

    Picking a key that is not selected appends it; picking a selected key
    removes it (Python's `list.remove`, which drops the first occurrence).
 */
module Selection {

  /** No key occurs twice. */
  ghost predicate NoDuplicates<T>(s: seq<T>)
  {
    forall i, j :: 0 <= i < j < |s| ==> s[i] != s[j]
  }

  /** `s.remove(x)` on a list: drop the first occurrence of `x`.  Python
      raises `ValueError` when `x` is absent; the model returns the list
      unchanged instead, a case the selection toggle never reaches. */
  function RemoveFirst<T(==)>(s: seq<T>, x: T): (r: seq<T>)
    ensures x !in s ==> r == s
    ensures x in s ==> |r| == |s| - 1
  {
    if s == [] then []
    else if s[0] == x then s[1..]
    else [s[0]] + RemoveFirst(s[1..], x)
  }

  /** Removal takes exactly one occurrence of `x` out of the multiset of keys. */
  lemma {:induction false} RemoveFirstMultiset<T>(s: seq<T>, x: T)
    ensures multiset(RemoveFirst(s, x)) == multiset(s) - multiset{x}
  {
    if s != [] {
      assert s == [s[0]] + s[1..];
      if s[0] != x {
        RemoveFirstMultiset(s[1..], x);
      }
    }
  }

  /** Index of the first occurrence of `x` in `s`. */
  function FirstIndex<T(==)>(s: seq<T>, x: T): (i: nat)
    requires x in s
    ensures i < |s| && s[i] == x && x !in s[..i]
  {
    if s[0] == x then 0
    else
      assert s[1..][..FirstIndex(s[1..], x)] == s[1..FirstIndex(s[1..], x) + 1];
      1 + FirstIndex(s[1..], x)
  }

  /** Removing keeps the other keys in their order: the result is the list
      with exactly the first occurrence of `x` cut out. */
  lemma {:induction false} RemoveFirstCutsFirstOccurrence<T>(s: seq<T>, x: T)
    requires x in s
    ensures var i := FirstIndex(s, x); RemoveFirst(s, x) == s[..i] + s[i + 1..]
  {
    if s[0] != x {
      RemoveFirstCutsFirstOccurrence(s[1..], x);
      var j := FirstIndex(s[1..], x);
      assert [s[0]] + (s[1..][..j] + s[1..][j + 1..]) == s[..j + 1] + s[j + 2..];
    }
  }

  /** What selecting `x` does to the list. */
  function Toggle<T(==)>(s: seq<T>, x: T): seq<T>
  {
    if x !in s then s + [x] else RemoveFirst(s, x)
  }

  /** A duplicate-free list holds each key at most once. */
  lemma {:induction false} NoDuplicatesCountsOnce<T>(s: seq<T>, x: T)
    requires NoDuplicates(s)
    ensures multiset(s)[x] <= 1
  {
    if s != [] {
      NoDuplicatesCountsOnce(s[1..], x);
      assert s == [s[0]] + s[1..];
      assert s[0] == x ==> x !in s[1..];
    }
  }

  /** After selecting `x`, `x` is selected iff it was not before, and every
      other key is selected iff it was before. */
  lemma ToggleMembership<T>(s: seq<T>, x: T, y: T)
    requires NoDuplicates(s)
    ensures y in Toggle(s, x) <==> (if y == x then x !in s else y in s)
  {
    if x in s {
      NoDuplicatesCountsOnce(s, x);
      RemoveFirstMultiset(s, x);
      var r := RemoveFirst(s, x);
      assert multiset(r)[x] == 0;
      assert y in r <==> multiset(r)[y] > 0;
      assert y in s <==> multiset(s)[y] > 0;
    }
  }

  /** Removing from a duplicate-free list leaves it duplicate-free. */
  lemma {:induction false} RemoveFirstKeepsNoDuplicates<T>(s: seq<T>, x: T)
    requires NoDuplicates(s)
    ensures NoDuplicates(RemoveFirst(s, x))
  {
    if s != [] && s[0] != x {
      RemoveFirstKeepsNoDuplicates(s[1..], x);
      var r := RemoveFirst(s[1..], x);
      RemoveFirstMultiset(s[1..], x);
      assert s[0] !in s[1..];
      assert multiset(r) <= multiset(s[1..]);
      assert s[0] !in r by {
        assert multiset(s[1..])[s[0]] == 0;
      }
    }
  }

  /** Selecting keeps the list duplicate-free. */
  lemma ToggleKeepsNoDuplicates<T>(s: seq<T>, x: T)
    requires NoDuplicates(s)
    ensures NoDuplicates(Toggle(s, x))
  {
    if x in s {
      RemoveFirstKeepsNoDuplicates(s, x);
    }
  }

  /** Selecting a key that is not selected and then selecting it again
      restores the original list. */
  lemma {:induction false} ToggleTwiceRestores<T>(s: seq<T>, x: T)
    requires x !in s
    ensures Toggle(Toggle(s, x), x) == s
  {
    RemoveFirstAfter(s, x);
  }

  /** Removing a key from the end of a list that held it nowhere else. */
  lemma {:induction false} RemoveFirstAfter<T>(s: seq<T>, x: T)
    requires x !in s
    ensures RemoveFirst(s + [x], x) == s
  {
    if s != [] {
      RemoveFirstAfter(s[1..], x);
      assert (s + [x])[1..] == s[1..] + [x];
    }
  }
}
