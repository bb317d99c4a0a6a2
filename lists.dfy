/**
 The list operations that the notification hub relies on: appending a
 handle and removing the first element equal to a handle, as the .NET
 `List<T>.Add` and `List<T>.Remove` do. `Remove` is `IndexOf` followed by
 `RemoveAt`, so it is modelled the same way here: `FirstIndex` finds the
 position, and `RemoveFirst` cuts it out when there is one.
 */
module Lists {

  /** Position of the first element equal to `x`, or `|s|` when there is none
      (`IndexOf` answers -1 in that case). */
  function FirstIndex<T(==)>(s: seq<T>, x: T): (i: nat)
    ensures i <= |s|
    ensures i < |s| <==> x in s
    ensures i < |s| ==> s[i] == x
    ensures forall j :: 0 <= j < i ==> s[j] != x
  {
    if s == [] then 0
    else if s[0] == x then 0
    else 1 + FirstIndex(s[1..], x)
  }

  /** `List<T>.Remove`: drop the first element equal to `x`; leave the list
      as it is when `x` does not occur. */
  function RemoveFirst<T(==)>(s: seq<T>, x: T): (r: seq<T>)
    ensures x !in s ==> r == s
    ensures x in s ==> |r| == |s| - 1
  {
    var i := FirstIndex(s, x);
    if i < |s| then
      s[..i] + s[i + 1..]
    else
      s
  }

  /** Removing takes out exactly one copy of `x` when there is one, and no
      copy of anything else: a handle registered k times is registered
      k - 1 times afterwards. */
  lemma {:induction false} RemoveFirstCounts<T>(s: seq<T>, x: T)
    ensures multiset(RemoveFirst(s, x)) == multiset(s) - multiset{x}
  {
    var i := FirstIndex(s, x);
    if i < |s| {
      assert RemoveFirst(s, x) == s[..i] + s[i + 1..];
      MultisetOfCut(s, i);
    } else {
      assert RemoveFirst(s, x) == s;
      assert multiset(s)[x] == 0;
    }
  }

  /** Cutting one position out of a sequence takes one copy of its element
      out of the multiset. */
  lemma {:induction false} MultisetOfCut<T>(s: seq<T>, i: nat)
    requires i < |s|
    ensures multiset(s[..i] + s[i + 1..]) == multiset(s) - multiset{s[i]}
  {
    assert s == s[..i] + [s[i]] + s[i + 1..];
  }

  /** An independent, element-by-element definition of removing the first
      occurrence: keep elements until the first `x`, drop it, keep the rest. */
  function RemoveFirstRef<T(==)>(s: seq<T>, x: T): seq<T>
  {
    if s == [] then []
    else if s[0] == x then s[1..]
    else [s[0]] + RemoveFirstRef(s[1..], x)
  }

  /** All elements of `s` that differ from `x`, in their order in `s`. */
  function Without<T(==)>(s: seq<T>, x: T): seq<T>
  {
    if s == [] then []
    else if s[0] == x then Without(s[1..], x)
    else [s[0]] + Without(s[1..], x)
  }

  /** `RemoveFirst` agrees with the element-by-element definition. */
  lemma {:induction false} RemoveFirstMatchesRef<T>(s: seq<T>, x: T)
    ensures RemoveFirst(s, x) == RemoveFirstRef(s, x)
  {
    if s == [] {
    } else if s[0] == x {
      FirstIndexIs(s, x, 0);
    } else {
      RemoveFirstMatchesRef(s[1..], x);
      RemoveFirstSkipsHead(s, x);
    }
  }

  /** A head different from `x` is kept in front of what is removed from the tail. */
  lemma {:induction false} RemoveFirstSkipsHead<T>(s: seq<T>, x: T)
    requires s != [] && s[0] != x
    ensures RemoveFirst(s, x) == [s[0]] + RemoveFirst(s[1..], x)
  {
    var t := s[1..];
    var j := FirstIndex(t, x);
    FirstIndexIs(s, x, 1 + j);
    if j < |t| {
      CutBehindHead(s, j);
    }
  }

  /** Cutting position `j + 1` out of `s` is keeping the head and cutting
      position `j` out of the tail. */
  lemma {:induction false} CutBehindHead<T>(s: seq<T>, j: nat)
    requires j + 1 < |s|
    ensures s[..j + 1] + s[j + 2..] == [s[0]] + (s[1..][..j] + s[1..][j + 1..])
  {
    assert s[..j + 1] == [s[0]] + s[1..][..j];
    assert s[j + 2..] == s[1..][j + 1..];
  }

  /** The first index is determined by the two facts that define it. */
  lemma {:induction false} FirstIndexIs<T>(s: seq<T>, x: T, i: nat)
    requires i <= |s|
    requires i < |s| ==> s[i] == x
    requires forall j :: 0 <= j < i ==> s[j] != x
    ensures FirstIndex(s, x) == i
  {
  }

  /** Removing the first `x` keeps every other element, in its relative order:
      with all copies of `x` filtered out, the list before and after is the same. */
  lemma {:induction false} RemoveFirstKeepsOthers<T>(s: seq<T>, x: T)
    ensures Without(RemoveFirst(s, x), x) == Without(s, x)
  {
    RemoveFirstMatchesRef(s, x);
    RemoveFirstRefKeepsOthers(s, x);
  }

  lemma {:induction false} RemoveFirstRefKeepsOthers<T>(s: seq<T>, x: T)
    ensures Without(RemoveFirstRef(s, x), x) == Without(s, x)
  {
    if s != [] && s[0] != x {
      RemoveFirstRefKeepsOthers(s[1..], x);
      var t := RemoveFirstRef(s[1..], x);
      assert ([s[0]] + t)[0] == s[0];
      assert ([s[0]] + t)[1..] == t;
    }
  }

  /** Removing the first `x` from a list that holds `x` at least once is the
      list with one element taken out of the prefix-before-`x`/rest split:
      everything before the first `x` stays at its position, everything after
      it moves up by one. */
  lemma {:induction false} RemoveFirstPositions<T>(s: seq<T>, x: T)
    requires x in s
    ensures var i := FirstIndex(s, x);
      && (forall j :: 0 <= j < i ==> RemoveFirst(s, x)[j] == s[j])
      && (forall j :: i <= j < |s| - 1 ==> RemoveFirst(s, x)[j] == s[j + 1])
  {
  }

  /** Appending a handle that is not yet present and removing it again gives
      back the original list. */
  lemma {:induction false} RemoveFirstAfterAppend<T>(s: seq<T>, x: T)
    requires x !in s
    ensures RemoveFirst(s + [x], x) == s
  {
    assert FirstIndex(s + [x], x) == |s|;
    assert (s + [x])[..|s|] == s;
  }

  /** When `x` already occurs, appending another copy and removing one takes
      out the earlier copy, and the newly appended one stays at the end. */
  lemma {:induction false} RemoveFirstAfterAppendPresent<T>(s: seq<T>, x: T)
    requires x in s
    ensures RemoveFirst(s + [x], x) == RemoveFirst(s, x) + [x]
  {
    var i := FirstIndex(s, x);
    FirstIndexIs(s + [x], x, i);
    assert (s + [x])[..i] == s[..i];
    assert (s + [x])[i + 1..] == s[i + 1..] + [x];
  }
}
