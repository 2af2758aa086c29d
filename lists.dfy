/** The array operations the handlers are built from, generic in the element
    type: `map` that edits one index, `filter` by index or by value, the
    present/absent toggle, `[...new Set(xs)]`, and the two `splice` calls
    of a drag-and-drop move. */
module Lists {

  predicate NoDups<T(==)>(s: seq<T>)
  {
    forall i, j | 0 <= i < j < |s| :: s[i] != s[j]
  }

  /** Two duplicate-free lists with no value in common concatenate to a
      duplicate-free list. */
  lemma NoDupsConcat<T>(a: seq<T>, b: seq<T>)
    requires NoDups(a) && NoDups(b)
    requires forall i, j | 0 <= i < |a| && 0 <= j < |b| :: a[i] != b[j]
    ensures NoDups(a + b)
  {
    forall i, j | 0 <= i < j < |a + b| ensures (a + b)[i] != (a + b)[j] {
      if j < |a| {
        assert (a + b)[i] == a[i] && (a + b)[j] == a[j];
      } else if i < |a| {
        assert (a + b)[i] == a[i] && (a + b)[j] == b[j - |a|];
      } else {
        assert (a + b)[i] == b[i - |a|] && (a + b)[j] == b[j - |a|];
      }
    }
  }

  /** `a` is `b`'s first elements. */
  predicate IsPrefix<T(==)>(a: seq<T>, b: seq<T>)
  {
    |a| <= |b| && b[..|a|] == a
  }

  /** `s` with its elements read left to right keeps only some of them. */
  predicate IsSubsequence<T(==)>(r: seq<T>, s: seq<T>)
  {
    if |r| == 0 then true
    else if |s| == 0 then false
    else if r[0] == s[0] then IsSubsequence(r[1..], s[1..])
    else IsSubsequence(r, s[1..])
  }

  // ---------------------------------------------------------------------
  // Index-based edits
  // ---------------------------------------------------------------------

  /** `s.map((item, j) => j === i ? f(item) : item)` */
  function UpdateAt<T>(s: seq<T>, i: int, f: T -> T): (r: seq<T>)
    ensures |r| == |s|
    ensures forall j | 0 <= j < |s| && j != i :: r[j] == s[j]
    ensures 0 <= i < |s| ==> r[i] == f(s[i])
    ensures !(0 <= i < |s|) ==> r == s
  {
    seq(|s|, j requires 0 <= j < |s| => if j == i then f(s[j]) else s[j])
  }

  /** `s.filter((_, j) => j !== i)` */
  function RemoveAt<T>(s: seq<T>, i: int): (r: seq<T>)
    ensures 0 <= i < |s| ==> |r| == |s| - 1 && r[..i] == s[..i] && r[i..] == s[i + 1..]
    ensures !(0 <= i < |s|) ==> r == s
  {
    if 0 <= i < |s| then s[..i] + s[i + 1..] else s
  }

  /** Removing one entry takes exactly one copy of it out of the multiset. */
  lemma RemoveAtMultiset<T>(s: seq<T>, i: int)
    requires 0 <= i < |s|
    ensures multiset(RemoveAt(s, i)) + multiset{s[i]} == multiset(s)
  {
    assert s == s[..i] + [s[i]] + s[i + 1..];
  }

  /** `s.splice(i, 0, x)` for an index within the array. */
  function Insert<T>(s: seq<T>, i: nat, x: T): (r: seq<T>)
    requires i <= |s|
    ensures |r| == |s| + 1 && r[i] == x
    ensures r[..i] == s[..i] && r[i + 1..] == s[i..]
  {
    s[..i] + [x] + s[i..]
  }

  /** `const [m] = s.splice(from, 1); s.splice(to, 0, m)`: the entry at
      `from` is taken out and put back in front of what is then at `to`. */
  function Move<T>(s: seq<T>, from: nat, to: nat): (r: seq<T>)
    requires from < |s| && to < |s|
  {
    Insert(RemoveAt(s, from), to, s[from])
  }

  /** A move keeps the length and the multiset of entries, puts the moved
      entry at index `to`, and leaves every other entry in its order. */
  lemma MoveProperties<T>(s: seq<T>, from: nat, to: nat)
    requires from < |s| && to < |s|
    ensures |Move(s, from, to)| == |s|
    ensures multiset(Move(s, from, to)) == multiset(s)
    ensures Move(s, from, to)[to] == s[from]
    ensures RemoveAt(Move(s, from, to), to) == RemoveAt(s, from)
  {
    var t := RemoveAt(s, from);
    var r := Move(s, from, to);
    RemoveAtMultiset(s, from);
    assert r == t[..to] + [s[from]] + t[to..];
    assert t == t[..to] + t[to..];
    assert r[..to] + r[to + 1..] == t;
  }

  /** Moving an entry onto its own index changes nothing. */
  lemma MoveSame<T>(s: seq<T>, i: nat)
    requires i < |s|
    ensures Move(s, i, i) == s
  {
    assert s == s[..i] + [s[i]] + s[i + 1..];
  }

  // ---------------------------------------------------------------------
  // Value-based edits
  // ---------------------------------------------------------------------

  /** `s.filter(t => t !== x)` */
  function RemoveAll<T(==,!new)>(s: seq<T>, x: T): (r: seq<T>)
    ensures |r| <= |s|
    ensures x !in r
    ensures forall y | y != x :: (y in r <==> y in s)
    ensures x !in s ==> r == s
  {
    if |s| == 0 then []
    else if s[0] == x then RemoveAll(s[1..], x)
    else [s[0]] + RemoveAll(s[1..], x)
  }

  /** Filtering keeps every other entry, each as often as before, in its
      order. */
  lemma {:induction false} RemoveAllKeeps<T(!new)>(s: seq<T>, x: T)
    ensures IsSubsequence(RemoveAll(s, x), s)
    ensures forall y | y != x :: multiset(RemoveAll(s, x))[y] == multiset(s)[y]
    ensures multiset(RemoveAll(s, x))[x] == 0
  {
    if |s| > 0 {
      RemoveAllKeeps(s[1..], x);
      assert s == [s[0]] + s[1..];
      if s[0] != x {
        assert RemoveAll(s, x)[1..] == RemoveAll(s[1..], x);
      } else {
        SubsequenceSkip(RemoveAll(s[1..], x), s[1..], s[0]);
      }
    }
  }

  /** A subsequence of `s` is one of `[x] + s` too. */
  lemma {:induction false} SubsequenceSkip<T(!new)>(r: seq<T>, s: seq<T>, x: T)
    requires IsSubsequence(r, s)
    ensures IsSubsequence(r, [x] + s)
    decreases |s|, 1
  {
    assert ([x] + s)[1..] == s;
    if |r| > 0 && r[0] == x {
      SubsequenceTail(r, s);
    }
  }

  /** Dropping the first entry of a subsequence keeps it one. */
  lemma {:induction false} SubsequenceTail<T(!new)>(r: seq<T>, s: seq<T>)
    requires |r| > 0 && IsSubsequence(r, s)
    ensures IsSubsequence(r[1..], s)
    decreases |s|, 0
  {
    assert s == [s[0]] + s[1..];
    if r[0] == s[0] {
      SubsequenceSkip(r[1..], s[1..], s[0]);
    } else {
      SubsequenceTail(r, s[1..]);
      SubsequenceSkip(r[1..], s[1..], s[0]);
    }
  }

  /** `s.includes(x) ? s.filter(t => t !== x) : [...s, x]` */
  function Toggle<T(==,!new)>(s: seq<T>, x: T): (r: seq<T>)
    ensures x in r <==> x !in s
    ensures forall y | y != x :: (y in r <==> y in s)
    ensures x !in s ==> r == s + [x]
  {
    if x in s then RemoveAll(s, x) else s + [x]
  }

  /** Toggling keeps a list free of duplicates. */
  lemma {:induction false} ToggleNoDups<T(!new)>(s: seq<T>, x: T)
    requires NoDups(s)
    ensures NoDups(Toggle(s, x))
  {
    if x in s {
      RemoveAllNoDups(s, x);
    }
  }

  lemma {:induction false} RemoveAllNoDups<T(!new)>(s: seq<T>, x: T)
    requires NoDups(s)
    ensures NoDups(RemoveAll(s, x))
  {
    if |s| > 0 {
      assert NoDups(s[1..]) by {
        forall i, j | 0 <= i < j < |s[1..]| ensures s[1..][i] != s[1..][j] {
          assert s[1..][i] == s[i + 1] && s[1..][j] == s[j + 1];
        }
      }
      RemoveAllNoDups(s[1..], x);
      if s[0] != x {
        var t := RemoveAll(s[1..], x);
        assert s[0] !in s[1..] by {
          forall k | 0 <= k < |s[1..]| ensures s[1..][k] != s[0] {
            assert s[1..][k] == s[k + 1];
          }
        }
        assert s[0] !in t;
        forall i, j | 0 <= i < j < |[s[0]] + t| ensures ([s[0]] + t)[i] != ([s[0]] + t)[j] {
          if i == 0 {
            assert ([s[0]] + t)[j] == t[j - 1];
          } else {
            assert ([s[0]] + t)[i] == t[i - 1] && ([s[0]] + t)[j] == t[j - 1];
          }
        }
      }
    }
  }

  /** Toggling the same value twice gives back the same members, though a
      value that was removed and added again now comes last. */
  lemma ToggleTwice<T(!new)>(s: seq<T>, x: T)
    ensures forall y :: y in Toggle(Toggle(s, x), x) <==> y in s
    ensures x in s && NoDups(s) ==> Toggle(Toggle(s, x), x) == RemoveAll(s, x) + [x]
  {
  }

  // ---------------------------------------------------------------------
  // Sets
  // ---------------------------------------------------------------------

  /** `[...new Set(s)]`: each value once, at the place of its first
      occurrence. */
  function Dedupe<T(==,!new)>(s: seq<T>): (r: seq<T>)
    ensures NoDups(r)
    ensures forall y :: y in r <==> y in s
  {
    var r := DedupeAfter([], s);
    assert [] + r == r;
    r
  }

  /** The values of `s` not in `seen`, each once, in first-occurrence order,
      after the prefix `seen`. */
  function DedupeAfter<T(==,!new)>(seen: seq<T>, s: seq<T>): (r: seq<T>)
    requires NoDups(seen)
    ensures NoDups(seen + r)
    ensures forall y :: y in r <==> (y in s && y !in seen)
    decreases |s|
  {
    if |s| == 0 then []
    else if s[0] in seen then DedupeAfter(seen, s[1..])
    else
      NoDupsSnoc(seen, s[0]);
      var rest := DedupeAfter(seen + [s[0]], s[1..]);
      assert seen + [s[0]] + rest == seen + ([s[0]] + rest);
      [s[0]] + rest
  }

  lemma NoDupsSnoc<T(!new)>(s: seq<T>, x: T)
    requires NoDups(s) && x !in s
    ensures NoDups(s + [x])
  {
  }

  /** On a list that already has no duplicates, deduplication is the
      identity, so merging into a list keeps its existing entries first
      and in their order. */
  lemma {:induction false} DedupeOfDistinct<T(!new)>(s: seq<T>, more: seq<T>)
    requires NoDups(s)
    ensures Dedupe(s + more) == s + DedupeAfter(s, more)
  {
    DedupeAfterPrefix([], s, more);
    assert [] + s == s;
  }

  lemma {:induction false} DedupeAfterPrefix<T(!new)>(seen: seq<T>, s: seq<T>, more: seq<T>)
    requires NoDups(seen + s)
    ensures NoDups(seen)
    ensures DedupeAfter(seen, s + more) == s + DedupeAfter(seen + s, more)
    decreases |s|
  {
    assert NoDups(seen) by {
      forall i, j | 0 <= i < j < |seen| ensures seen[i] != seen[j] {
        assert (seen + s)[i] == seen[i] && (seen + s)[j] == seen[j];
      }
    }
    if |s| == 0 {
      assert s + more == more;
      assert seen + s == seen;
    } else {
      assert s[0] !in seen by {
        forall k | 0 <= k < |seen| ensures seen[k] != s[0] {
          assert (seen + s)[k] == seen[k] && (seen + s)[|seen|] == s[0];
        }
      }
      assert (s + more)[0] == s[0];
      assert (s + more)[1..] == s[1..] + more;
      assert seen + [s[0]] + s[1..] == seen + s;
      DedupeAfterPrefix(seen + [s[0]], s[1..], more);
      assert seen + [s[0]] + s[1..] == seen + s;
    }
  }

  /** Merging a list into itself adds nothing. */
  lemma DedupeIdempotentUnion<T(!new)>(s: seq<T>)
    requires NoDups(s)
    ensures Dedupe(s + s) == s
  {
    DedupeOfDistinct(s, s);
    DedupeAfterSeen(s, s);
  }

  lemma {:induction false} DedupeAfterSeen<T(!new)>(seen: seq<T>, s: seq<T>)
    requires NoDups(seen)
    requires forall y | y in s :: y in seen
    ensures DedupeAfter(seen, s) == []
    decreases |s|
  {
    if |s| > 0 {
      DedupeAfterSeen(seen, s[1..]);
    }
  }
}
