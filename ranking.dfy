/**
 * The local leaderboard of the target game: a list of entries kept sorted by
 * descending score and cut to the ten best after every save.
 *
 * `saveScore` appends the new entry, sorts with the comparator
 * `b.score - a.score` and keeps the first ten. JavaScript's `Array.prototype.sort`
 * is stable, so entries of equal score keep their order and the newest one goes
 * after the older ones of the same score. `SortDesc` is that stable descending
 * sort, defined by repeated insertion; the lemmas below prove it sorted, a
 * permutation and stable, which together determine it uniquely.
 */
module Ranking {

  /** One leaderboard record as stored: player name, score and the locale date string. */
  datatype Entry = Entry(name: string, score: int, date: string)

  /** How many entries the stored leaderboard keeps. */
  const Capacity: nat := 10

  /** Scores never increase from the front of the list to its back. */
  predicate SortedDesc(s: seq<Entry>) {
    forall i, j :: 0 <= i < j < |s| ==> s[i].score >= s[j].score
  }

  /** Inserts `e` after every entry whose score is at least `e`'s: where a stable
      descending sort puts an element that comes last. */
  function InsertDesc(s: seq<Entry>, e: Entry): seq<Entry> {
    if s == [] then [e]
    else if s[0].score >= e.score then [s[0]] + InsertDesc(s[1..], e)
    else [e] + s
  }

  /** The stable descending sort by score. */
  function SortDesc(s: seq<Entry>): seq<Entry> {
    if s == [] then [] else InsertDesc(SortDesc(s[..|s| - 1]), s[|s| - 1])
  }

  /** Inserting adds exactly the one entry. */
  lemma {:induction false} InsertDescPermutes(s: seq<Entry>, e: Entry)
    ensures |InsertDesc(s, e)| == |s| + 1
    ensures multiset(InsertDesc(s, e)) == multiset(s) + multiset{e}
  {
    if s != [] && s[0].score >= e.score {
      InsertDescPermutes(s[1..], e);
      assert s == [s[0]] + s[1..];
    }
  }

  /** `SortDesc` is a permutation of its input. */
  lemma {:induction false} SortDescPermutes(s: seq<Entry>)
    ensures |SortDesc(s)| == |s|
    ensures multiset(SortDesc(s)) == multiset(s)
  {
    if s != [] {
      SortDescPermutes(s[..|s| - 1]);
      InsertDescPermutes(SortDesc(s[..|s| - 1]), s[|s| - 1]);
      assert s == s[..|s| - 1] + [s[|s| - 1]];
    }
  }

  /** The first `Capacity` entries of `s` (all of them when there are fewer). */
  function Top(s: seq<Entry>): (t: seq<Entry>)
    ensures |t| <= Capacity && t <= s
    ensures |s| <= Capacity ==> t == s
    ensures |s| >= Capacity ==> |t| == Capacity
  {
    s[..if |s| < Capacity then |s| else Capacity]
  }

  /** The entries of `s` whose score is `v`, in their order in `s`. */
  function WithScore(s: seq<Entry>, v: int): seq<Entry> {
    if s == [] then []
    else (if s[0].score == v then [s[0]] else []) + WithScore(s[1..], v)
  }

  /** How many entries of `s` score at least `v`. */
  function CountAtLeast(s: seq<Entry>, v: int): (n: nat)
    ensures n <= |s|
  {
    if s == [] then 0
    else (if s[0].score >= v then 1 else 0) + CountAtLeast(s[1..], v)
  }

  lemma {:induction false} WithScoreAppend(a: seq<Entry>, b: seq<Entry>, v: int)
    ensures WithScore(a + b, v) == WithScore(a, v) + WithScore(b, v)
  {
    if a != [] {
      assert (a + b)[1..] == a[1..] + b;
      WithScoreAppend(a[1..], b, v);
    } else {
      assert a + b == b;
    }
  }

  lemma {:induction false} WithScoreAbsent(s: seq<Entry>, v: int)
    requires forall k :: 0 <= k < |s| ==> s[k].score < v
    ensures WithScore(s, v) == []
  {
    if s != [] {
      WithScoreAbsent(s[1..], v);
    }
  }

  lemma {:induction false} CountAppend(a: seq<Entry>, b: seq<Entry>, v: int)
    ensures CountAtLeast(a + b, v) == CountAtLeast(a, v) + CountAtLeast(b, v)
  {
    if a != [] {
      assert (a + b)[1..] == a[1..] + b;
      CountAppend(a[1..], b, v);
    } else {
      assert a + b == b;
    }
  }

  /** Inserting into a sorted list keeps it sorted. */
  lemma {:induction false} InsertDescSorted(s: seq<Entry>, e: Entry)
    requires SortedDesc(s)
    ensures SortedDesc(InsertDesc(s, e))
  {
    if s != [] && s[0].score >= e.score {
      var rest := InsertDesc(s[1..], e);
      InsertDescSorted(s[1..], e);
      InsertDescPermutes(s[1..], e);
      forall x | x in rest
        ensures s[0].score >= x.score
      {
        assert x in multiset(rest);
        assert x in multiset(s[1..]) || x == e;
      }
      assert forall k :: 0 <= k < |rest| ==> rest[k] in rest;
    }
  }

  /** Inserting into a sorted list puts the new entry after every entry of the
      same score and leaves the order among the others alone. */
  lemma {:induction false} InsertDescStable(s: seq<Entry>, e: Entry, v: int)
    requires SortedDesc(s)
    ensures WithScore(InsertDesc(s, e), v) == WithScore(s, v) + WithScore([e], v)
  {
    if s == [] {
      assert [e] == [] + [e];
    } else if s[0].score >= e.score {
      assert SortedDesc(s[1..]);
      InsertDescStable(s[1..], e, v);
      InsertDescStableStep(s, e, v);
    } else {
      WithScoreAppend([e], s, v);
      if v == e.score {
        WithScoreAbsent(s, v);
      }
    }
  }

  /** The inductive step of `InsertDescStable`, when the new entry goes past the head. */
  lemma {:induction false} InsertDescStableStep(s: seq<Entry>, e: Entry, v: int)
    requires s != [] && s[0].score >= e.score
    requires WithScore(InsertDesc(s[1..], e), v) == WithScore(s[1..], v) + WithScore([e], v)
    ensures WithScore(InsertDesc(s, e), v) == WithScore(s, v) + WithScore([e], v)
  {
    var rest := InsertDesc(s[1..], e);
    calc {
      WithScore(InsertDesc(s, e), v);
      WithScore([s[0]] + rest, v);
      { WithScoreAppend([s[0]], rest, v); }
      WithScore([s[0]], v) + WithScore(rest, v);
      WithScore([s[0]], v) + (WithScore(s[1..], v) + WithScore([e], v));
      { WithScoreAppend([s[0]], s[1..], v); assert [s[0]] + s[1..] == s; }
      WithScore(s, v) + WithScore([e], v);
    }
  }

  /** Insert lands at position `j` when `j` splits the list at the new score. */
  lemma {:induction false} InsertDescAt(s: seq<Entry>, e: Entry, j: nat)
    requires j <= |s|
    requires forall k :: 0 <= k < j ==> s[k].score >= e.score
    requires forall k :: j <= k < |s| ==> s[k].score < e.score
    ensures InsertDesc(s, e) == s[..j] + [e] + s[j..]
  {
    if s == [] {
    } else if j == 0 {
      assert s[0].score < e.score;
    } else {
      InsertDescAt(s[1..], e, j - 1);
      assert s[1..][..j - 1] == s[1..j];
      assert s[1..][j - 1..] == s[j..];
      assert s[..j] == [s[0]] + s[1..j];
    }
  }

  /** In a sorted list, the entries scoring at least `v` make up a prefix. */
  lemma {:induction false} CountSplitsSorted(s: seq<Entry>, v: int)
    requires SortedDesc(s)
    ensures forall k :: 0 <= k < CountAtLeast(s, v) ==> s[k].score >= v
    ensures forall k :: CountAtLeast(s, v) <= k < |s| ==> s[k].score < v
  {
    if s != [] {
      CountSplitsSorted(s[1..], v);
    }
  }

  lemma {:induction false} CountInsert(s: seq<Entry>, e: Entry, v: int)
    ensures CountAtLeast(InsertDesc(s, e), v) == CountAtLeast(s, v) + (if e.score >= v then 1 else 0)
  {
    if s != [] {
      if s[0].score >= e.score {
        CountInsert(s[1..], e, v);
        assert ([s[0]] + InsertDesc(s[1..], e))[1..] == InsertDesc(s[1..], e);
      } else {
        assert ([e] + s)[1..] == s;
      }
    }
  }

  /** `SortDesc` orders by non-increasing score. */
  lemma {:induction false} SortDescSorted(s: seq<Entry>)
    ensures SortedDesc(SortDesc(s))
  {
    if s != [] {
      SortDescSorted(s[..|s| - 1]);
      InsertDescSorted(SortDesc(s[..|s| - 1]), s[|s| - 1]);
    }
  }

  /** `SortDesc` is stable: the entries of any one score keep their input order. */
  lemma {:induction false} SortDescStable(s: seq<Entry>, v: int)
    ensures WithScore(SortDesc(s), v) == WithScore(s, v)
  {
    if s != [] {
      var init, last := s[..|s| - 1], s[|s| - 1];
      SortDescStable(init, v);
      SortDescSorted(init);
      InsertDescStable(SortDesc(init), last, v);
      assert s == init + [last];
      WithScoreAppend(init, [last], v);
    }
  }

  /** Sorting does not change how many entries reach a given score. */
  lemma {:induction false} SortDescCount(s: seq<Entry>, v: int)
    ensures CountAtLeast(SortDesc(s), v) == CountAtLeast(s, v)
  {
    if s != [] {
      var init, last := s[..|s| - 1], s[|s| - 1];
      SortDescCount(init, v);
      CountInsert(SortDesc(init), last, v);
      assert s == init + [last];
      CountAppend(init, [last], v);
    }
  }

  /** Sorting a list with one more entry at its end inserts that entry into the sorted list. */
  lemma SortDescSnoc(s: seq<Entry>, e: Entry)
    ensures SortDesc(s + [e]) == InsertDesc(SortDesc(s), e)
  {
    assert (s + [e])[..|s|] == s;
  }

  /** What a save leaves in storage: at most ten entries, sorted, each one of
      the old entries or the new one, and as many as there were plus one up to ten. */
  lemma SavedBoardShape(stored: seq<Entry>, e: Entry)
    ensures |Top(SortDesc(stored + [e]))| <= Capacity
    ensures |Top(SortDesc(stored + [e]))| == if |stored| < Capacity then |stored| + 1 else Capacity
    ensures SortedDesc(Top(SortDesc(stored + [e])))
    ensures multiset(Top(SortDesc(stored + [e]))) <= multiset(stored) + multiset{e}
  {
    var all := SortDesc(stored + [e]);
    SortDescSorted(stored + [e]);
    SortDescPermutes(stored + [e]);
    var n := if |all| < Capacity then |all| else Capacity;
    assert all == all[..n] + all[n..];
    assert multiset(all) == multiset(all[..n]) + multiset(all[n..]);
  }

  /** Where the new entry ends up. With `p` the number of older entries that
      score at least as much, the new entry is at rank `p` when `p` is below ten;
      otherwise it is dropped and the board is the old board's sorted top ten. */
  lemma NewEntryPlacement(stored: seq<Entry>, e: Entry)
    ensures CountAtLeast(stored, e.score) < Capacity ==>
      CountAtLeast(stored, e.score) < |Top(SortDesc(stored + [e]))| &&
      Top(SortDesc(stored + [e]))[CountAtLeast(stored, e.score)] == e
    ensures CountAtLeast(stored, e.score) >= Capacity ==>
      Top(SortDesc(stored + [e])) == Top(SortDesc(stored))
  {
    var t := SortDesc(stored);
    var p := CountAtLeast(stored, e.score);
    SortDescSnoc(stored, e);
    SortDescSorted(stored);
    SortDescCount(stored, e.score);
    CountSplitsSorted(t, e.score);
    InsertDescAt(t, e, p);
    var r := t[..p] + [e] + t[p..];
    assert r[p] == e;
    if p >= Capacity {
      assert r[..Capacity] == t[..Capacity];
    }
  }

  /** A board that had fewer than ten entries always keeps the new one. */
  lemma NewEntryKeptWhenRoom(stored: seq<Entry>, e: Entry)
    requires |stored| < Capacity
    ensures e in Top(SortDesc(stored + [e]))
  {
    NewEntryPlacement(stored, e);
  }

  /** Sorting one more element of `list` inserts it into the sorted prefix. */
  lemma SortDescPrefixStep(list: seq<Entry>, i: nat)
    requires i < |list|
    ensures SortedDesc(SortDesc(list[..i]))
    ensures SortDesc(list[..i + 1]) == InsertDesc(SortDesc(list[..i]), list[i])
  {
    SortDescSorted(list[..i]);
    assert list[..i + 1][..i] == list[..i];
  }

  /** One pass of the insertion sort: shifts the entry at index `i` left past
      every entry of the sorted prefix `a[..i]` that scores less. */
  method InsertLast(a: array<Entry>, i: nat)
    requires i < a.Length
    requires SortedDesc(a[..i])
    modifies a
    ensures a[..i + 1] == InsertDesc(old(a[..i]), old(a[i]))
    ensures forall k :: i < k < a.Length ==> a[k] == old(a[k])
  {
    ghost var t := a[..i];
    var x := a[i];
    var j := i;
    while j > 0 && a[j - 1].score < x.score
      invariant 0 <= j <= i
      invariant forall k :: 0 <= k < j ==> a[k] == t[k]
      invariant forall k :: j < k <= i ==> a[k] == t[k - 1]
      invariant forall k :: j <= k < i ==> t[k].score < x.score
      invariant forall k :: i < k < a.Length ==> a[k] == old(a[k])
    {
      a[j] := a[j - 1];
      j := j - 1;
    }
    a[j] := x;
    ShiftedIsInsert(a[..], t, x, j);
  }

  /** The array state at the end of an insertion pass spells out `InsertDesc`. */
  lemma ShiftedIsInsert(s: seq<Entry>, t: seq<Entry>, x: Entry, j: nat)
    requires j <= |t| < |s| && SortedDesc(t)
    requires forall k :: 0 <= k < j ==> s[k] == t[k]
    requires s[j] == x
    requires forall k :: j < k <= |t| ==> s[k] == t[k - 1]
    requires j > 0 ==> t[j - 1].score >= x.score
    requires forall k :: j <= k < |t| ==> t[k].score < x.score
    ensures s[..|t| + 1] == InsertDesc(t, x)
  {
    var r := t[..j] + [x] + t[j..];
    assert forall k :: 0 <= k <= |t| ==> s[k] == r[k];
    assert s[..|t| + 1] == r;
    InsertDescAt(t, x, j);
  }

  /**
   * `saveScore`: push the new entry, sort descending in place, keep the first ten.
   * The sort is an in-place insertion sort on an array; any stable sort gives
   * the same result.
   */
  method SaveScore(stored: seq<Entry>, name: string, score: int, date: string) returns (board: seq<Entry>)
    ensures board == Top(SortDesc(stored + [Entry(name, score, date)]))
    ensures |board| <= Capacity && SortedDesc(board)
  {
    var list := stored + [Entry(name, score, date)];
    var a := new Entry[|list|](k requires 0 <= k < |list| => list[k]);
    var i := 0;
    while i < a.Length
      invariant 0 <= i <= a.Length
      invariant a[..i] == SortDesc(list[..i])
      invariant forall k :: i <= k < a.Length ==> a[k] == list[k]
    {
      SortDescPrefixStep(list, i);
      ghost var sorted, next := a[..i], a[i];
      InsertLast(a, i);
      assert a[..i + 1] == InsertDesc(sorted, next);
      i := i + 1;
    }
    assert a[..] == SortDesc(list) by {
      assert a[..] == a[..a.Length];
      assert list[..a.Length] == list;
    }
    board := a[..if a.Length < Capacity then a.Length else Capacity];
    SavedBoardShape(stored, Entry(name, score, date));
  }
}
