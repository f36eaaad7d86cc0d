/**
 * The expense list of `updateUI`: a copy of the records sorted by id,
 * newest first (`sort((a, b) => b.id - a.id)`, a stable sort), cut to the
 * first ten. An empty result is shown as "No expenses recorded yet".
 */
module RecentList {
  import opened Expenses

  const RecentLimit: nat := 10

  predicate IdsDescending(s: seq<Expense>)
  {
    forall i, j :: 0 <= i < j < |s| ==> s[i].id >= s[j].id
  }

  /** No two records share an id. */
  predicate DistinctIds(s: seq<Expense>)
  {
    forall i, j :: 0 <= i < j < |s| ==> s[i].id != s[j].id
  }

  /** Puts `e` in front of the first record whose id is not larger, so that
      among equal ids the earlier record stays first. */
  function Insert(e: Expense, s: seq<Expense>): (r: seq<Expense>)
    ensures |r| == |s| + 1
    ensures multiset(r) == multiset(s) + multiset{e}
  {
    if |s| == 0 || s[0].id <= e.id then [e] + s
    else
      assert s == [s[0]] + s[1..];
      [s[0]] + Insert(e, s[1..])
  }

  /** No record of `s` has an id above `b`. */
  predicate AtMost(s: seq<Expense>, b: int)
  {
    forall i :: 0 <= i < |s| ==> s[i].id <= b
  }

  lemma {:induction false} ConsDescending(x: Expense, s: seq<Expense>)
    requires IdsDescending(s) && AtMost(s, x.id)
    ensures IdsDescending([x] + s)
  {
    var r := [x] + s;
    forall i, j | 0 <= i < j < |r| ensures r[i].id >= r[j].id {
      assert r[j] == s[j - 1];
      if i > 0 {
        assert r[i] == s[i - 1];
      }
    }
  }

  lemma {:induction false} TailDescending(s: seq<Expense>)
    requires |s| > 0 && IdsDescending(s)
    ensures IdsDescending(s[1..]) && AtMost(s[1..], s[0].id)
  {
    var tail := s[1..];
    forall i, j | 0 <= i < j < |tail| ensures tail[i].id >= tail[j].id {
      assert tail[i] == s[i + 1] && tail[j] == s[j + 1];
    }
    forall i | 0 <= i < |tail| ensures tail[i].id <= s[0].id {
      assert tail[i] == s[i + 1];
    }
  }

  lemma {:induction false} InsertAtMost(e: Expense, s: seq<Expense>, b: int)
    requires AtMost(s, b) && e.id <= b
    ensures AtMost(Insert(e, s), b)
  {
    if |s| == 0 || s[0].id <= e.id {
      var r := [e] + s;
      forall i | 0 <= i < |r| ensures r[i].id <= b {
        if i > 0 {
          assert r[i] == s[i - 1];
        }
      }
    } else {
      var tail := s[1..];
      forall i | 0 <= i < |tail| ensures tail[i].id <= b {
        assert tail[i] == s[i + 1];
      }
      InsertAtMost(e, tail, b);
      var rest := Insert(e, tail);
      var r := [s[0]] + rest;
      forall i | 0 <= i < |r| ensures r[i].id <= b {
        if i > 0 {
          assert r[i] == rest[i - 1];
        }
      }
    }
  }

  lemma {:induction false} InsertSorted(e: Expense, s: seq<Expense>)
    requires IdsDescending(s)
    ensures IdsDescending(Insert(e, s))
  {
    if |s| == 0 || s[0].id <= e.id {
      forall i | 0 <= i < |s| ensures s[i].id <= e.id {
        if i > 0 {
          assert s[0].id >= s[i].id;
        }
      }
      ConsDescending(e, s);
    } else {
      TailDescending(s);
      InsertSorted(e, s[1..]);
      InsertAtMost(e, s[1..], s[0].id);
      ConsDescending(s[0], Insert(e, s[1..]));
    }
  }

  /** The records ordered by id, largest first; a stable sort. */
  function SortByIdDesc(es: seq<Expense>): (r: seq<Expense>)
    ensures |r| == |es|
    ensures multiset(r) == multiset(es)
    ensures IdsDescending(r)
  {
    if |es| == 0 then []
    else
      assert es == [es[0]] + es[1..];
      InsertSorted(es[0], SortByIdDesc(es[1..]));
      Insert(es[0], SortByIdDesc(es[1..]))
  }

  /** The records the list shows: the ten with the largest ids. */
  function Recent(es: seq<Expense>): (r: seq<Expense>)
    ensures |r| == if |es| < RecentLimit then |es| else RecentLimit
    ensures IdsDescending(r)
    ensures multiset(r) <= multiset(es)
  {
    var sorted := SortByIdDesc(es);
    var n := if |es| < RecentLimit then |es| else RecentLimit;
    assert sorted == sorted[..n] + sorted[n..];
    sorted[..n]
  }

  lemma {:induction false} WithIdPrepend(x: Expense, t: seq<Expense>, k: int)
    ensures WithId([x] + t, k) == (if x.id == k then [x] else []) + WithId(t, k)
  {
    WithIdAppend([x], t, k);
    assert [x][..0] == [];
  }

  /** Inserting keeps records of equal id in their order. */
  lemma {:induction false} InsertStable(e: Expense, s: seq<Expense>, k: int)
    ensures WithId(Insert(e, s), k) == (if e.id == k then [e] else []) + WithId(s, k)
  {
    if |s| == 0 || s[0].id <= e.id {
      assert Insert(e, s) == [e] + s;
      WithIdPrepend(e, s, k);
    } else {
      InsertStable(e, s[1..], k);
      InsertStableStep(e, s, k);
    }
  }

  /** The step of `InsertStable` past a record with a larger id. */
  lemma {:induction false} InsertStableStep(e: Expense, s: seq<Expense>, k: int)
    requires |s| > 0 && s[0].id > e.id
    requires WithId(Insert(e, s[1..]), k) == (if e.id == k then [e] else []) + WithId(s[1..], k)
    ensures WithId(Insert(e, s), k) == (if e.id == k then [e] else []) + WithId(s, k)
  {
    InsertPast(e, s);
    PrependKeepsOrder(s[0], Insert(e, s[1..]), s[1..], if e.id == k then [e] else [], k);
  }

  /** Inserting past a record with a larger id keeps that record in front. */
  lemma {:induction false} InsertPast(e: Expense, s: seq<Expense>)
    requires |s| > 0 && s[0].id > e.id
    ensures Insert(e, s) == [s[0]] + Insert(e, s[1..])
    ensures s == [s[0]] + s[1..]
  {
  }

  /** Putting the same record in front of two lists whose `k`-records differ by a
      prefix `pre` keeps that difference, provided `pre` is empty whenever the
      record itself carries `k`. */
  lemma {:induction false} PrependKeepsOrder(head: Expense, t: seq<Expense>, u: seq<Expense>,
                                             pre: seq<Expense>, k: int)
    requires WithId(t, k) == pre + WithId(u, k)
    requires head.id == k ==> pre == []
    ensures WithId([head] + t, k) == pre + WithId([head] + u, k)
  {
    WithIdPrepend(head, t, k);
    WithIdPrepend(head, u, k);
    if head.id == k {
      assert pre + WithId(u, k) == WithId(u, k);
    }
  }

  /** The sort is stable: for every id, the records carrying it keep their relative order. */
  lemma {:induction false} SortStable(es: seq<Expense>, k: int)
    ensures WithId(SortByIdDesc(es), k) == WithId(es, k)
  {
    if |es| > 0 {
      var head, tail := es[0], es[1..];
      var sortedTail := SortByIdDesc(tail);
      assert SortByIdDesc(es) == Insert(head, sortedTail);
      SortStable(tail, k);
      InsertStable(head, sortedTail, k);
      assert es == [head] + tail;
      WithIdPrepend(head, tail, k);
    }
  }

  lemma {:induction false} WithIdNone(s: seq<Expense>, k: int)
    requires forall i :: 0 <= i < |s| ==> s[i].id != k
    ensures WithId(s, k) == []
  {
    if |s| > 0 {
      WithIdNone(s[..|s| - 1], k);
    }
  }

  /** In a list sorted newest first, nothing after position `n` is newer than anything before it. */
  lemma {:induction false} SplitOrdered(s: seq<Expense>, n: nat)
    requires IdsDescending(s) && n <= |s|
    ensures forall x, y :: x in s[..n] && y in s[n..] ==> y.id <= x.id
  {
    forall x, y | x in s[..n] && y in s[n..] ensures y.id <= x.id {
      var i :| 0 <= i < n && s[..n][i] == x;
      var j :| 0 <= j < |s| - n && s[n..][j] == y;
      assert s[i] == x;
      assert s[n + j] == y;
    }
  }

  /** Every record the list leaves out is no newer than any record it shows. */
  lemma {:induction false} RecentAreNewest(es: seq<Expense>)
    ensures forall x, y :: x in Recent(es) && y in multiset(es) - multiset(Recent(es)) ==> y.id <= x.id
  {
    var sorted := SortByIdDesc(es);
    var n := |Recent(es)|;
    var r, rest := sorted[..n], sorted[n..];
    assert sorted == r + rest;
    assert multiset(es) - multiset(r) == multiset(rest);
    SplitOrdered(sorted, n);
  }

  lemma {:induction false} TwoWithId(s: seq<Expense>, i: int, j: int)
    requires 0 <= i < j < |s| && s[i].id == s[j].id
    ensures |WithId(s, s[i].id)| >= 2
  {
    var k := s[i].id;
    assert s == s[..j] + s[j..];
    WithIdAppend(s[..j], s[j..], k);
    WithIdMembers(s[..j], k);
    WithIdMembers(s[j..], k);
    assert s[..j][i] == s[i];
    assert s[i] in WithId(s[..j], k);
    assert s[j..][0] == s[j];
    assert s[j] in WithId(s[j..], k);
  }

  lemma {:induction false} DistinctAtMostOne(s: seq<Expense>, k: int)
    requires DistinctIds(s)
    ensures |WithId(s, k)| <= 1
  {
    if |s| > 0 {
      var init, last := s[..|s| - 1], s[|s| - 1];
      assert DistinctIds(init) by {
        forall i, j | 0 <= i < j < |init| ensures init[i].id != init[j].id {
          assert init[i] == s[i] && init[j] == s[j];
        }
      }
      DistinctAtMostOne(init, k);
      if last.id == k {
        assert forall i :: 0 <= i < |init| ==> init[i].id != k by {
          forall i | 0 <= i < |init| ensures init[i].id != k {
            assert init[i] == s[i];
          }
        }
        WithIdNone(init, k);
      }
    }
  }

  /** With distinct ids (the clock never repeats) the list is strictly newest first. */
  lemma {:induction false} RecentStrictlyDescending(es: seq<Expense>)
    requires DistinctIds(es)
    ensures forall i, j :: 0 <= i < j < |Recent(es)| ==> Recent(es)[i].id > Recent(es)[j].id
  {
    var sorted := SortByIdDesc(es);
    var r := Recent(es);
    forall i, j | 0 <= i < j < |r| ensures r[i].id > r[j].id {
      assert r[i] == sorted[i] && r[j] == sorted[j];
      if r[i].id == r[j].id {
        TwoWithId(sorted, i, j);
        SortStable(es, r[i].id);
        DistinctAtMostOne(es, r[i].id);
      }
    }
  }
}
