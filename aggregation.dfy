/**
 * The per-category aggregation `byCat`, built by one loop over the records
 * and used both by the savings suggestions and by the bar chart. A plain
 * object's keys keep insertion order, so the categories come out in the
 * order they are first seen.
 */
module Aggregation {
  import opened Expenses

  predicate Distinct(s: seq<string>)
  {
    forall i, j :: 0 <= i < j < |s| ==> s[i] != s[j]
  }

  /** Some record of `es` is filed under `c`. */
  predicate HasCategory(es: seq<Expense>, c: string)
  {
    exists i :: 0 <= i < |es| && es[i].category == c
  }

  /** The distinct categories of `es` in first-seen order: the key order of `byCat`. */
  function Categories(es: seq<Expense>): (r: seq<string>)
    ensures Distinct(r)
    ensures forall c :: c in r <==> HasCategory(es, c)
  {
    if |es| == 0 then []
    else
      var init, c := es[..|es| - 1], es[|es| - 1].category;
      var p := Categories(init);
      assert forall d :: HasCategory(es, d) <==> HasCategory(init, d) || d == c by {
        forall d | HasCategory(es, d) && d != c ensures HasCategory(init, d) {
          var i :| 0 <= i < |es| && es[i].category == d;
          assert init[i] == es[i];
        }
        forall d | HasCategory(init, d) ensures HasCategory(es, d) {
          var i :| 0 <= i < |init| && init[i].category == d;
          assert es[i] == init[i];
        }
      }
      if c in p then p else p + [c]
  }

  /** The sum of the amounts of the records filed under `c` (a left fold, as the loop runs). */
  function CategoryTotal(es: seq<Expense>, c: string): real
  {
    if |es| == 0 then 0.0
    else CategoryTotal(es[..|es| - 1], c) + (if es[|es| - 1].category == c then es[|es| - 1].amount else 0.0)
  }

  lemma {:induction false} CategoryTotalAppend(es: seq<Expense>, e: Expense, c: string)
    ensures CategoryTotal(es + [e], c) == CategoryTotal(es, c) + (if e.category == c then e.amount else 0.0)
  {
    assert (es + [e])[..|es|] == es;
  }

  /** A category no record carries totals zero. */
  lemma {:induction false} CategoryTotalAbsent(es: seq<Expense>, c: string)
    requires !HasCategory(es, c)
    ensures CategoryTotal(es, c) == 0.0
  {
    if |es| > 0 {
      var init := es[..|es| - 1];
      assert forall i :: 0 <= i < |init| ==> init[i] == es[i];
      CategoryTotalAbsent(init, c);
    }
  }

  /** With positive amounts each present category has a positive total. */
  lemma {:induction false} CategoryTotalPositive(es: seq<Expense>, c: string)
    requires AllPositive(es)
    requires HasCategory(es, c)
    ensures CategoryTotal(es, c) > 0.0
  {
    var init, last := es[..|es| - 1], es[|es| - 1];
    assert AllPositive(init) by {
      forall i | 0 <= i < |init| ensures init[i].amount > 0.0 {
        assert init[i] == es[i];
      }
    }
    assert forall i :: 0 <= i < |init| ==> init[i] == es[i];
    if HasCategory(init, c) {
      CategoryTotalPositive(init, c);
    } else {
      CategoryTotalAbsent(init, c);
    }
  }

  /**
   * The `for (const e of expenses)` loop that fills `byCat`. `cats` is the key
   * order of the resulting object: each category is appended the first time it
   * is seen. Each key maps to the total of its records, and no other key exists.
   */
  method TotalsByCategory(es: seq<Expense>) returns (cats: seq<string>, byCat: map<string, real>)
    ensures cats == Categories(es)
    ensures forall c :: c in byCat <==> HasCategory(es, c)
    ensures forall c :: c in byCat ==> byCat[c] == CategoryTotal(es, c)
  {
    cats, byCat := [], map[];
    var i := 0;
    while i < |es|
      invariant 0 <= i <= |es|
      invariant cats == Categories(es[..i])
      invariant forall c :: c in byCat <==> c in cats
      invariant forall c :: c in byCat ==> byCat[c] == CategoryTotal(es[..i], c)
    {
      var e := es[i];
      ghost var done, cats0, byCat0 := es[..i], cats, byCat;
      if e.category !in byCat {
        cats := cats + [e.category];
      }
      byCat := byCat[e.category := (if e.category in byCat then byCat[e.category] else 0.0) + e.amount];
      AggregateStep(done, e, cats0, byCat0, cats, byCat);
      PrefixStep(es, i);
      i := i + 1;
    }
    assert es[..i] == es;
  }

  lemma {:induction false} PrefixStep(es: seq<Expense>, i: nat)
    requires i < |es|
    ensures es[..i + 1] == es[..i] + [es[i]]
  {
  }

  /** A record appended to the book adds its category at the end of the key order,
      unless the category is already a key. */
  lemma {:induction false} CategoriesAppend(es: seq<Expense>, e: Expense)
    ensures Categories(es + [e]) ==
      if e.category in Categories(es) then Categories(es) else Categories(es) + [e.category]
  {
    assert (es + [e])[..|es|] == es;
  }

  /** One pass of the loop: adding record `e` to the aggregate of `done` gives the
      aggregate of `done + [e]`. */
  lemma {:induction false} AggregateStep(done: seq<Expense>, e: Expense, cats: seq<string>, byCat: map<string, real>,
                                         cats': seq<string>, byCat': map<string, real>)
    requires cats == Categories(done)
    requires forall c :: c in byCat <==> c in cats
    requires forall c :: c in byCat ==> byCat[c] == CategoryTotal(done, c)
    requires cats' == if e.category in byCat then cats else cats + [e.category]
    requires byCat' == byCat[e.category := (if e.category in byCat then byCat[e.category] else 0.0) + e.amount]
    ensures cats' == Categories(done + [e])
    ensures forall c :: c in byCat' <==> c in cats'
    ensures forall c :: c in byCat' ==> byCat'[c] == CategoryTotal(done + [e], c)
  {
    CategoriesAppend(done, e);
    forall c | c in byCat' ensures byCat'[c] == CategoryTotal(done + [e], c) {
      CategoryTotalAppend(done, e, c);
      if c !in byCat {
        CategoryTotalAbsent(done, c);
      }
    }
  }

  /** `Object.values(byCat)`: the totals in key order. */
  function Values(cats: seq<string>, byCat: map<string, real>): (r: seq<real>)
    requires forall c :: c in cats ==> c in byCat
    ensures |r| == |cats|
    ensures forall i :: 0 <= i < |cats| ==> r[i] == byCat[cats[i]]
  {
    seq(|cats|, i requires 0 <= i < |cats| => byCat[cats[i]])
  }

  function Sum(s: seq<real>): real
  {
    if |s| == 0 then 0.0 else Sum(s[..|s| - 1]) + s[|s| - 1]
  }

  /** The category totals of `es`, in key order. */
  function CategoryAmounts(es: seq<Expense>): (r: seq<real>)
    ensures |r| == |Categories(es)|
    ensures forall i :: 0 <= i < |r| ==> r[i] == CategoryTotal(es, Categories(es)[i])
  {
    var cats := Categories(es);
    seq(|cats|, i requires 0 <= i < |cats| => CategoryTotal(es, cats[i]))
  }

  /** The sum of the totals of the categories in `p`. */
  function SumOver(p: seq<string>, es: seq<Expense>): real
  {
    if |p| == 0 then 0.0 else SumOver(p[..|p| - 1], es) + CategoryTotal(es, p[|p| - 1])
  }

  lemma {:induction false} SumOverAppendRecord(p: seq<string>, es: seq<Expense>, e: Expense)
    requires Distinct(p)
    ensures SumOver(p, es + [e]) == SumOver(p, es) + (if e.category in p then e.amount else 0.0)
  {
    if |p| > 0 {
      var init, c := p[..|p| - 1], p[|p| - 1];
      assert p == init + [c];
      assert Distinct(init);
      assert c !in init;
      SumOverAppendRecord(init, es, e);
      CategoryTotalAppend(es, e, c);
    }
  }

  /** The totals of all categories add up to the grand total `reduce` computes. */
  lemma {:induction false} TotalsAddUp(es: seq<Expense>)
    ensures SumOver(Categories(es), es) == Total(es)
    ensures Sum(CategoryAmounts(es)) == Total(es)
  {
    if |es| > 0 {
      var init, last := es[..|es| - 1], es[|es| - 1];
      assert es == init + [last];
      var p := Categories(init);
      TotalsAddUp(init);
      SumOverAppendRecord(p, init, last);
      if last.category !in p {
        CategoryTotalAbsent(init, last.category);
        CategoryTotalAppend(init, last, last.category);
        assert (p + [last.category])[..|p|] == p;
      }
    }
    var a, p := CategoryAmounts(es), Categories(es);
    SumOfAmounts(es, |p|);
    assert a[..|p|] == a;
    assert p[..|p|] == p;
  }

  lemma {:induction false} SumOfAmounts(es: seq<Expense>, n: nat)
    requires n <= |Categories(es)|
    ensures Sum(CategoryAmounts(es)[..n]) == SumOver(Categories(es)[..n], es)
  {
    var a, p := CategoryAmounts(es), Categories(es);
    if n > 0 {
      SumOfAmounts(es, n - 1);
      assert a[..n][..n - 1] == a[..n - 1];
      assert p[..n][..n - 1] == p[..n - 1];
    }
  }

  /** `Object.values(byCat).reduce(+)` over the map the loop builds is the grand total. */
  lemma {:induction false} ValuesAddUp(es: seq<Expense>, byCat: map<string, real>)
    requires forall c :: c in byCat <==> HasCategory(es, c)
    requires forall c :: c in byCat ==> byCat[c] == CategoryTotal(es, c)
    ensures Sum(Values(Categories(es), byCat)) == Total(es)
  {
    assert Values(Categories(es), byCat) == CategoryAmounts(es);
    TotalsAddUp(es);
  }
}
