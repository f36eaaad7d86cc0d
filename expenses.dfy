/**
 * Expense records of the SmartPocket book and the plain data rules that
 * act on a single record or on the whole list: amount validation, the
 * stored note (trimmed text or a default derived from the category),
 * deletion by id, and the running total.
 */
module Expenses {

  /** One logged expense. `id` and `date` are supplied by the caller
      (the application uses the clock for both). */
  datatype Expense = Expense(id: int, category: string, amount: real, note: string, date: string)

  /** What `parseFloat` hands back for a text field: a number or NaN. */
  datatype ParsedNumber = NaN | Number(value: real)

  /** The guard `!v || v <= 0` negated: NaN, zero and negative values are rejected. */
  predicate IsPositive(v: ParsedNumber)
  {
    v.Number? && v.value > 0.0
  }

  // ---------------------------------------------------------------------
  // Running total: `expenses.reduce((s, e) => s + e.amount, 0)`, a left fold.
  // ---------------------------------------------------------------------

  function Total(es: seq<Expense>): real
  {
    if |es| == 0 then 0.0 else Total(es[..|es| - 1]) + es[|es| - 1].amount
  }

  /** Every amount is strictly positive (what validation guarantees for
      records created by `addExpense`). */
  predicate AllPositive(es: seq<Expense>)
  {
    forall i :: 0 <= i < |es| ==> es[i].amount > 0.0
  }

  lemma {:induction false} TotalAppend(es: seq<Expense>, e: Expense)
    ensures Total(es + [e]) == Total(es) + e.amount
  {
    assert (es + [e])[..|es|] == es;
  }

  lemma {:induction false} TotalOfPositive(es: seq<Expense>)
    requires AllPositive(es)
    ensures Total(es) >= 0.0
    ensures |es| > 0 ==> Total(es) > 0.0
  {
    if |es| > 0 {
      TotalOfPositive(es[..|es| - 1]);
    }
  }

  // ---------------------------------------------------------------------
  // Deletion: `expenses.filter(e => e.id !== id)`.
  // ---------------------------------------------------------------------

  /** The records whose id differs from `id`, in their original order. */
  function WithoutId(es: seq<Expense>, id: int): (r: seq<Expense>)
    ensures |r| <= |es|
  {
    if |es| == 0 then []
    else WithoutId(es[..|es| - 1], id) + (if es[|es| - 1].id != id then [es[|es| - 1]] else [])
  }

  /** The records carrying id `id`, in their original order: what a deletion removes. */
  function WithId(es: seq<Expense>, id: int): (r: seq<Expense>)
    ensures |r| <= |es|
  {
    if |es| == 0 then []
    else WithId(es[..|es| - 1], id) + (if es[|es| - 1].id == id then [es[|es| - 1]] else [])
  }

  /** A deletion keeps exactly the records with another id. */
  lemma {:induction false} WithoutIdMembers(es: seq<Expense>, id: int)
    ensures forall e :: e in WithoutId(es, id) <==> e in es && e.id != id
  {
    if |es| > 0 {
      var init := es[..|es| - 1];
      WithoutIdMembers(init, id);
      assert es == init + [es[|es| - 1]];
    }
  }

  /** A deletion removes exactly the records with the given id. */
  lemma {:induction false} WithIdMembers(es: seq<Expense>, id: int)
    ensures forall e :: e in WithId(es, id) <==> e in es && e.id == id
  {
    if |es| > 0 {
      var init := es[..|es| - 1];
      WithIdMembers(init, id);
      assert es == init + [es[|es| - 1]];
    }
  }

  /** Filtering distributes over concatenation: survivors keep their relative order. */
  lemma {:induction false} WithoutIdAppend(a: seq<Expense>, b: seq<Expense>, id: int)
    ensures WithoutId(a + b, id) == WithoutId(a, id) + WithoutId(b, id)
  {
    if |b| == 0 {
      assert a + b == a;
    } else {
      var b' := b[..|b| - 1];
      assert (a + b)[..|a + b| - 1] == a + b';
      WithoutIdAppend(a, b', id);
    }
  }

  lemma {:induction false} WithIdAppend(a: seq<Expense>, b: seq<Expense>, id: int)
    ensures WithId(a + b, id) == WithId(a, id) + WithId(b, id)
  {
    if |b| == 0 {
      assert a + b == a;
    } else {
      var b' := b[..|b| - 1];
      assert (a + b)[..|a + b| - 1] == a + b';
      WithIdAppend(a, b', id);
    }
  }

  /** A deletion splits the book in two: what stays and what goes, nothing lost or invented. */
  lemma {:induction false} DeletePartition(es: seq<Expense>, id: int)
    ensures multiset(WithoutId(es, id)) + multiset(WithId(es, id)) == multiset(es)
  {
    if |es| > 0 {
      var init, last := es[..|es| - 1], es[|es| - 1];
      assert es == init + [last];
      DeletePartition(init, id);
      assert multiset(es) == multiset(init) + multiset{last};
      if last.id == id {
        assert WithId(es, id) == WithId(init, id) + [last];
        assert WithoutId(es, id) == WithoutId(init, id);
      } else {
        assert WithoutId(es, id) == WithoutId(init, id) + [last];
        assert WithId(es, id) == WithId(init, id);
      }
    }
  }

  /** The amount deleted plus the amount kept is the old total. */
  lemma {:induction false} DeleteTotal(es: seq<Expense>, id: int)
    ensures Total(WithoutId(es, id)) + Total(WithId(es, id)) == Total(es)
  {
    if |es| > 0 {
      var init, last := es[..|es| - 1], es[|es| - 1];
      DeleteTotal(init, id);
      assert Total(es) == Total(init) + last.amount;
      var kept, gone := WithoutId(init, id), WithId(init, id);
      if last.id == id {
        assert WithId(es, id) == gone + [last];
        assert WithoutId(es, id) == kept + [];
        assert kept + [] == kept;
        TotalAppend(gone, last);
      } else {
        assert WithoutId(es, id) == kept + [last];
        assert WithId(es, id) == gone + [];
        assert gone + [] == gone;
        TotalAppend(kept, last);
      }
    }
  }

  /** Deleting an id that no record carries changes nothing. */
  lemma {:induction false} DeleteAbsent(es: seq<Expense>, id: int)
    requires forall i :: 0 <= i < |es| ==> es[i].id != id
    ensures WithoutId(es, id) == es
  {
    if |es| > 0 {
      DeleteAbsent(es[..|es| - 1], id);
      assert es[..|es| - 1] + [es[|es| - 1]] == es;
    }
  }

  /** Deleting the same id twice is the same as deleting it once. */
  lemma {:induction false} DeleteIdempotent(es: seq<Expense>, id: int)
    ensures WithoutId(WithoutId(es, id), id) == WithoutId(es, id)
  {
    var r := WithoutId(es, id);
    WithoutIdMembers(es, id);
    forall i | 0 <= i < |r| ensures r[i].id != id {
      assert r[i] in r;
    }
    DeleteAbsent(r, id);
  }

  // ---------------------------------------------------------------------
  // Note text: `String.prototype.trim` and the default note.
  // ---------------------------------------------------------------------

  /** The characters `trim` removes: ECMAScript WhiteSpace and LineTerminator. */
  predicate IsSpace(c: char)
  {
    c == ' ' || c == '\t' || c == '\n' || c == '\r' || c == '\U{000B}' || c == '\U{000C}'
    || c == '\U{00A0}' || c == '\U{1680}' || ('\U{2000}' <= c <= '\U{200A}')
    || c == '\U{2028}' || c == '\U{2029}' || c == '\U{202F}' || c == '\U{205F}'
    || c == '\U{3000}' || c == '\U{FEFF}'
  }

  /** Position `i` of `s` holds white space. */
  predicate SpaceAt(s: string, i: int)
    requires 0 <= i < |s|
  {
    IsSpace(s[i])
  }

  /** Every character of `s` is white space. */
  predicate AllSpace(s: string)
  {
    forall i :: 0 <= i < |s| ==> SpaceAt(s, i)
  }

  /** The first position at or after `i` that is not white space (`|s|` if none). */
  function TextStart(s: string, i: nat): (n: nat)
    requires i <= |s|
    ensures i <= n <= |s|
    ensures forall k :: i <= k < n ==> SpaceAt(s, k)
    ensures n < |s| ==> !IsSpace(s[n])
    decreases |s| - i
  {
    if i < |s| && IsSpace(s[i]) then
      assert SpaceAt(s, i);
      TextStart(s, i + 1)
    else i
  }

  /** Walking back from `j`, not below `lo`: the end of the last non-space character. */
  function TextEnd(s: string, lo: nat, j: nat): (n: nat)
    requires lo <= j <= |s|
    ensures lo <= n <= j
    ensures forall k :: n <= k < j ==> SpaceAt(s, k)
    ensures n > lo ==> !IsSpace(s[n - 1])
  {
    if j > lo && IsSpace(s[j - 1]) then
      assert SpaceAt(s, j - 1);
      TextEnd(s, lo, j - 1)
    else j
  }

  /** How many white-space characters `trim` removes at the front. */
  function LeadingSpace(s: string): (n: nat)
    ensures n <= |s|
    ensures forall k :: 0 <= k < n ==> SpaceAt(s, k)
    ensures n < |s| ==> !IsSpace(s[n])
  {
    TextStart(s, 0)
  }

  /** `s.trim()`: the piece of `s` left once the white space at both ends is
      removed; empty exactly when `s` is white space only. */
  function Trim(s: string): (r: string)
    ensures |r| <= |s| - LeadingSpace(s)
    ensures r == s[LeadingSpace(s)..LeadingSpace(s) + |r|]
    ensures forall k :: 0 <= k < LeadingSpace(s) ==> SpaceAt(s, k)
    ensures forall k :: LeadingSpace(s) + |r| <= k < |s| ==> SpaceAt(s, k)
    ensures r == [] <==> AllSpace(s)
    ensures r != [] ==> !IsSpace(r[0]) && !IsSpace(r[|r| - 1])
  {
    var i := LeadingSpace(s);
    var j := TextEnd(s, i, |s|);
    assert i < |s| ==> !SpaceAt(s, i);
    s[i..j]
  }

  /** Trimming a trimmed note changes nothing. */
  lemma {:induction false} TrimIdempotent(s: string)
    ensures Trim(Trim(s)) == Trim(s)
  {
    var r := Trim(s);
    if r != [] {
      assert LeadingSpace(r) == 0;
      assert TextEnd(r, 0, |r|) == |r|;
      assert r[0..|r|] == r;
    }
  }

  /** `toUpperCase` on one character, for the ASCII letters. */
  function UpperChar(c: char): (u: char)
    ensures 'a' <= c <= 'z' ==> 'A' <= u <= 'Z' && u as int - c as int == 'A' as int - 'a' as int
    ensures !('a' <= c <= 'z') ==> u == c
  {
    if 'a' <= c <= 'z' then (c as int - 32) as char else c
  }

  /** `category[0].toUpperCase() + category.slice(1)`; `category[0]` of an empty
      string is undefined and the call throws, hence the precondition. */
  function Capitalize(category: string): (r: string)
    requires |category| > 0
    ensures |r| == |category|
    ensures r[0] == UpperChar(category[0]) && r[1..] == category[1..]
  {
    [UpperChar(category[0])] + category[1..]
  }

  const ExpenseSuffix: string := " expense"

  /** The note stored when the trimmed note is empty. */
  function DefaultNote(category: string): (r: string)
    requires |category| > 0
    ensures |r| == |category| + |ExpenseSuffix|
    ensures r[..|category|] == Capitalize(category) && r[|category|..] == ExpenseSuffix
  {
    Capitalize(category) + ExpenseSuffix
  }

  /** True when building the default note would throw: the trimmed note is
      empty and so is the category. */
  predicate NoteThrows(category: string, note: string)
  {
    Trim(note) == [] && category == []
  }

  /** `note || defaultNote`: the trimmed note when it is non-empty, otherwise the default. */
  function StoredNote(category: string, note: string): (r: string)
    requires !NoteThrows(category, note)
    ensures !AllSpace(note) ==> r == Trim(note)
    ensures AllSpace(note) ==> r == DefaultNote(category)
    ensures r != []
  {
    var t := Trim(note);
    if t != [] then t else DefaultNote(category)
  }
}
