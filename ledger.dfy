/**
 * Expense records and the two list primitives every figure of the tracker is
 * built from: `filter` by a predicate and `reduce` to a sum of a per-record
 * weight. Amounts are integer pence.
 */
module Ledger {
  import opened Wrappers
  import opened Calendar

  /**
   * A record as the store returns it. `reimbursementAmount` may be missing on
   * a fetched record; every sum reads it as `reimbursementAmount || 0`.
   * `isReimbursement` is carried but no figure reads it.
   */
  datatype Expense = Expense(
    id: string,
    description: string,
    amount: int,
    category: string,
    date: Date,
    isReimbursement: bool,
    reimbursementAmount: Option<int>)

  // The category list of the tracker, in its display order.
  const Groceries: string := "Groceries"
  const Dining: string := "Dining"
  const SmallShop: string := "Small Shop"
  const CarFuel: string := "Car - Fuel"
  const CarMaintenance: string := "Car - Maintenance"
  const FuelReimbursement: string := "Fuel Reimbursement"

  const Categories: seq<string> := [Groceries, Dining, SmallShop, CarFuel, CarMaintenance, FuelReimbursement]
  const GroceryGroup: seq<string> := [Groceries, Dining, SmallShop]
  const CarGroup: seq<string> := [CarFuel, CarMaintenance]

  predicate Distinct<K(==)>(s: seq<K>)
  {
    forall i, j :: 0 <= i < j < |s| ==> s[i] != s[j]
  }

  // Per-record weights that the sums add up, and record keys.

  const Amount: Expense -> int := (e: Expense) => e.amount

  /** `expense.reimbursementAmount || 0`. */
  const Reimbursement: Expense -> int := (e: Expense) => e.reimbursementAmount.GetOr(0)

  const CategoryOf: Expense -> string := (e: Expense) => e.category

  const IdOf: Expense -> string := (e: Expense) => e.id

  // Predicates that the filters select by.

  function KeyIs<K(==)>(key: Expense -> K, k: K): Expense -> bool
  {
    e => key(e) == k
  }

  function KeyIn<K(==)>(key: Expense -> K, ks: seq<K>): Expense -> bool
  {
    e => key(e) in ks
  }

  function Not(p: Expense -> bool): Expense -> bool
  {
    e => !p(e)
  }

  /** `expense.category === c`. */
  function HasCategory(c: string): Expense -> bool
  {
    KeyIs(CategoryOf, c)
  }

  /** `expense.category === c1 || expense.category === c2 || ...`. */
  function InGroup(cs: seq<string>): Expense -> bool
  {
    KeyIn(CategoryOf, cs)
  }

  /** `expenses.reduce((sum, expense) => sum + w(expense), 0)`, a left fold. */
  function Sum(xs: seq<Expense>, w: Expense -> int): int
  {
    if xs == [] then 0 else Sum(xs[..|xs| - 1], w) + w(xs[|xs| - 1])
  }

  /** `expenses.filter(p)`: the records that satisfy `p`, in their original order. */
  function Filter(xs: seq<Expense>, p: Expense -> bool): (r: seq<Expense>)
    ensures |r| <= |xs|
  {
    if xs == [] then []
    else
      assert xs == xs[..|xs| - 1] + [xs[|xs| - 1]];
      Filter(xs[..|xs| - 1], p) + (if p(xs[|xs| - 1]) then [xs[|xs| - 1]] else [])
  }

  /** `filter` keeps exactly the records that satisfy the predicate. */
  lemma {:induction false} FilterMembers(xs: seq<Expense>, p: Expense -> bool)
    ensures forall e :: e in Filter(xs, p) <==> e in xs && p(e)
    decreases |xs|
  {
    if xs != [] {
      var init := xs[..|xs| - 1];
      assert xs == init + [xs[|xs| - 1]];
      FilterMembers(init, p);
    }
  }

  /** The sum over the keys `ks` of the records carrying each key. */
  function SumAcross<K(==)>(xs: seq<Expense>, key: Expense -> K, ks: seq<K>, w: Expense -> int): int
  {
    if ks == [] then 0 else Sum(Filter(xs, KeyIs(key, ks[0])), w) + SumAcross(xs, key, ks[1..], w)
  }

  lemma SumSnoc(xs: seq<Expense>, e: Expense, w: Expense -> int)
    ensures Sum(xs + [e], w) == Sum(xs, w) + w(e)
  {
    assert (xs + [e])[..|xs|] == xs;
  }

  lemma FilterSnoc(xs: seq<Expense>, e: Expense, p: Expense -> bool)
    ensures Filter(xs + [e], p) == Filter(xs, p) + (if p(e) then [e] else [])
  {
    assert (xs + [e])[..|xs|] == xs;
  }

  /** Adding one more record to the list adds its weight to the sum of a filter exactly when it passes. */
  lemma SumFilterSnoc(xs: seq<Expense>, e: Expense, p: Expense -> bool, w: Expense -> int)
    ensures Sum(Filter(xs + [e], p), w) == Sum(Filter(xs, p), w) + (if p(e) then w(e) else 0)
  {
    FilterSnoc(xs, e, p);
    if p(e) {
      SumSnoc(Filter(xs, p), e, w);
    } else {
      assert Filter(xs + [e], p) == Filter(xs, p);
    }
  }

  /** Putting a record in front of the list adds its weight to the sum. */
  lemma SumCons(e: Expense, xs: seq<Expense>, w: Expense -> int)
    ensures Sum([e] + xs, w) == w(e) + Sum(xs, w)
  {
    SumConcat([e], xs, w);
    SumSnoc([], e, w);
    assert [] + [e] == [e];
  }

  /** Putting a record in front of the list adds its weight to the sum of a filter exactly when it passes. */
  lemma SumFilterCons(e: Expense, xs: seq<Expense>, p: Expense -> bool, w: Expense -> int)
    ensures Sum(Filter([e] + xs, p), w) == (if p(e) then w(e) else 0) + Sum(Filter(xs, p), w)
  {
    FilterConcat([e], xs, p);
    FilterSnoc([], e, p);
    assert [] + [e] == [e];
    SumConcat(Filter([e], p), Filter(xs, p), w);
    if p(e) {
      SumSnoc([], e, w);
    }
  }

  /** A sum over a concatenation is the sum of the sums. */
  lemma {:induction false} SumConcat(a: seq<Expense>, b: seq<Expense>, w: Expense -> int)
    ensures Sum(a + b, w) == Sum(a, w) + Sum(b, w)
    decreases |b|
  {
    if b == [] {
      assert a + b == a;
    } else {
      var b' := b[..|b| - 1];
      var e := b[|b| - 1];
      assert b == b' + [e];
      assert a + b == (a + b') + [e];
      SumConcat(a, b', w);
      SumSnoc(a + b', e, w);
      SumSnoc(b', e, w);
    }
  }

  /** Filtering a concatenation filters each part and keeps their order. */
  lemma {:induction false} FilterConcat(a: seq<Expense>, b: seq<Expense>, p: Expense -> bool)
    ensures Filter(a + b, p) == Filter(a, p) + Filter(b, p)
    decreases |b|
  {
    if b == [] {
      assert a + b == a;
    } else {
      var b' := b[..|b| - 1];
      var e := b[|b| - 1];
      var last := if p(e) then [e] else [];
      assert b == b' + [e];
      assert a + b == (a + b') + [e];
      FilterConcat(a, b', p);
      FilterSnoc(a + b', e, p);
      FilterSnoc(b', e, p);
      calc {
        Filter(a + b, p);
        Filter(a + b', p) + last;
        (Filter(a, p) + Filter(b', p)) + last;
        { assert (Filter(a, p) + Filter(b', p)) + last == Filter(a, p) + (Filter(b', p) + last); }
        Filter(a, p) + (Filter(b', p) + last);
        Filter(a, p) + Filter(b, p);
      }
    }
  }

  /** Filtering a list with a record in front keeps that record in front exactly when it passes. */
  lemma FilterCons(e: Expense, xs: seq<Expense>, p: Expense -> bool)
    ensures Filter([e] + xs, p) == (if p(e) then [e] else []) + Filter(xs, p)
  {
    FilterConcat([e], xs, p);
    FilterSnoc([], e, p);
    assert [] + [e] == [e];
  }

  /** A filter that every record passes returns the list unchanged. */
  lemma {:induction false} FilterAll(xs: seq<Expense>, p: Expense -> bool)
    requires forall e :: e in xs ==> p(e)
    ensures Filter(xs, p) == xs
    decreases |xs|
  {
    if xs != [] {
      var xs' := xs[..|xs| - 1];
      assert xs == xs' + [xs[|xs| - 1]];
      FilterAll(xs', p);
    }
  }

  /** A filter that no record passes returns the empty list. */
  lemma FilterNone(xs: seq<Expense>, p: Expense -> bool)
    requires forall e :: e in xs ==> !p(e)
    ensures Filter(xs, p) == []
  {
  }

  /**
   * Records that pass `p` and records that fail it split every sum, and the
   * list, between them: nothing is counted twice and nothing is lost.
   */
  lemma {:induction false} SumPartition(xs: seq<Expense>, p: Expense -> bool, w: Expense -> int)
    ensures Sum(xs, w) == Sum(Filter(xs, p), w) + Sum(Filter(xs, Not(p)), w)
    ensures |xs| == |Filter(xs, p)| + |Filter(xs, Not(p))|
    decreases |xs|
  {
    if xs != [] {
      var xs' := xs[..|xs| - 1];
      var e := xs[|xs| - 1];
      assert xs == xs' + [e];
      SumPartition(xs', p, w);
      SumSnoc(xs', e, w);
      SumFilterSnoc(xs', e, p, w);
      SumFilterSnoc(xs', e, Not(p), w);
      FilterSnoc(xs', e, p);
      FilterSnoc(xs', e, Not(p));
    }
  }

  /** When `r` holds exactly when one of two exclusive predicates holds, its sum is the two sums added. */
  lemma {:induction false} SumDisjointUnion(xs: seq<Expense>, p: Expense -> bool, q: Expense -> bool, r: Expense -> bool, w: Expense -> int)
    requires forall e :: e in xs ==> (r(e) <==> p(e) || q(e)) && !(p(e) && q(e))
    ensures Sum(Filter(xs, r), w) == Sum(Filter(xs, p), w) + Sum(Filter(xs, q), w)
    decreases |xs|
  {
    if xs != [] {
      var xs' := xs[..|xs| - 1];
      var e := xs[|xs| - 1];
      assert xs == xs' + [e];
      SumDisjointUnion(xs', p, q, r, w);
      SumFilterSnoc(xs', e, p, w);
      SumFilterSnoc(xs', e, q, w);
      SumFilterSnoc(xs', e, r, w);
    }
  }

  /**
   * Summing key by key over distinct keys gives the sum of the records whose
   * key is among them: each such record is counted under exactly one key.
   */
  lemma {:induction false} SumAcrossKeys<K>(xs: seq<Expense>, key: Expense -> K, ks: seq<K>, w: Expense -> int)
    requires Distinct(ks)
    ensures SumAcross(xs, key, ks, w) == Sum(Filter(xs, KeyIn(key, ks)), w)
    decreases |ks|
  {
    if ks == [] {
      FilterNone(xs, KeyIn(key, ks));
    } else {
      var rest := ks[1..];
      assert Distinct(rest) by {
        forall i, j | 0 <= i < j < |rest| ensures rest[i] != rest[j] {
          assert rest[i] == ks[i + 1] && rest[j] == ks[j + 1];
        }
      }
      assert ks[0] !in rest by {
        forall i | 0 <= i < |rest| ensures rest[i] != ks[0] {
          assert rest[i] == ks[i + 1];
        }
      }
      SumAcrossKeys(xs, key, rest, w);
      forall e | e in xs
        ensures (KeyIn(key, ks)(e) <==> KeyIs(key, ks[0])(e) || KeyIn(key, rest)(e))
        ensures !(KeyIs(key, ks[0])(e) && KeyIn(key, rest)(e))
      {
        assert ks == [ks[0]] + rest;
      }
      SumDisjointUnion(xs, KeyIs(key, ks[0]), KeyIn(key, rest), KeyIn(key, ks), w);
    }
  }

  /** When every record's key is among the distinct keys `ks`, summing key by key gives the whole sum. */
  lemma SumAcrossAllKeys<K>(xs: seq<Expense>, key: Expense -> K, ks: seq<K>, w: Expense -> int)
    requires Distinct(ks)
    requires forall e :: e in xs ==> key(e) in ks
    ensures SumAcross(xs, key, ks, w) == Sum(xs, w)
  {
    SumAcrossKeys(xs, key, ks, w);
    FilterAll(xs, KeyIn(key, ks));
  }
}
