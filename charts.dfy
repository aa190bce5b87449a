/**
 * The data behind the fuel chart and the grocery chart.
 *
 * Each builder groups the relevant records into a dictionary of period
 * buckets (`periods[periodKey]`), adding each record's amount into its
 * bucket, then sorts the buckets by period, keeps the last 8 weeks (or 6
 * months), and for the fuel chart adds `net = total - directReimbursements`.
 *
 * A period key is a number ordered as the periods are: in weekly mode the
 * day number of the Sunday that starts the record's week, in monthly mode the
 * record's month index. Keys compare as `new Date(period)` does on the
 * "YYYY-MM-DD" and "YYYY-MM" strings the dictionary is keyed by.
 *
 * The bucket arithmetic does not depend on how a key is computed, so it is
 * stated for any key function `key: Expense -> int`; the charts use `KeyOf(p)`.
 */
module Charts {
  import opened Calendar
  import opened Ledger
  import opened Totals

  datatype Period = Weekly | Monthly

  /** How many buckets a chart keeps: `slice(-8)` for weeks, `slice(-6)` for months. */
  function Limit(p: Period): nat
  {
    if p == Weekly then 8 else 6
  }

  /** The bucket a date falls in. */
  function PeriodKey(d: Date, p: Period): int
  {
    match p
    case Weekly => WeekStart(DayNumber(d))
    case Monthly => MonthIndex(d)
  }

  function KeyOf(p: Period): Expense -> int
  {
    (e: Expense) => PeriodKey(e.date, p)
  }

  /**
   * A weekly key is a Sunday, and two dates share a weekly bucket exactly when
   * the second lies in the Sunday-to-Saturday week that the first one's bucket starts.
   */
  lemma WeeklyBucket(a: Date, b: Date)
    ensures Weekday(PeriodKey(a, Weekly)) == 0
    ensures PeriodKey(a, Weekly) <= DayNumber(a) < PeriodKey(a, Weekly) + 7
    ensures Weekday(DayNumber(a)) == 0 ==> PeriodKey(a, Weekly) == DayNumber(a)
    ensures PeriodKey(a, Weekly) == PeriodKey(b, Weekly)
        <==> PeriodKey(a, Weekly) <= DayNumber(b) < PeriodKey(a, Weekly) + 7
  {
    if PeriodKey(a, Weekly) <= DayNumber(b) < PeriodKey(a, Weekly) + 7 {
      SameWeekSameStart(DayNumber(a), DayNumber(b));
    }
  }

  /** A later day never falls in an earlier week's bucket. */
  lemma WeeklyBucketMonotone(a: Date, b: Date)
    requires DayNumber(a) <= DayNumber(b)
    ensures PeriodKey(a, Weekly) <= PeriodKey(b, Weekly)
  {
    var s, t := WeekStart(DayNumber(a)), WeekStart(DayNumber(b));
    if t < s {
      assert t <= DayNumber(a) < t + 7;
      SameWeekSameStart(DayNumber(b), DayNumber(a));
    }
  }

  /** Two dates share a monthly bucket exactly when they share year and month, and buckets follow the calendar. */
  lemma MonthlyBucket(a: Date, b: Date)
    requires 1 <= a.month <= 12 && 1 <= b.month <= 12
    ensures PeriodKey(a, Monthly) == PeriodKey(b, Monthly) <==> SameMonth(a, b)
    ensures PeriodKey(a, Monthly) < PeriodKey(b, Monthly) <==> a.year < b.year || (a.year == b.year && a.month < b.month)
  {
    MonthIndexInjective(a, b);
    MonthIndexOrder(a, b);
  }

  predicate StrictlyIncreasing(s: seq<int>)
  {
    forall i, j :: 0 <= i < j < |s| ==> s[i] < s[j]
  }

  // Sorting the dictionary's keys (`Array.prototype.sort` with a numeric comparator).

  /** Everything in `s` after its first element is larger than it. */
  lemma HeadIsLeast(s: seq<int>, x: int)
    requires StrictlyIncreasing(s) && |s| > 0 && x in s[1..]
    ensures s[0] < x
  {
    var i :| 0 <= i < |s[1..]| && s[1..][i] == x;
    assert s[i + 1] == x;
  }

  /** Putting a key smaller than everything in front of a sorted list keeps it sorted. */
  lemma ConsIncreasing(x: int, s: seq<int>)
    requires StrictlyIncreasing(s) && forall y :: y in s ==> x < y
    ensures StrictlyIncreasing([x] + s)
  {
    var r := [x] + s;
    forall i, j | 0 <= i < j < |r| ensures r[i] < r[j] {
      assert r[j] == s[j - 1] && s[j - 1] in s;
      if i > 0 {
        assert r[i] == s[i - 1];
      }
    }
  }

  /** Inserting a new key into a sorted list of keys keeps it sorted and adds just that key. */
  function Insert(k: int, s: seq<int>): (r: seq<int>)
    requires StrictlyIncreasing(s) && k !in s
    ensures StrictlyIncreasing(r)
    ensures |r| == |s| + 1
    ensures forall x :: x in r <==> x in s || x == k
  {
    if s == [] then [k]
    else
      assert s == [s[0]] + s[1..];
      if k < s[0] then
        assert forall y :: y in s ==> k < y by {
          forall y | y in s ensures k < y {
            if y != s[0] {
              HeadIsLeast(s, y);
            }
          }
        }
        ConsIncreasing(k, s);
        [k] + s
      else
        var rest := Insert(k, s[1..]);
        assert forall x :: x in rest ==> s[0] < x by {
          forall x | x in rest ensures s[0] < x {
            if x != k {
              HeadIsLeast(s, x);
            }
          }
        }
        ConsIncreasing(s[0], rest);
        [s[0]] + rest
  }

  /** The distinct keys `s` in ascending order. */
  function Sort(s: seq<int>): (r: seq<int>)
    requires Distinct(s)
    ensures StrictlyIncreasing(r)
    ensures |r| == |s|
    ensures forall x :: x in r <==> x in s
  {
    if s == [] then []
    else
      var init := s[..|s| - 1];
      assert s == init + [s[|s| - 1]];
      assert Distinct(init);
      assert s[|s| - 1] !in init by {
        forall i | 0 <= i < |init| ensures init[i] != s[|s| - 1] {
          assert init[i] == s[i];
        }
      }
      Insert(s[|s| - 1], Sort(init))
  }

  /** `s.slice(-n)`: the last `n` elements, or all of them when there are fewer. */
  function TakeLast<T>(s: seq<T>, n: nat): seq<T>
  {
    if |s| <= n then s else s[|s| - n..]
  }

  // The dictionary's keys.

  /** The keys of the records in the order they are first seen: the dictionary's key order. */
  function KeysInOrder(xs: seq<Expense>, key: Expense -> int): (r: seq<int>)
    ensures forall e :: e in xs ==> key(e) in r
  {
    if xs == [] then []
    else
      var init := xs[..|xs| - 1];
      var e := xs[|xs| - 1];
      assert xs == init + [e];
      var r := KeysInOrder(init, key);
      if key(e) in r then r else r + [key(e)]
  }

  /** The dictionary never holds a key twice. */
  lemma {:induction false} KeysInOrderDistinct(xs: seq<Expense>, key: Expense -> int)
    ensures Distinct(KeysInOrder(xs, key))
    decreases |xs|
  {
    if xs != [] {
      KeysInOrderDistinct(xs[..|xs| - 1], key);
    }
  }

  /** The dictionary opens a key only for a record: every key is some record's key. */
  lemma {:induction false} KeysInOrderFromRecords(xs: seq<Expense>, key: Expense -> int)
    ensures forall k :: k in KeysInOrder(xs, key) ==> exists e :: e in xs && key(e) == k
    decreases |xs|
  {
    if xs != [] {
      var init, last := xs[..|xs| - 1], xs[|xs| - 1];
      assert xs == init + [last];
      KeysInOrderFromRecords(init, key);
      forall k | k in KeysInOrder(xs, key) ensures exists e :: e in xs && key(e) == k {
        if k in KeysInOrder(init, key) {
          var e :| e in init && key(e) == k;
          assert e in xs;
        } else {
          assert key(last) == k && last in xs;
        }
      }
    }
  }

  lemma KeysInOrderSnoc(xs: seq<Expense>, e: Expense, key: Expense -> int)
    ensures KeysInOrder(xs + [e], key)
         == if key(e) in KeysInOrder(xs, key) then KeysInOrder(xs, key) else KeysInOrder(xs, key) + [key(e)]
  {
    assert (xs + [e])[..|xs|] == xs;
  }

  // Bucket sums.

  /** The amounts in bucket `k`, added up: what `periods[k].total += amount` accumulates. */
  function KeySum(xs: seq<Expense>, key: Expense -> int, k: int): int
  {
    if xs == [] then 0
    else KeySum(xs[..|xs| - 1], key, k) + (if key(xs[|xs| - 1]) == k then xs[|xs| - 1].amount else 0)
  }

  /** The amounts of category `c` in bucket `k`, added up. */
  function KeyCategorySum(xs: seq<Expense>, key: Expense -> int, k: int, c: string): int
  {
    if xs == [] then 0
    else
      var e := xs[|xs| - 1];
      KeyCategorySum(xs[..|xs| - 1], key, k, c) + (if key(e) == k && e.category == c then e.amount else 0)
  }

  /** One more record adds its amount to its own bucket and to no other. */
  lemma KeySumSnoc(xs: seq<Expense>, e: Expense, key: Expense -> int)
    ensures forall k :: KeySum(xs + [e], key, k) == KeySum(xs, key, k) + (if key(e) == k then e.amount else 0)
  {
    assert (xs + [e])[..|xs|] == xs;
  }

  /** One more record adds its amount to its own bucket and category and to no other. */
  lemma KeyCategorySumSnoc(xs: seq<Expense>, e: Expense, key: Expense -> int)
    ensures forall k, c :: KeyCategorySum(xs + [e], key, k, c)
                        == KeyCategorySum(xs, key, k, c) + (if key(e) == k && e.category == c then e.amount else 0)
  {
    assert (xs + [e])[..|xs|] == xs;
  }

  /** A bucket no record falls in sums to zero. */
  lemma {:induction false} KeySumNone(xs: seq<Expense>, key: Expense -> int, k: int)
    requires forall e :: e in xs ==> key(e) != k
    ensures KeySum(xs, key, k) == 0
    decreases |xs|
  {
    if xs != [] {
      var init := xs[..|xs| - 1];
      assert xs == init + [xs[|xs| - 1]];
      KeySumNone(init, key, k);
    }
  }

  /** A bucket no record falls in has nothing in any category. */
  lemma {:induction false} KeyCategorySumNone(xs: seq<Expense>, key: Expense -> int, k: int, c: string)
    requires forall e :: e in xs ==> key(e) != k
    ensures KeyCategorySum(xs, key, k, c) == 0
    decreases |xs|
  {
    if xs != [] {
      var init := xs[..|xs| - 1];
      assert xs == init + [xs[|xs| - 1]];
      KeyCategorySumNone(init, key, k, c);
    }
  }

  /** A bucket's sum is the sum of the records `filter` selects for it. */
  lemma {:induction false} KeySumIsFilterSum(xs: seq<Expense>, key: Expense -> int, k: int)
    ensures KeySum(xs, key, k) == Sum(Filter(xs, KeyIs(key, k)), Amount)
    decreases |xs|
  {
    if xs != [] {
      var init, e := xs[..|xs| - 1], xs[|xs| - 1];
      assert xs == init + [e];
      KeySumIsFilterSum(init, key, k);
      SumFilterSnoc(init, e, KeyIs(key, k), Amount);
    }
  }

  /** `ks.map(k => m[k])`: the dictionary's values in the order `ks`. */
  function ValuesAt<V>(m: map<int, V>, ks: seq<int>): seq<V>
    requires forall n :: 0 <= n < |ks| ==> ks[n] in m
  {
    seq(|ks|, n requires 0 <= n < |ks| => m[ks[n]])
  }

  // The fuel chart.

  /** A bucket of the fuel dictionary: fuel spent and fuel reimbursements received in one period. */
  datatype FuelTally = FuelTally(period: int, total: int, directReimbursements: int)

  /** A bar of the fuel chart. */
  datatype FuelBucket = FuelBucket(period: int, total: int, directReimbursements: int, net: int)

  /** The bucket of each key in `ks`, in that order. */
  function FuelTallies(fuel: seq<Expense>, credits: seq<Expense>, key: Expense -> int, ks: seq<int>): (r: seq<FuelTally>)
    ensures |r| == |ks|
  {
    if ks == [] then []
    else [FuelTally(ks[0], KeySum(fuel, key, ks[0]), KeySum(credits, key, ks[0]))] + FuelTallies(fuel, credits, key, ks[1..])
  }

  /** The keys of the fuel dictionary, ascending. */
  function FuelKeys(xs: seq<Expense>, p: Period): seq<int>
  {
    KeysInOrderDistinct(FuelRecords(xs) + CreditRecords(xs), KeyOf(p));
    Sort(KeysInOrder(FuelRecords(xs) + CreditRecords(xs), KeyOf(p)))
  }

  /** Every bucket of the fuel dictionary, sorted, before trimming. */
  function AllFuelTallies(xs: seq<Expense>, p: Period): seq<FuelTally>
  {
    FuelTallies(FuelRecords(xs), CreditRecords(xs), KeyOf(p), FuelKeys(xs, p))
  }

  function WithNet(t: FuelTally): FuelBucket
  {
    FuelBucket(t.period, t.total, t.directReimbursements, t.total - t.directReimbursements)
  }

  /** `.map(p => ({ ...p, net: p.total - p.directReimbursements }))`. */
  function WithNets(ts: seq<FuelTally>): seq<FuelBucket>
  {
    seq(|ts|, j requires 0 <= j < |ts| => WithNet(ts[j]))
  }

  /** What `getFuelChartData` returns. */
  function FuelChart(xs: seq<Expense>, p: Period): seq<FuelBucket>
  {
    WithNets(TakeLast(AllFuelTallies(xs, p), Limit(p)))
  }

  function SumOfFuelTotals(ts: seq<FuelTally>): int
  {
    if ts == [] then 0 else ts[0].total + SumOfFuelTotals(ts[1..])
  }

  function SumOfDirectReimbursements(ts: seq<FuelTally>): int
  {
    if ts == [] then 0 else ts[0].directReimbursements + SumOfDirectReimbursements(ts[1..])
  }

  lemma {:induction false} FuelTalliesAt(fuel: seq<Expense>, credits: seq<Expense>, key: Expense -> int, ks: seq<int>, j: int)
    requires 0 <= j < |ks|
    ensures FuelTallies(fuel, credits, key, ks)[j] == FuelTally(ks[j], KeySum(fuel, key, ks[j]), KeySum(credits, key, ks[j]))
    decreases |ks|
  {
    if j > 0 {
      FuelTalliesAt(fuel, credits, key, ks[1..], j - 1);
    }
  }

  /** Reading the buckets out of a dictionary that holds the right tally under every key. */
  lemma FuelTalliesFromMap(m: map<int, FuelTally>, fuel: seq<Expense>, credits: seq<Expense>, key: Expense -> int, ks: seq<int>)
    requires forall n :: 0 <= n < |ks| ==> ks[n] in m
    requires forall k :: k in m ==> m[k] == FuelTally(k, KeySum(fuel, key, k), KeySum(credits, key, k))
    ensures ValuesAt(m, ks) == FuelTallies(fuel, credits, key, ks)
  {
    forall n | 0 <= n < |ks| ensures ValuesAt(m, ks)[n] == FuelTallies(fuel, credits, key, ks)[n] {
      FuelTalliesAt(fuel, credits, key, ks, n);
    }
  }

  lemma {:induction false} FuelTalliesSums(fuel: seq<Expense>, credits: seq<Expense>, key: Expense -> int, ks: seq<int>)
    ensures SumOfFuelTotals(FuelTallies(fuel, credits, key, ks)) == SumAcross(fuel, key, ks, Amount)
    ensures SumOfDirectReimbursements(FuelTallies(fuel, credits, key, ks)) == SumAcross(credits, key, ks, Amount)
    decreases |ks|
  {
    if ks != [] {
      FuelTalliesSums(fuel, credits, key, ks[1..]);
      KeySumIsFilterSum(fuel, key, ks[0]);
      KeySumIsFilterSum(credits, key, ks[0]);
      var t := FuelTallies(fuel, credits, key, ks);
      assert t[1..] == FuelTallies(fuel, credits, key, ks[1..]);
    }
  }

  /** The sorted buckets carry the ascending fuel keys, one each. */
  lemma AllFuelTalliesPeriods(xs: seq<Expense>, p: Period)
    ensures forall j :: 0 <= j < |AllFuelTallies(xs, p)| ==> AllFuelTallies(xs, p)[j].period == FuelKeys(xs, p)[j]
  {
    forall j | 0 <= j < |AllFuelTallies(xs, p)|
      ensures AllFuelTallies(xs, p)[j].period == FuelKeys(xs, p)[j]
    {
      FuelTalliesAt(FuelRecords(xs), CreditRecords(xs), KeyOf(p), FuelKeys(xs, p), j);
    }
  }

  /** The periods of the sorted buckets strictly increase. */
  lemma AllFuelTalliesSorted(xs: seq<Expense>, p: Period)
    ensures forall i, j :: 0 <= i < j < |AllFuelTallies(xs, p)| ==> AllFuelTallies(xs, p)[i].period < AllFuelTallies(xs, p)[j].period
  {
    AllFuelTalliesPeriods(xs, p);
  }

  /**
   * Before trimming, the bucket totals add up to all fuel spending and the
   * direct reimbursements to all fuel reimbursements.
   */
  lemma AllFuelTalliesSum(xs: seq<Expense>, p: Period)
    ensures SumOfFuelTotals(AllFuelTallies(xs, p)) == TotalFuelSpent(xs)
    ensures SumOfDirectReimbursements(AllFuelTallies(xs, p)) == TotalFuelReimbursements(xs)
  {
    var fuel, credits := FuelRecords(xs), CreditRecords(xs);
    var ks := FuelKeys(xs, p);
    FuelTalliesSums(fuel, credits, KeyOf(p), ks);
    SumAcrossAllKeys(fuel, KeyOf(p), ks, Amount);
    SumAcrossAllKeys(credits, KeyOf(p), ks, Amount);
  }

  /** Every fuel record and every fuel reimbursement falls in exactly one bucket. */
  lemma FuelRecordInOneBucket(xs: seq<Expense>, p: Period, e: Expense)
    requires e in FuelRecords(xs) || e in CreditRecords(xs)
    ensures var all := AllFuelTallies(xs, p);
            && (exists j :: 0 <= j < |all| && all[j].period == PeriodKey(e.date, p))
            && (forall i, j :: 0 <= i < |all| && 0 <= j < |all| && all[i].period == PeriodKey(e.date, p) && all[j].period == PeriodKey(e.date, p) ==> i == j)
  {
    var all := AllFuelTallies(xs, p);
    var ks := FuelKeys(xs, p);
    AllFuelTalliesPeriods(xs, p);
    assert e in FuelRecords(xs) + CreditRecords(xs);
    assert PeriodKey(e.date, p) in ks by {
      assert KeyOf(p)(e) in KeysInOrder(FuelRecords(xs) + CreditRecords(xs), KeyOf(p));
    }
    var j :| 0 <= j < |ks| && ks[j] == PeriodKey(e.date, p);
    assert all[j].period == PeriodKey(e.date, p);
  }

  /** Every bucket, before trimming, is the period of some fuel record or fuel reimbursement. */
  lemma AllFuelTalliesFromRecords(xs: seq<Expense>, p: Period)
    ensures forall j :: 0 <= j < |AllFuelTallies(xs, p)| ==>
              exists e :: (e in FuelRecords(xs) || e in CreditRecords(xs)) && PeriodKey(e.date, p) == AllFuelTallies(xs, p)[j].period
  {
    var recs := FuelRecords(xs) + CreditRecords(xs);
    var all, ks := AllFuelTallies(xs, p), FuelKeys(xs, p);
    AllFuelTalliesPeriods(xs, p);
    KeysInOrderFromRecords(recs, KeyOf(p));
    forall j | 0 <= j < |all|
      ensures exists e :: (e in FuelRecords(xs) || e in CreditRecords(xs)) && PeriodKey(e.date, p) == all[j].period
    {
      assert ks[j] in KeysInOrder(recs, KeyOf(p));
      var e :| e in recs && KeyOf(p)(e) == ks[j];
      assert e in FuelRecords(xs) || e in CreditRecords(xs);
    }
  }

  /** Every bar of the fuel chart is the period of some fuel record or fuel reimbursement: no bar is empty of records. */
  lemma FuelChartFromRecords(xs: seq<Expense>, p: Period)
    ensures forall j :: 0 <= j < |FuelChart(xs, p)| ==>
              exists e :: (e in FuelRecords(xs) || e in CreditRecords(xs)) && PeriodKey(e.date, p) == FuelChart(xs, p)[j].period
  {
    var all, c := AllFuelTallies(xs, p), FuelChart(xs, p);
    AllFuelTalliesFromRecords(xs, p);
    FuelChartShape(xs, p);
    forall j | 0 <= j < |c|
      ensures exists e :: (e in FuelRecords(xs) || e in CreditRecords(xs)) && PeriodKey(e.date, p) == c[j].period
    {
      assert c[j].period == all[|all| - |c| + j].period;
    }
  }

  /** Trimming sorted buckets to the last `n` and adding the net keeps them sorted and in step with the untrimmed list. */
  lemma TrimmedFuelShape(all: seq<FuelTally>, n: nat)
    requires forall i, j :: 0 <= i < j < |all| ==> all[i].period < all[j].period
    ensures var c := WithNets(TakeLast(all, n));
            && (forall j :: 0 <= j < |c| ==> c[j] == WithNet(all[|all| - |c| + j]))
            && (forall i, j :: 0 <= i < j < |c| ==> c[i].period < c[j].period)
            && (forall j :: 0 <= j < |c| ==> c[j].net == c[j].total - c[j].directReimbursements)
  {
    var kept := TakeLast(all, n);
    var c := WithNets(kept);
    var off := |all| - |c|;
    forall j | 0 <= j < |c| ensures c[j] == WithNet(all[off + j]) {
      assert kept[j] == all[off + j];
    }
    forall i, j | 0 <= i < j < |c| ensures c[i].period < c[j].period {
      assert c[i] == WithNet(kept[i]) && c[j] == WithNet(kept[j]);
      assert kept[i] == all[off + i] && kept[j] == all[off + j];
    }
  }

  /**
   * The fuel chart keeps the latest at most `Limit(p)` buckets, in ascending
   * order, each with `net = total - directReimbursements`.
   */
  lemma FuelChartShape(xs: seq<Expense>, p: Period)
    ensures var all, c := AllFuelTallies(xs, p), FuelChart(xs, p);
            && (forall j :: 0 <= j < |c| ==> c[j] == WithNet(all[|all| - |c| + j]))
            && (forall i, j :: 0 <= i < j < |c| ==> c[i].period < c[j].period)
            && (forall j :: 0 <= j < |c| ==> c[j].net == c[j].total - c[j].directReimbursements)
  {
    var all := AllFuelTallies(xs, p);
    AllFuelTalliesSorted(xs, p);
    TrimmedFuelShape(all, Limit(p));
    assert FuelChart(xs, p) == WithNets(TakeLast(all, Limit(p)));
  }

  /** The fuel chart has one bar per period, up to the last `Limit(p)` periods. */
  lemma FuelChartLength(xs: seq<Expense>, p: Period)
    ensures var n := |AllFuelTallies(xs, p)|;
            |FuelChart(xs, p)| == if n <= Limit(p) then n else Limit(p)
  {
  }

  /**
   * The fuel dictionary `periods` as a value: its buckets, and its keys in
   * the order they were added, which is the order `Object.values` lists them in.
   */
  datatype FuelDict = FuelDict(periods: map<int, FuelTally>, order: seq<int>)

  /** `if (!periods[key]) periods[key] = { period: key, total: 0, directReimbursements: 0 }`. */
  function OpenFuelBucket(d: FuelDict, k: int): (r: FuelDict)
    ensures k in r.periods
  {
    if k in d.periods then d else FuelDict(d.periods[k := FuelTally(k, 0, 0)], d.order + [k])
  }

  /** One step of `fuelExpenses.forEach`: `periods[key].total += expense.amount`. */
  function AddFuel(d: FuelDict, e: Expense, key: Expense -> int): FuelDict
  {
    var d1 := OpenFuelBucket(d, key(e));
    var t := d1.periods[key(e)];
    FuelDict(d1.periods[key(e) := t.(total := t.total + e.amount)], d1.order)
  }

  /** One step of `fuelReimbursements.forEach`: `periods[key].directReimbursements += reimb.amount`. */
  function AddCredit(d: FuelDict, e: Expense, key: Expense -> int): FuelDict
  {
    var d1 := OpenFuelBucket(d, key(e));
    var t := d1.periods[key(e)];
    FuelDict(d1.periods[key(e) := t.(directReimbursements := t.directReimbursements + e.amount)], d1.order)
  }

  /** The dictionary after the fuel records `xs`, in order, starting from `d`. */
  function AddAllFuel(d: FuelDict, xs: seq<Expense>, key: Expense -> int): FuelDict
  {
    if xs == [] then d else AddFuel(AddAllFuel(d, xs[..|xs| - 1], key), xs[|xs| - 1], key)
  }

  /** The dictionary after the fuel reimbursements `ys`, in order, starting from `d`. */
  function AddAllCredits(d: FuelDict, ys: seq<Expense>, key: Expense -> int): FuelDict
  {
    if ys == [] then d else AddCredit(AddAllCredits(d, ys[..|ys| - 1], key), ys[|ys| - 1], key)
  }

  /**
   * `d` holds one bucket for each period of `fuel + credits`, keyed in the
   * order first seen, and each bucket's total and direct reimbursements are
   * the amounts of the fuel records and of the reimbursements in it.
   */
  ghost predicate HoldsFuelTallies(d: FuelDict, fuel: seq<Expense>, credits: seq<Expense>, key: Expense -> int)
  {
    && d.order == KeysInOrder(fuel + credits, key)
    && (forall k :: k in d.periods <==> k in d.order)
    && (forall k :: k in d.periods ==> d.periods[k] == FuelTally(k, KeySum(fuel, key, k), KeySum(credits, key, k)))
  }

  lemma FuelStep(d: FuelDict, xs: seq<Expense>, e: Expense, key: Expense -> int)
    requires HoldsFuelTallies(d, xs, [], key)
    ensures HoldsFuelTallies(AddFuel(d, e, key), xs + [e], [], key)
  {
    assert xs + [] == xs && (xs + [e]) + [] == xs + [e];
    KeysInOrderSnoc(xs, e, key);
    KeySumSnoc(xs, e, key);
    if key(e) !in d.periods {
      KeySumNone(xs, key, key(e));
    }
  }

  lemma CreditStep(d: FuelDict, fuel: seq<Expense>, ys: seq<Expense>, e: Expense, key: Expense -> int)
    requires HoldsFuelTallies(d, fuel, ys, key)
    ensures HoldsFuelTallies(AddCredit(d, e, key), fuel, ys + [e], key)
  {
    var k := key(e);
    var d' := AddCredit(d, e, key);
    assert fuel + (ys + [e]) == (fuel + ys) + [e];
    KeysInOrderSnoc(fuel + ys, e, key);
    KeySumSnoc(ys, e, key);
    if k !in d.periods {
      forall x | x in fuel ensures key(x) != k {
        assert x in fuel + ys;
      }
      forall x | x in ys ensures key(x) != k {
        assert x in fuel + ys;
      }
      KeySumNone(fuel, key, k);
      KeySumNone(ys, key, k);
    }
    assert d'.order == KeysInOrder(fuel + (ys + [e]), key);
  }

  /** After the fuel loop, the dictionary holds the fuel tallies of every period seen. */
  lemma {:induction false} AddAllFuelHolds(xs: seq<Expense>, key: Expense -> int)
    ensures HoldsFuelTallies(AddAllFuel(FuelDict(map[], []), xs, key), xs, [], key)
    decreases |xs|
  {
    if xs == [] {
      assert xs + [] == [];
    } else {
      var init := xs[..|xs| - 1];
      assert xs == init + [xs[|xs| - 1]];
      AddAllFuelHolds(init, key);
      FuelStep(AddAllFuel(FuelDict(map[], []), init, key), init, xs[|xs| - 1], key);
    }
  }

  /** After the reimbursement loop, every bucket also holds its direct reimbursements. */
  lemma {:induction false} AddAllCreditsHolds(d: FuelDict, fuel: seq<Expense>, ys: seq<Expense>, key: Expense -> int)
    requires HoldsFuelTallies(d, fuel, [], key)
    ensures HoldsFuelTallies(AddAllCredits(d, ys, key), fuel, ys, key)
    decreases |ys|
  {
    if ys != [] {
      var init := ys[..|ys| - 1];
      assert ys == init + [ys[|ys| - 1]];
      AddAllCreditsHolds(d, fuel, init, key);
      CreditStep(AddAllCredits(d, init, key), fuel, init, ys[|ys| - 1], key);
    }
  }

  /** Sorting the dictionary the two loops build gives every fuel bucket, in period order. */
  lemma FuelDictGivesChart(expenses: seq<Expense>, p: Period)
    ensures var d := AddAllCredits(AddAllFuel(FuelDict(map[], []), FuelRecords(expenses), KeyOf(p)), CreditRecords(expenses), KeyOf(p));
            && Distinct(d.order)
            && (forall n :: 0 <= n < |Sort(d.order)| ==> Sort(d.order)[n] in d.periods)
            && ValuesAt(d.periods, Sort(d.order)) == AllFuelTallies(expenses, p)
  {
    var fuel, credits := FuelRecords(expenses), CreditRecords(expenses);
    var d0 := AddAllFuel(FuelDict(map[], []), fuel, KeyOf(p));
    AddAllFuelHolds(fuel, KeyOf(p));
    AddAllCreditsHolds(d0, fuel, credits, KeyOf(p));
    KeysInOrderDistinct(fuel + credits, KeyOf(p));
    var d := AddAllCredits(d0, credits, KeyOf(p));
    FuelTalliesFromMap(d.periods, fuel, credits, KeyOf(p), Sort(d.order));
  }

  /** `fuelExpenses.forEach(...)`: opens a bucket for each new period and adds each amount to its total. */
  method TallyFuel(fuel: seq<Expense>, p: Period) returns (periods: map<int, FuelTally>, order: seq<int>)
    ensures FuelDict(periods, order) == AddAllFuel(FuelDict(map[], []), fuel, KeyOf(p))
  {
    periods, order := map[], [];
    var i := 0;
    while i < |fuel|
      invariant 0 <= i <= |fuel|
      invariant FuelDict(periods, order) == AddAllFuel(FuelDict(map[], []), fuel[..i], KeyOf(p))
    {
      var e := fuel[i];
      var key := PeriodKey(e.date, p);
      assert fuel[..i + 1] == fuel[..i] + [e];
      assert KeyOf(p)(e) == key;
      ghost var before := FuelDict(periods, order);
      if key !in periods {
        periods := periods[key := FuelTally(key, 0, 0)];
        order := order + [key];
      }
      assert FuelDict(periods, order) == OpenFuelBucket(before, key);
      periods := periods[key := periods[key].(total := periods[key].total + e.amount)];
      assert FuelDict(periods, order) == AddFuel(before, e, KeyOf(p));
      i := i + 1;
    }
    assert fuel[..|fuel|] == fuel;
  }

  /**
   * `fuelReimbursements.forEach(...)`: opens a bucket for each period not seen
   * yet and adds each amount to its direct reimbursements.
   */
  method TallyCredits(credits: seq<Expense>, p: Period, periods0: map<int, FuelTally>, order0: seq<int>)
    returns (periods: map<int, FuelTally>, order: seq<int>)
    ensures FuelDict(periods, order) == AddAllCredits(FuelDict(periods0, order0), credits, KeyOf(p))
  {
    periods, order := periods0, order0;
    var j := 0;
    while j < |credits|
      invariant 0 <= j <= |credits|
      invariant FuelDict(periods, order) == AddAllCredits(FuelDict(periods0, order0), credits[..j], KeyOf(p))
    {
      var e := credits[j];
      var key := PeriodKey(e.date, p);
      assert credits[..j + 1] == credits[..j] + [e];
      assert KeyOf(p)(e) == key;
      ghost var before := FuelDict(periods, order);
      if key !in periods {
        periods := periods[key := FuelTally(key, 0, 0)];
        order := order + [key];
      }
      assert FuelDict(periods, order) == OpenFuelBucket(before, key);
      periods := periods[key := periods[key].(directReimbursements := periods[key].directReimbursements + e.amount)];
      assert FuelDict(periods, order) == AddCredit(before, e, KeyOf(p));
      j := j + 1;
    }
    assert credits[..|credits|] == credits;
  }

  /** `getFuelChartData`. */
  method FuelChartData(expenses: seq<Expense>, p: Period) returns (chart: seq<FuelBucket>)
    ensures chart == FuelChart(expenses, p)
    ensures |chart| <= Limit(p)
    ensures forall i, j :: 0 <= i < j < |chart| ==> chart[i].period < chart[j].period
    ensures forall j :: 0 <= j < |chart| ==> chart[j].net == chart[j].total - chart[j].directReimbursements
  {
    var fuel := FuelRecords(expenses);
    var credits := CreditRecords(expenses);
    var periods, order := TallyFuel(fuel, p);
    periods, order := TallyCredits(credits, p, periods, order);
    FuelDictGivesChart(expenses, p);

    // Object.values(periods).sort(by period).slice(-limit).map(add net)
    var sorted := Sort(order);
    var all := ValuesAt(periods, sorted);
    var kept := TakeLast(all, Limit(p));
    chart := WithNets(kept);

    FuelChartShape(expenses, p);
  }

  // The grocery chart.

  /** A bucket of the grocery dictionary, and a bar of the grocery chart. */
  datatype GroceryBucket = GroceryBucket(period: int, groceries: int, dining: int, smallShop: int, total: int)

  /** A bucket's total is the sum of its three parts. */
  predicate AddsUp(b: GroceryBucket)
  {
    b.total == b.groceries + b.dining + b.smallShop
  }

  /** The tally of bucket `k` of the records `gro`. */
  function GroceryTally(gro: seq<Expense>, key: Expense -> int, k: int): GroceryBucket
  {
    GroceryBucket(k, KeyCategorySum(gro, key, k, Groceries), KeyCategorySum(gro, key, k, Dining),
                  KeyCategorySum(gro, key, k, SmallShop), KeySum(gro, key, k))
  }

  /** The bucket of each key in `ks`, in that order. */
  function GroceryTallies(gro: seq<Expense>, key: Expense -> int, ks: seq<int>): (r: seq<GroceryBucket>)
    ensures |r| == |ks|
  {
    if ks == [] then [] else [GroceryTally(gro, key, ks[0])] + GroceryTallies(gro, key, ks[1..])
  }

  /** The keys of the grocery dictionary, ascending. */
  function GroceryKeys(xs: seq<Expense>, p: Period): seq<int>
  {
    KeysInOrderDistinct(GroceryExpenses(xs), KeyOf(p));
    Sort(KeysInOrder(GroceryExpenses(xs), KeyOf(p)))
  }

  /** Every bucket of the grocery dictionary, sorted, before trimming. */
  function AllGroceryTallies(xs: seq<Expense>, p: Period): seq<GroceryBucket>
  {
    GroceryTallies(GroceryExpenses(xs), KeyOf(p), GroceryKeys(xs, p))
  }

  /** What `getGroceryChartData` returns. */
  function GroceryChart(xs: seq<Expense>, p: Period): seq<GroceryBucket>
  {
    TakeLast(AllGroceryTallies(xs, p), Limit(p))
  }

  function SumOfGroceryTotals(bs: seq<GroceryBucket>): int
  {
    if bs == [] then 0 else bs[0].total + SumOfGroceryTotals(bs[1..])
  }

  lemma {:induction false} GroceryTalliesAt(gro: seq<Expense>, key: Expense -> int, ks: seq<int>, j: int)
    requires 0 <= j < |ks|
    ensures GroceryTallies(gro, key, ks)[j] == GroceryTally(gro, key, ks[j])
    decreases |ks|
  {
    if j > 0 {
      GroceryTalliesAt(gro, key, ks[1..], j - 1);
    }
  }

  /** Reading the buckets out of a dictionary that holds the right tally under every key. */
  lemma GroceryTalliesFromMap(m: map<int, GroceryBucket>, gro: seq<Expense>, key: Expense -> int, ks: seq<int>)
    requires forall n :: 0 <= n < |ks| ==> ks[n] in m
    requires forall k :: k in m ==> m[k] == GroceryTally(gro, key, k)
    ensures ValuesAt(m, ks) == GroceryTallies(gro, key, ks)
  {
    forall n | 0 <= n < |ks| ensures ValuesAt(m, ks)[n] == GroceryTallies(gro, key, ks)[n] {
      GroceryTalliesAt(gro, key, ks, n);
    }
  }

  /** In any bucket of grocery-group records, the total is groceries + dining + small shop. */
  lemma {:induction false} BucketAddsUp(gro: seq<Expense>, key: Expense -> int, k: int)
    requires forall e :: e in gro ==> e.category in GroceryGroup
    ensures KeySum(gro, key, k)
         == KeyCategorySum(gro, key, k, Groceries) + KeyCategorySum(gro, key, k, Dining) + KeyCategorySum(gro, key, k, SmallShop)
    decreases |gro|
  {
    if gro != [] {
      var init, e := gro[..|gro| - 1], gro[|gro| - 1];
      assert gro == init + [e];
      BucketAddsUp(init, key, k);
      KeySumSnoc(init, e, key);
      KeyCategorySumSnoc(init, e, key);
    }
  }

  lemma {:induction false} GroceryTalliesSum(gro: seq<Expense>, key: Expense -> int, ks: seq<int>)
    ensures SumOfGroceryTotals(GroceryTallies(gro, key, ks)) == SumAcross(gro, key, ks, Amount)
    decreases |ks|
  {
    if ks != [] {
      GroceryTalliesSum(gro, key, ks[1..]);
      KeySumIsFilterSum(gro, key, ks[0]);
      var t := GroceryTallies(gro, key, ks);
      assert t[1..] == GroceryTallies(gro, key, ks[1..]);
    }
  }

  /** Before trimming, the grocery bucket totals add up to all grocery-group spending. */
  lemma AllGroceryTalliesSum(xs: seq<Expense>, p: Period)
    ensures SumOfGroceryTotals(AllGroceryTallies(xs, p)) == TotalGrocerySpent(xs)
  {
    var gro, ks := GroceryExpenses(xs), GroceryKeys(xs, p);
    GroceryTalliesSum(gro, KeyOf(p), ks);
    SumAcrossAllKeys(gro, KeyOf(p), ks, Amount);
  }

  /** The sorted grocery buckets carry the ascending keys, one each. */
  lemma AllGroceryTalliesPeriods(xs: seq<Expense>, p: Period)
    ensures forall j :: 0 <= j < |AllGroceryTallies(xs, p)| ==> AllGroceryTallies(xs, p)[j].period == GroceryKeys(xs, p)[j]
  {
    forall j | 0 <= j < |AllGroceryTallies(xs, p)|
      ensures AllGroceryTallies(xs, p)[j].period == GroceryKeys(xs, p)[j]
    {
      GroceryTalliesAt(GroceryExpenses(xs), KeyOf(p), GroceryKeys(xs, p), j);
    }
  }

  /** The periods of the sorted grocery buckets strictly increase. */
  lemma AllGroceryTalliesSorted(xs: seq<Expense>, p: Period)
    ensures forall i, j :: 0 <= i < j < |AllGroceryTallies(xs, p)| ==> AllGroceryTallies(xs, p)[i].period < AllGroceryTallies(xs, p)[j].period
  {
    AllGroceryTalliesPeriods(xs, p);
  }

  /** In every grocery bucket, the total is groceries + dining + small shop. */
  lemma AllGroceryTalliesAddUp(xs: seq<Expense>, p: Period)
    ensures forall j :: 0 <= j < |AllGroceryTallies(xs, p)| ==> AddsUp(AllGroceryTallies(xs, p)[j])
  {
    var gro, ks := GroceryExpenses(xs), GroceryKeys(xs, p);
    FilterMembers(xs, InGroup(GroceryGroup));
    assert forall e :: e in gro ==> e.category in GroceryGroup;
    forall j | 0 <= j < |ks|
      ensures AllGroceryTallies(xs, p)[j] == GroceryTally(gro, KeyOf(p), ks[j])
      ensures KeySum(gro, KeyOf(p), ks[j])
           == KeyCategorySum(gro, KeyOf(p), ks[j], Groceries) + KeyCategorySum(gro, KeyOf(p), ks[j], Dining)
            + KeyCategorySum(gro, KeyOf(p), ks[j], SmallShop)
    {
      GroceryTalliesAt(gro, KeyOf(p), ks, j);
      BucketAddsUp(gro, KeyOf(p), ks[j]);
    }
  }

  /** Every grocery bucket, before trimming, is the period of some grocery-group record. */
  lemma AllGroceryTalliesFromRecords(xs: seq<Expense>, p: Period)
    ensures forall j :: 0 <= j < |AllGroceryTallies(xs, p)| ==>
              exists e :: e in GroceryExpenses(xs) && PeriodKey(e.date, p) == AllGroceryTallies(xs, p)[j].period
  {
    var gro := GroceryExpenses(xs);
    var all, ks := AllGroceryTallies(xs, p), GroceryKeys(xs, p);
    AllGroceryTalliesPeriods(xs, p);
    KeysInOrderFromRecords(gro, KeyOf(p));
    forall j | 0 <= j < |all|
      ensures exists e :: e in gro && PeriodKey(e.date, p) == all[j].period
    {
      assert ks[j] in KeysInOrder(gro, KeyOf(p));
      var e :| e in gro && KeyOf(p)(e) == ks[j];
      assert PeriodKey(e.date, p) == all[j].period;
    }
  }

  /** Trimming sorted buckets to the last `n` keeps them sorted, in step with the untrimmed list, and adding up. */
  lemma TrimmedGroceryShape(all: seq<GroceryBucket>, n: nat)
    requires forall i, j :: 0 <= i < j < |all| ==> all[i].period < all[j].period
    requires forall j :: 0 <= j < |all| ==> AddsUp(all[j])
    ensures var c := TakeLast(all, n);
            && (forall j :: 0 <= j < |c| ==> c[j] == all[|all| - |c| + j])
            && (forall i, j :: 0 <= i < j < |c| ==> c[i].period < c[j].period)
            && (forall j :: 0 <= j < |c| ==> AddsUp(c[j]))
  {
    var c := TakeLast(all, n);
    var off := |all| - |c|;
    forall j | 0 <= j < |c| ensures c[j] == all[off + j] {
    }
    forall i, j | 0 <= i < j < |c| ensures c[i].period < c[j].period {
      assert c[i] == all[off + i] && c[j] == all[off + j];
    }
  }

  /**
   * The grocery chart keeps the latest at most `Limit(p)` buckets, in
   * ascending order, each bucket's total being the sum of its three parts.
   */
  lemma GroceryChartShape(xs: seq<Expense>, p: Period)
    ensures var all, c := AllGroceryTallies(xs, p), GroceryChart(xs, p);
            && (forall j :: 0 <= j < |c| ==> c[j] == all[|all| - |c| + j])
            && (forall i, j :: 0 <= i < j < |c| ==> c[i].period < c[j].period)
            && (forall j :: 0 <= j < |c| ==> AddsUp(c[j]))
  {
    var all := AllGroceryTallies(xs, p);
    AllGroceryTalliesSorted(xs, p);
    AllGroceryTalliesAddUp(xs, p);
    TrimmedGroceryShape(all, Limit(p));
    assert GroceryChart(xs, p) == TakeLast(all, Limit(p));
  }

  /** Every bucket of the grocery chart is the period of some grocery-group record: no bucket is empty of records. */
  lemma GroceryChartFromRecords(xs: seq<Expense>, p: Period)
    ensures forall j :: 0 <= j < |GroceryChart(xs, p)| ==>
              exists e :: e in GroceryExpenses(xs) && PeriodKey(e.date, p) == GroceryChart(xs, p)[j].period
  {
    var all, c := AllGroceryTallies(xs, p), GroceryChart(xs, p);
    AllGroceryTalliesFromRecords(xs, p);
    GroceryChartShape(xs, p);
    forall j | 0 <= j < |c|
      ensures exists e :: e in GroceryExpenses(xs) && PeriodKey(e.date, p) == c[j].period
    {
      assert c[j] == all[|all| - |c| + j];
    }
  }

  /** The grocery chart has one bucket per period, up to the last `Limit(p)` periods. */
  lemma GroceryChartLength(xs: seq<Expense>, p: Period)
    ensures var n := |AllGroceryTallies(xs, p)|;
            |GroceryChart(xs, p)| == if n <= Limit(p) then n else Limit(p)
  {
  }

  /** The new value of a bucket once `e` is added to it: its category part and its total grow. */
  function AddToBucket(b: GroceryBucket, e: Expense): (r: GroceryBucket)
    ensures r.period == b.period && r.total == b.total + e.amount
  {
    var b1 :=
      if e.category == Groceries then b.(groceries := b.groceries + e.amount)
      else if e.category == Dining then b.(dining := b.dining + e.amount)
      else if e.category == SmallShop then b.(smallShop := b.smallShop + e.amount)
      else b;
    b1.(total := b1.total + e.amount)
  }

  /** The grocery dictionary as a value: its buckets, and its keys in the order they were added. */
  datatype GroceryDict = GroceryDict(periods: map<int, GroceryBucket>, order: seq<int>)

  /** One step of `groceryExpenses.forEach`: open the bucket if needed, then add the amount to it. */
  function AddGrocery(d: GroceryDict, e: Expense, key: Expense -> int): GroceryDict
  {
    var d1 := if key(e) in d.periods then d else GroceryDict(d.periods[key(e) := GroceryBucket(key(e), 0, 0, 0, 0)], d.order + [key(e)]);
    GroceryDict(d1.periods[key(e) := AddToBucket(d1.periods[key(e)], e)], d1.order)
  }

  /** The dictionary after the records `xs`, in order, starting from empty. */
  function AddAllGroceries(xs: seq<Expense>, key: Expense -> int): GroceryDict
  {
    if xs == [] then GroceryDict(map[], []) else AddGrocery(AddAllGroceries(xs[..|xs| - 1], key), xs[|xs| - 1], key)
  }

  /**
   * `d` holds one bucket for each period of `xs`, keyed in the order first
   * seen, and each bucket holds the amounts of the records in it, by category
   * and in total.
   */
  ghost predicate HoldsGroceryTallies(d: GroceryDict, xs: seq<Expense>, key: Expense -> int)
  {
    && d.order == KeysInOrder(xs, key)
    && (forall k :: k in d.periods <==> k in d.order)
    && (forall k :: k in d.periods ==> d.periods[k] == GroceryTally(xs, key, k))
  }

  lemma GroceryStep(d: GroceryDict, xs: seq<Expense>, e: Expense, key: Expense -> int)
    requires HoldsGroceryTallies(d, xs, key)
    ensures HoldsGroceryTallies(AddGrocery(d, e, key), xs + [e], key)
  {
    KeysInOrderSnoc(xs, e, key);
    KeySumSnoc(xs, e, key);
    KeyCategorySumSnoc(xs, e, key);
    assert AddGrocery(d, e, key).order == KeysInOrder(xs + [e], key);
    if key(e) !in d.periods {
      KeySumNone(xs, key, key(e));
      KeyCategorySumNone(xs, key, key(e), Groceries);
      KeyCategorySumNone(xs, key, key(e), Dining);
      KeyCategorySumNone(xs, key, key(e), SmallShop);
    }
  }

  /** After the loop, the dictionary holds the tallies of every period seen. */
  lemma {:induction false} AddAllGroceriesHolds(xs: seq<Expense>, key: Expense -> int)
    ensures HoldsGroceryTallies(AddAllGroceries(xs, key), xs, key)
    decreases |xs|
  {
    if xs != [] {
      var init := xs[..|xs| - 1];
      assert xs == init + [xs[|xs| - 1]];
      AddAllGroceriesHolds(init, key);
      GroceryStep(AddAllGroceries(init, key), init, xs[|xs| - 1], key);
    }
  }

  /** Sorting the dictionary the loop builds gives every grocery bucket, in period order. */
  lemma GroceryDictGivesChart(expenses: seq<Expense>, p: Period)
    ensures var d := AddAllGroceries(GroceryExpenses(expenses), KeyOf(p));
            && Distinct(d.order)
            && (forall n :: 0 <= n < |Sort(d.order)| ==> Sort(d.order)[n] in d.periods)
            && ValuesAt(d.periods, Sort(d.order)) == AllGroceryTallies(expenses, p)
  {
    var gro := GroceryExpenses(expenses);
    AddAllGroceriesHolds(gro, KeyOf(p));
    KeysInOrderDistinct(gro, KeyOf(p));
    var d := AddAllGroceries(gro, KeyOf(p));
    GroceryTalliesFromMap(d.periods, gro, KeyOf(p), Sort(d.order));
  }

  /**
   * `groceryExpenses.forEach(...)`: opens a bucket for each new period and adds
   * each amount to the part of its category and to the bucket's total.
   */
  method TallyGroceries(gro: seq<Expense>, p: Period) returns (periods: map<int, GroceryBucket>, order: seq<int>)
    ensures GroceryDict(periods, order) == AddAllGroceries(gro, KeyOf(p))
  {
    periods, order := map[], [];
    var i := 0;
    while i < |gro|
      invariant 0 <= i <= |gro|
      invariant GroceryDict(periods, order) == AddAllGroceries(gro[..i], KeyOf(p))
    {
      var e := gro[i];
      var key := PeriodKey(e.date, p);
      assert gro[..i + 1] == gro[..i] + [e];
      ghost var before := GroceryDict(periods, order);
      if key !in periods {
        periods := periods[key := GroceryBucket(key, 0, 0, 0, 0)];
        order := order + [key];
      }
      var bucket := periods[key];
      if e.category == Groceries {
        bucket := bucket.(groceries := bucket.groceries + e.amount);
      } else if e.category == Dining {
        bucket := bucket.(dining := bucket.dining + e.amount);
      } else if e.category == SmallShop {
        bucket := bucket.(smallShop := bucket.smallShop + e.amount);
      }
      bucket := bucket.(total := bucket.total + e.amount);
      assert bucket == AddToBucket(periods[key], e);
      periods := periods[key := bucket];
      assert GroceryDict(periods, order) == AddGrocery(before, e, KeyOf(p));
      i := i + 1;
    }
    assert gro[..|gro|] == gro;
  }

  /** `getGroceryChartData`. */
  method GroceryChartData(expenses: seq<Expense>, p: Period) returns (chart: seq<GroceryBucket>)
    ensures chart == GroceryChart(expenses, p)
    ensures |chart| <= Limit(p)
    ensures forall i, j :: 0 <= i < j < |chart| ==> chart[i].period < chart[j].period
    ensures forall j :: 0 <= j < |chart| ==> chart[j].total == chart[j].groceries + chart[j].dining + chart[j].smallShop
  {
    var gro := GroceryExpenses(expenses);
    var periods, order := TallyGroceries(gro, p);
    GroceryDictGivesChart(expenses, p);

    // Object.values(periods).sort(by period).slice(-limit)
    var sorted := Sort(order);
    var all := ValuesAt(periods, sorted);
    chart := TakeLast(all, Limit(p));

    GroceryChartShape(expenses, p);
  }
}
