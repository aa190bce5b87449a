/**
 * The summary figures and the category breakdown that the tracker derives
 * from its expense list on every render. "Today" is a parameter.
 *
 * Sign rules: a "Fuel Reimbursement" record is money received, so the net
 * figures subtract its amount; every record's own reimbursement amount is
 * subtracted too. Both channels reduce the car net.
 */
module Totals {
  import opened Wrappers
  import opened Calendar
  import opened Ledger

  /** A record's amount with the sign the net figures give it. */
  const Signed: Expense -> int := (e: Expense) => if e.category == FuelReimbursement then -e.amount else e.amount

  /** Records dated in the same calendar month (and year) as `today`. */
  function InMonthOf(today: Date): Expense -> bool
  {
    (e: Expense) => SameMonth(e.date, today)
  }

  /** Records dated on or after day number `day`. */
  function OnOrAfter(day: int): Expense -> bool
  {
    (e: Expense) => DayNumber(e.date) >= day
  }

  function HasId(id: string): Expense -> bool
  {
    KeyIs(IdOf, id)
  }

  // Summary figures.

  /** `fuelExpenses`: the "Car - Fuel" records. */
  function FuelRecords(xs: seq<Expense>): seq<Expense>
  {
    Filter(xs, HasCategory(CarFuel))
  }

  /** `fuelReimbursements`: the "Fuel Reimbursement" records. */
  function CreditRecords(xs: seq<Expense>): seq<Expense>
  {
    Filter(xs, HasCategory(FuelReimbursement))
  }

  function TotalFuelSpent(xs: seq<Expense>): int
  {
    Sum(FuelRecords(xs), Amount)
  }

  function TotalFuelReimbursements(xs: seq<Expense>): int
  {
    Sum(CreditRecords(xs), Amount)
  }

  function TotalReimbursements(xs: seq<Expense>): int
  {
    Sum(xs, Reimbursement)
  }

  /** The overall net: signed amounts less every record's reimbursement. */
  function NetExpenses(xs: seq<Expense>): int
  {
    Sum(xs, Signed) - TotalReimbursements(xs)
  }

  /** The net of this calendar month, each of its two sums over the month's records. */
  function MonthlyExpenses(xs: seq<Expense>, today: Date): int
  {
    Sum(Filter(xs, InMonthOf(today)), Signed) - Sum(Filter(xs, InMonthOf(today)), Reimbursement)
  }

  function GroceryExpenses(xs: seq<Expense>): seq<Expense>
  {
    Filter(xs, InGroup(GroceryGroup))
  }

  function TotalGrocerySpent(xs: seq<Expense>): int
  {
    Sum(GroceryExpenses(xs), Amount)
  }

  /** Grocery-group spending dated on or after the Sunday that starts today's week (later dates included). */
  function WeeklyGroceryExpenses(xs: seq<Expense>, today: Date): int
  {
    Sum(Filter(GroceryExpenses(xs), OnOrAfter(WeekStart(DayNumber(today)))), Amount)
  }

  function MonthlyGroceryExpenses(xs: seq<Expense>, today: Date): int
  {
    Sum(Filter(GroceryExpenses(xs), InMonthOf(today)), Amount)
  }

  function CarExpenses(xs: seq<Expense>): seq<Expense>
  {
    Filter(xs, InGroup(CarGroup))
  }

  function TotalCarSpent(xs: seq<Expense>): int
  {
    Sum(CarExpenses(xs), Amount)
  }

  function TotalCarReimbursements(xs: seq<Expense>): int
  {
    Sum(CarExpenses(xs), Reimbursement)
  }

  function NetCarExpenses(xs: seq<Expense>): int
  {
    TotalCarSpent(xs) - TotalCarReimbursements(xs) - TotalFuelReimbursements(xs)
  }

  /** The "Total Reimbursements" card of the car section. */
  function DisplayedCarReimbursements(xs: seq<Expense>): int
  {
    TotalCarReimbursements(xs) + TotalFuelReimbursements(xs)
  }

  // Category breakdown.

  datatype CategoryTotal = CategoryTotal(
    category: string,
    total: int,
    reimbursements: int,
    net: int,
    count: nat,
    isReimbursement: bool)

  /** The summary of one category; `isReimbursement` flags the credit category. */
  function CategorySummary(xs: seq<Expense>, c: string): (t: CategoryTotal)
    ensures t.category == c
    ensures t.net == t.total - t.reimbursements
    ensures t.isReimbursement <==> c == FuelReimbursement
    ensures t.count == 0 ==> t.total == 0 && t.reimbursements == 0
  {
    var matching := Filter(xs, HasCategory(c));
    var total := Sum(matching, Amount);
    var reimbursements := Sum(matching, Reimbursement);
    CategoryTotal(c, total, reimbursements, total - reimbursements, |matching|, c == FuelReimbursement)
  }

  /** `cs.map(summary).filter(item => item.count > 0)`. */
  function Breakdown(xs: seq<Expense>, cs: seq<string>): (r: seq<CategoryTotal>)
    ensures |r| <= |cs|
    ensures forall t :: t in r ==> t.category in cs && t.count > 0 && t == CategorySummary(xs, t.category)
  {
    if cs == [] then []
    else
      var t := CategorySummary(xs, cs[0]);
      (if t.count > 0 then [t] else []) + Breakdown(xs, cs[1..])
  }

  function CategoryTotals(xs: seq<Expense>): seq<CategoryTotal>
  {
    Breakdown(xs, Categories)
  }

  function CategoriesOf(r: seq<CategoryTotal>): seq<string>
  {
    if r == [] then [] else [r[0].category] + CategoriesOf(r[1..])
  }

  function SumOfTotals(r: seq<CategoryTotal>): int
  {
    if r == [] then 0 else r[0].total + SumOfTotals(r[1..])
  }

  /** `a` is `b` with some elements left out, the rest in the same order. */
  predicate IsSubsequence(a: seq<string>, b: seq<string>)
  {
    if a == [] then true
    else if b == [] then false
    else if a[0] == b[0] then IsSubsequence(a[1..], b[1..])
    else IsSubsequence(a, b[1..])
  }

  // Properties of the summary figures.

  /**
   * The overall net is the amount of every record that is not a fuel
   * reimbursement, less the amount of every fuel reimbursement, less every
   * record's reimbursement (a missing one counting 0).
   */
  lemma {:induction false} NetExpensesRule(xs: seq<Expense>)
    ensures NetExpenses(xs)
         == Sum(Filter(xs, Not(HasCategory(FuelReimbursement))), Amount)
          - Sum(Filter(xs, HasCategory(FuelReimbursement)), Amount)
          - Sum(xs, Reimbursement)
    decreases |xs|
  {
    if xs != [] {
      var xs', e := xs[..|xs| - 1], xs[|xs| - 1];
      assert xs == xs' + [e];
      NetExpensesRule(xs');
      SumSnoc(xs', e, Signed);
      SumSnoc(xs', e, Reimbursement);
      SumFilterSnoc(xs', e, Not(HasCategory(FuelReimbursement)), Amount);
      SumFilterSnoc(xs', e, HasCategory(FuelReimbursement), Amount);
    }
  }

  /** Without fuel reimbursements, total = reimbursements + net. */
  lemma NetWithoutCredits(xs: seq<Expense>)
    requires forall e :: e in xs ==> e.category != FuelReimbursement
    ensures Sum(xs, Amount) == TotalReimbursements(xs) + NetExpenses(xs)
  {
    NetExpensesRule(xs);
    FilterAll(xs, Not(HasCategory(FuelReimbursement)));
    FilterNone(xs, HasCategory(FuelReimbursement));
  }

  /** The month's net applies the overall rule to the records of today's month only. */
  lemma MonthlyIsNetOfMonth(xs: seq<Expense>, today: Date)
    ensures MonthlyExpenses(xs, today) == NetExpenses(Filter(xs, InMonthOf(today)))
  {
  }

  /** Adding a record changes the overall net by its signed amount less its reimbursement. */
  lemma NetAfterAdd(e: Expense, xs: seq<Expense>)
    ensures NetExpenses([e] + xs) == NetExpenses(xs) + Signed(e) - Reimbursement(e)
  {
    SumCons(e, xs, Signed);
    SumCons(e, xs, Reimbursement);
  }

  /** Adding a record dated in another month leaves the month's net unchanged; one dated this month changes it as the overall net. */
  lemma MonthlyAfterAdd(e: Expense, xs: seq<Expense>, today: Date)
    ensures MonthlyExpenses([e] + xs, today)
         == MonthlyExpenses(xs, today) + (if SameMonth(e.date, today) then Signed(e) - Reimbursement(e) else 0)
  {
    SumFilterCons(e, xs, InMonthOf(today), Signed);
    SumFilterCons(e, xs, InMonthOf(today), Reimbursement);
  }

  /** Adding a record changes a grocery-group sum over the records `q` selects by its amount exactly when it is a grocery-group record `q` selects. */
  lemma GrocerySumAfterAdd(e: Expense, xs: seq<Expense>, q: Expense -> bool)
    ensures Sum(Filter(GroceryExpenses([e] + xs), q), Amount)
         == Sum(Filter(GroceryExpenses(xs), q), Amount) + (if e.category in GroceryGroup && q(e) then e.amount else 0)
  {
    FilterCons(e, xs, InGroup(GroceryGroup));
    assert InGroup(GroceryGroup)(e) <==> e.category in GroceryGroup;
    if e.category in GroceryGroup {
      SumFilterCons(e, GroceryExpenses(xs), q, Amount);
    } else {
      assert GroceryExpenses([e] + xs) == [] + GroceryExpenses(xs) == GroceryExpenses(xs);
    }
  }

  /**
   * Adding a grocery-group record dated on or after the Sunday of today's week
   * raises this week's grocery spending by its amount; any other record leaves it unchanged.
   */
  lemma WeeklyGroceryAfterAdd(e: Expense, xs: seq<Expense>, today: Date)
    ensures WeeklyGroceryExpenses([e] + xs, today)
         == WeeklyGroceryExpenses(xs, today)
          + (if e.category in GroceryGroup && DayNumber(e.date) >= WeekStart(DayNumber(today)) then e.amount else 0)
  {
    GrocerySumAfterAdd(e, xs, OnOrAfter(WeekStart(DayNumber(today))));
  }

  /** Adding a grocery-group record dated in today's month raises this month's grocery spending by its amount; any other record leaves it unchanged. */
  lemma MonthlyGroceryAfterAdd(e: Expense, xs: seq<Expense>, today: Date)
    ensures MonthlyGroceryExpenses([e] + xs, today)
         == MonthlyGroceryExpenses(xs, today) + (if e.category in GroceryGroup && SameMonth(e.date, today) then e.amount else 0)
  {
    GrocerySumAfterAdd(e, xs, InMonthOf(today));
  }

  /** The records removed by a delete and the records kept split the overall net between them. */
  lemma NetAfterDelete(xs: seq<Expense>, id: string)
    ensures NetExpenses(xs) == NetExpenses(Filter(xs, Not(HasId(id)))) + NetExpenses(Filter(xs, HasId(id)))
  {
    SumPartition(xs, HasId(id), Signed);
    SumPartition(xs, HasId(id), Reimbursement);
  }

  /** Car spending is the car net plus the reimbursements shown beside it. */
  lemma CarSpentSplits(xs: seq<Expense>)
    ensures TotalCarSpent(xs) == NetCarExpenses(xs) + DisplayedCarReimbursements(xs)
  {
  }

  /**
   * Adding a car record raises the car net by its amount less its own
   * reimbursement; adding a fuel reimbursement lowers it by its amount; any
   * other record leaves it unchanged.
   */
  lemma CarNetAfterAdd(e: Expense, xs: seq<Expense>)
    ensures NetCarExpenses([e] + xs) == NetCarExpenses(xs) +
      (if e.category in CarGroup then e.amount - Reimbursement(e)
       else if e.category == FuelReimbursement then -e.amount
       else 0)
  {
    SumFilterCons(e, xs, InGroup(CarGroup), Amount);
    SumFilterCons(e, xs, InGroup(CarGroup), Reimbursement);
    SumFilterCons(e, xs, HasCategory(FuelReimbursement), Amount);
  }

  /**
   * On a list of car records and fuel reimbursements that carry no
   * reimbursement of their own, the overall net and the car net agree.
   */
  lemma {:induction false} NetIsCarNetForCarRecords(xs: seq<Expense>)
    requires forall e :: e in xs ==> e.category in CarGroup || (e.category == FuelReimbursement && Reimbursement(e) == 0)
    ensures NetExpenses(xs) == NetCarExpenses(xs)
    decreases |xs|
  {
    if xs != [] {
      var e, rest := xs[0], xs[1..];
      assert xs == [e] + rest;
      NetIsCarNetForCarRecords(rest);
      NetAfterAdd(e, rest);
      CarNetAfterAdd(e, rest);
    }
  }

  /** Grocery-group spending is the sum of its three categories. */
  lemma GroceryTotalSplits(xs: seq<Expense>)
    ensures TotalGrocerySpent(xs)
         == Sum(Filter(xs, HasCategory(Groceries)), Amount)
          + Sum(Filter(xs, HasCategory(Dining)), Amount)
          + Sum(Filter(xs, HasCategory(SmallShop)), Amount)
  {
    SumAcrossKeys(xs, CategoryOf, GroceryGroup, Amount);
    assert GroceryGroup[1..] == [Dining, SmallShop] && [Dining, SmallShop][1..] == [SmallShop];
    assert SumAcross(xs, CategoryOf, [SmallShop], Amount) == Sum(Filter(xs, HasCategory(SmallShop)), Amount) by {
      assert [SmallShop][1..] == [];
    }
    assert SumAcross(xs, CategoryOf, [Dining, SmallShop], Amount)
        == Sum(Filter(xs, HasCategory(Dining)), Amount) + SumAcross(xs, CategoryOf, [SmallShop], Amount);
  }

  // Properties of the category breakdown.

  /** Entries follow the order of the category list. */
  lemma {:induction false} BreakdownOrder(xs: seq<Expense>, cs: seq<string>)
    ensures IsSubsequence(CategoriesOf(Breakdown(xs, cs)), cs)
    decreases |cs|
  {
    if cs != [] {
      BreakdownOrder(xs, cs[1..]);
      var t := CategorySummary(xs, cs[0]);
      var rest := Breakdown(xs, cs[1..]);
      if t.count > 0 {
        assert Breakdown(xs, cs) == [t] + rest;
        assert CategoriesOf([t] + rest) == [cs[0]] + CategoriesOf(rest) by {
          assert ([t] + rest)[1..] == rest;
        }
      } else {
        assert Breakdown(xs, cs) == rest;
        SkipKeepsSubsequence(CategoriesOf(rest), cs);
      }
    }
  }

  /** A subsequence of `b[1..]` is a subsequence of `b`. */
  lemma {:induction false} SkipKeepsSubsequence(a: seq<string>, b: seq<string>)
    requires b != [] && IsSubsequence(a, b[1..])
    ensures IsSubsequence(a, b)
    decreases |b|, 0
  {
    if a != [] && a[0] == b[0] {
      DropHeadKeepsSubsequence(a, b[1..]);
    }
  }

  /** Removing the first element of a subsequence keeps it a subsequence. */
  lemma {:induction false} DropHeadKeepsSubsequence(a: seq<string>, b: seq<string>)
    requires a != [] && IsSubsequence(a, b)
    ensures IsSubsequence(a[1..], b)
    decreases |b|, 1
  {
    if a[0] == b[0] {
      SkipKeepsSubsequence(a[1..], b);
    } else {
      DropHeadKeepsSubsequence(a, b[1..]);
      SkipKeepsSubsequence(a[1..], b);
    }
  }

  /** A listed category has an entry exactly when some record has that category. */
  lemma {:induction false} BreakdownComplete(xs: seq<Expense>, cs: seq<string>, c: string)
    requires c in cs
    ensures CategorySummary(xs, c) in Breakdown(xs, cs) <==> |Filter(xs, HasCategory(c))| > 0
    decreases |cs|
  {
    if cs[0] != c {
      BreakdownComplete(xs, cs[1..], c);
    }
  }

  /** Summed over distinct categories, entry totals are the amount of the records in those categories. */
  lemma {:induction false} BreakdownSum(xs: seq<Expense>, cs: seq<string>)
    requires Distinct(cs)
    ensures SumOfTotals(Breakdown(xs, cs)) == Sum(Filter(xs, InGroup(cs)), Amount)
  {
    BreakdownSumAcross(xs, cs);
    SumAcrossKeys(xs, CategoryOf, cs, Amount);
  }

  lemma {:induction false} BreakdownSumAcross(xs: seq<Expense>, cs: seq<string>)
    ensures SumOfTotals(Breakdown(xs, cs)) == SumAcross(xs, CategoryOf, cs, Amount)
    decreases |cs|
  {
    if cs != [] {
      BreakdownSumAcross(xs, cs[1..]);
      var t := CategorySummary(xs, cs[0]);
      var rest := Breakdown(xs, cs[1..]);
      assert SumAcross(xs, CategoryOf, cs, Amount) == t.total + SumAcross(xs, CategoryOf, cs[1..], Amount);
      if t.count > 0 {
        assert Breakdown(xs, cs) == [t] + rest;
        assert ([t] + rest)[1..] == rest;
      } else {
        assert Breakdown(xs, cs) == rest;
      }
    }
  }

  /** The tracker's breakdown: in list order, one entry per category with records, totals adding up. */
  lemma CategoryTotalsProperties(xs: seq<Expense>)
    ensures IsSubsequence(CategoriesOf(CategoryTotals(xs)), Categories)
    ensures forall c :: c in Categories ==>
              (CategorySummary(xs, c) in CategoryTotals(xs) <==> |Filter(xs, HasCategory(c))| > 0)
    ensures SumOfTotals(CategoryTotals(xs)) == Sum(Filter(xs, InGroup(Categories)), Amount)
  {
    BreakdownOrder(xs, Categories);
    forall c | c in Categories
      ensures CategorySummary(xs, c) in CategoryTotals(xs) <==> |Filter(xs, HasCategory(c))| > 0
    {
      BreakdownComplete(xs, Categories, c);
    }
    CategoriesDistinct();
    BreakdownSum(xs, Categories);
  }

  /** The six category names differ from one another. */
  lemma CategoriesDistinct()
    ensures Distinct(Categories)
  {
  }

  // Worked examples.

  /** A fuel purchase of 100.00 with 20.00 reimbursable and a fuel reimbursement of 30.00: car net 50.00, reimbursements 50.00. */
  lemma CarNetExample(fuel: Expense, credit: Expense)
    requires fuel.category == CarFuel && fuel.amount == 10000 && fuel.reimbursementAmount == Some(2000)
    requires credit.category == FuelReimbursement && credit.amount == 3000 && credit.reimbursementAmount == None
    ensures NetCarExpenses([fuel, credit]) == 5000
    ensures DisplayedCarReimbursements([fuel, credit]) == 5000
  {
    assert fuel.category in CarGroup && credit.category !in CarGroup;
    var one, two := [credit], [fuel, credit];
    assert [credit] + [] == one && [fuel] + one == two;
    CarNetAfterAdd(credit, []);
    assert NetCarExpenses(one) == -3000;
    CarNetAfterAdd(fuel, one);
    SumFilterCons(credit, [], InGroup(CarGroup), Amount);
    assert TotalCarSpent(one) == 0;
    SumFilterCons(fuel, one, InGroup(CarGroup), Amount);
    assert TotalCarSpent(two) == 10000;
    CarSpentSplits(two);
  }
}
