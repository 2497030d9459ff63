/** The dashboard page: overall total and average, per-category and
    per-month totals for its two charts, and the five most recent expenses. */
module Dashboard {
  import opened Expenses
  import opened Gateway

  const FetchFailed := "Failed to fetch expense data. Please try again later."

  const MonthLabels: seq<string> :=
    ["Jan", "Feb", "Mar", "Apr", "May", "Jun", "Jul", "Aug", "Sep", "Oct", "Nov", "Dec"]

  /** The labels and data of one chart. */
  datatype Chart = Chart(labels: seq<string>, data: seq<real>)

  function Last<T>(s: seq<T>): T requires s != [] { s[|s| - 1] }
  function Init<T>(s: seq<T>): seq<T> requires s != [] { s[..|s| - 1] }

  function SumReals(s: seq<real>): real {
    if s == [] then 0.0 else SumReals(Init(s)) + Last(s)
  }

  // ---------------------------------------------------------------------
  // Total and average

  /** The running sum of all amounts, left to right, starting from 0. */
  function Total(xs: seq<Expense>): real {
    if xs == [] then 0.0 else Total(Init(xs)) + Last(xs).amount
  }

  /** The total does not depend on how the list is split. */
  lemma {:induction false} TotalAppend(a: seq<Expense>, b: seq<Expense>)
    ensures Total(a + b) == Total(a) + Total(b)
  {
    if b != [] {
      assert Init(a + b) == a + Init(b);
      TotalAppend(a, Init(b));
    } else {
      assert a + b == a;
    }
  }

  /** With positive amounts, the total is positive exactly when there is a
      record. */
  lemma {:induction false} TotalPositive(xs: seq<Expense>)
    requires forall i :: 0 <= i < |xs| ==> xs[i].amount > 0.0
    ensures xs == [] <==> Total(xs) == 0.0
    ensures Total(xs) >= 0.0
  {
    if xs != [] {
      TotalPositive(Init(xs));
    }
  }

  // ---------------------------------------------------------------------
  // Category chart

  /** The sum of the amounts of category `c`. */
  function CategoryTotal(xs: seq<Expense>, c: string): real {
    if xs == [] then 0.0
    else CategoryTotal(Init(xs), c) + (if Last(xs).category == c then Last(xs).amount else 0.0)
  }

  /** The totals of the given categories, in the order given. */
  function CategoryColumns(keys: seq<string>, xs: seq<Expense>): (r: seq<real>)
    ensures |r| == |keys|
    ensures forall i :: 0 <= i < |keys| ==> r[i] == CategoryTotal(xs, keys[i])
  {
    if keys == [] then [] else CategoryColumns(Init(keys), xs) + [CategoryTotal(xs, Last(keys))]
  }

  /** The data of the category chart: one total per distinct category. */
  function CategoryAmounts(xs: seq<Expense>): seq<real> {
    CategoryColumns(UniqueCategories(xs), xs)
  }

  lemma {:induction false} CategoryTotalAbsent(xs: seq<Expense>, c: string)
    requires !HasCategory(xs, c)
    ensures CategoryTotal(xs, c) == 0.0
  {
    if xs != [] {
      assert !HasCategory(Init(xs), c);
      CategoryTotalAbsent(Init(xs), c);
    }
  }

  /** Adding one record to the list adds its amount to the sum of the
      columns of distinct keys exactly when its category is one of them. */
  lemma {:induction false} CategoryColumnsStep(keys: seq<string>, p: seq<Expense>, e: Expense)
    requires NoDuplicates(keys)
    ensures SumReals(CategoryColumns(keys, p + [e])) ==
      SumReals(CategoryColumns(keys, p)) + (if e.category in keys then e.amount else 0.0)
  {
    if keys != [] {
      var ks, k := Init(keys), Last(keys);
      assert keys == ks + [k];
      CategoryColumnsStep(ks, p, e);
      assert Init(p + [e]) == p;
      assert e.category in keys <==> e.category in ks || e.category == k;
      assert k !in ks;
    }
  }

  /** The category buckets add up to the overall total. */
  lemma {:induction false} CategoryAmountsSumToTotal(xs: seq<Expense>)
    ensures SumReals(CategoryAmounts(xs)) == Total(xs)
  {
    if xs != [] {
      var p, e := Init(xs), Last(xs);
      assert xs == p + [e];
      CategoryAmountsSumToTotal(p);
      var prev := UniqueCategories(p);
      CategoryColumnsStep(prev, p, e);
      if e.category !in prev {
        assert UniqueCategories(xs) == prev + [e.category];
        CategoryTotalAbsent(p, e.category);
      }
    }
  }

  /** Builds the category chart as the page does: a dictionary filled in one
      pass, whose running total is overwritten rather than added to when it
      reads as false (absent or 0). Its keys keep insertion order. */
  method ProcessCategoryData(xs: seq<Expense>) returns (chart: Chart)
    ensures chart.labels == UniqueCategories(xs)
    ensures chart.data == CategoryAmounts(xs)
  {
    var keys: seq<string> := [];
    var amounts: map<string, real> := map[];
    var k := 0;
    while k < |xs|
      invariant 0 <= k <= |xs|
      invariant keys == UniqueCategories(xs[..k])
      invariant forall c :: c in amounts <==> c in keys
      invariant forall c :: c in amounts ==> amounts[c] == CategoryTotal(xs[..k], c)
    {
      var category := xs[k].category;
      var amount := xs[k].amount;
      assert Init(xs[..k + 1]) == xs[..k] && Last(xs[..k + 1]) == xs[k];
      assert forall c :: (CategoryTotal(xs[..k + 1], c) ==
        CategoryTotal(xs[..k], c) + (if category == c then amount else 0.0));
      if category in amounts && amounts[category] != 0.0 {
        amounts := amounts[category := amounts[category] + amount];
      } else {
        if category !in amounts {
          CategoryTotalAbsent(xs[..k], category);
          keys := keys + [category];
        }
        amounts := amounts[category := amount];
      }
      k := k + 1;
    }
    assert xs[..|xs|] == xs;
    chart := Chart(keys, seq(|keys|, i requires 0 <= i < |keys| => amounts[keys[i]]));
  }

  // ---------------------------------------------------------------------
  // Monthly chart

  /** The bucket a record's date falls in: its calendar month, counted from
      0 as `getMonth` does. */
  function MonthIndex(d: Date): (i: int)
    requires ValidDate(d)
    ensures 0 <= i < 12 && i + 1 == d.month
  {
    d.month - 1
  }

  /** The sum of the amounts dated in month `i` (counted from 0) of any year. */
  function MonthTotal(xs: seq<Expense>, i: int): real {
    if xs == [] then 0.0
    else MonthTotal(Init(xs), i) + (if Last(xs).date.month - 1 == i then Last(xs).amount else 0.0)
  }

  function MonthColumns(xs: seq<Expense>, n: nat): (r: seq<real>)
    ensures |r| == n
    ensures forall i :: 0 <= i < n ==> r[i] == MonthTotal(xs, i)
  {
    if n == 0 then [] else MonthColumns(xs, n - 1) + [MonthTotal(xs, n - 1)]
  }

  /** The data of the monthly chart: twelve buckets, January first. */
  function MonthlyAmounts(xs: seq<Expense>): seq<real> {
    MonthColumns(xs, 12)
  }

  /** Each record adds its amount to exactly one bucket, that of its month,
      whatever its year. */
  lemma MonthlyAmountsStep(p: seq<Expense>, e: Expense)
    requires ValidDate(e.date)
    ensures var before, after := MonthlyAmounts(p), MonthlyAmounts(p + [e]);
      |after| == 12 &&
      after == before[MonthIndex(e.date) := before[MonthIndex(e.date)] + e.amount]
  {
  }

  lemma {:induction false} MonthColumnsStep(n: nat, p: seq<Expense>, e: Expense)
    ensures SumReals(MonthColumns(p + [e], n)) ==
      SumReals(MonthColumns(p, n)) + (if 0 <= e.date.month - 1 < n then e.amount else 0.0)
  {
    if n > 0 {
      MonthColumnsStep(n - 1, p, e);
      var a, b := MonthColumns(p + [e], n), MonthColumns(p, n);
      assert a == MonthColumns(p + [e], n - 1) + [MonthTotal(p + [e], n - 1)];
      assert b == MonthColumns(p, n - 1) + [MonthTotal(p, n - 1)];
      assert Init(a) == MonthColumns(p + [e], n - 1) && Last(a) == MonthTotal(p + [e], n - 1);
      assert Init(b) == MonthColumns(p, n - 1) && Last(b) == MonthTotal(p, n - 1);
      assert Init(p + [e]) == p && Last(p + [e]) == e;
      assert MonthTotal(p + [e], n - 1) ==
        MonthTotal(p, n - 1) + (if e.date.month - 1 == n - 1 then e.amount else 0.0);
    }
  }

  lemma {:induction false} MonthColumnsOfNothing(n: nat)
    ensures SumReals(MonthColumns([], n)) == 0.0
  {
    if n > 0 {
      MonthColumnsOfNothing(n - 1);
      assert Init(MonthColumns([], n)) == MonthColumns([], n - 1);
    }
  }

  /** The twelve month buckets add up to the overall total. */
  lemma {:induction false} MonthlyAmountsSumToTotal(xs: seq<Expense>)
    requires AllDatesValid(xs)
    ensures SumReals(MonthlyAmounts(xs)) == Total(xs)
  {
    if xs == [] {
      MonthColumnsOfNothing(12);
    } else {
      var p, e := Init(xs), Last(xs);
      assert xs == p + [e];
      assert ValidDate(e.date);
      assert AllDatesValid(p) by {
        forall i | 0 <= i < |p| ensures ValidDate(p[i].date) { assert p[i] == xs[i]; }
      }
      MonthlyAmountsSumToTotal(p);
      MonthColumnsStep(12, p, e);
      assert MonthlyAmounts(xs) == MonthColumns(p + [e], 12);
      assert Total(xs) == Total(p) + e.amount;
    }
  }

  /** Builds the monthly chart as the page does: twelve buckets set to 0,
      then one pass adding each amount to its month's bucket. */
  method ProcessMonthlyData(xs: seq<Expense>) returns (chart: Chart)
    requires AllDatesValid(xs)
    ensures chart.labels == MonthLabels
    ensures chart.data == MonthlyAmounts(xs)
  {
    var months := MonthLabels;
    assert forall i, j :: 0 <= i < j < 12 ==> months[i] != months[j];
    var monthlyAmounts: map<string, real> := map[];
    var m := 0;
    while m < 12
      invariant 0 <= m <= 12
      invariant forall i :: 0 <= i < m ==> months[i] in monthlyAmounts && monthlyAmounts[months[i]] == 0.0
    {
      monthlyAmounts := monthlyAmounts[months[m] := 0.0];
      m := m + 1;
    }
    var k := 0;
    while k < |xs|
      invariant 0 <= k <= |xs|
      invariant forall i :: 0 <= i < 12 ==>
        months[i] in monthlyAmounts && monthlyAmounts[months[i]] == MonthTotal(xs[..k], i)
    {
      var month := months[MonthIndex(xs[k].date)];
      var amount := xs[k].amount;
      assert Init(xs[..k + 1]) == xs[..k] && Last(xs[..k + 1]) == xs[k];
      monthlyAmounts := monthlyAmounts[month := monthlyAmounts[month] + amount];
      k := k + 1;
    }
    assert xs[..|xs|] == xs;
    chart := Chart(months, seq(12, i requires 0 <= i < 12 => monthlyAmounts[months[i]]));
  }

  // ---------------------------------------------------------------------
  // Recent expenses

  /** Places `x` before the first record that is not later than it, so that
      `x` precedes every record of its own date. */
  function InsertByDate(x: Expense, s: seq<Expense>): (r: seq<Expense>)
    ensures multiset(r) == multiset(s) + multiset{x}
  {
    if s == [] || !Later(s[0].date, x.date) then [x] + s
    else
      assert s == [s[0]] + s[1..];
      [s[0]] + InsertByDate(x, s[1..])
  }

  /** A stable sort by date, latest first. */
  function SortByDateDesc(xs: seq<Expense>): (r: seq<Expense>)
    ensures multiset(r) == multiset(xs)
  {
    if xs == [] then []
    else
      assert xs == [xs[0]] + xs[1..];
      InsertByDate(xs[0], SortByDateDesc(xs[1..]))
  }

  predicate SortedByDateDesc(s: seq<Expense>) {
    forall i, j :: 0 <= i < j < |s| ==> !Later(s[j].date, s[i].date)
  }

  /** The records of `xs` dated `d`, in their order in `xs`. */
  function OnDate(xs: seq<Expense>, d: Date): seq<Expense> {
    if xs == [] then []
    else (if xs[0].date == d then [xs[0]] else []) + OnDate(xs[1..], d)
  }

  lemma {:induction false} InsertByDateSorted(x: Expense, s: seq<Expense>)
    requires SortedByDateDesc(s)
    ensures SortedByDateDesc(InsertByDate(x, s))
  {
    var r := InsertByDate(x, s);
    if s == [] || !Later(s[0].date, x.date) {
      forall i, j | 0 <= i < j < |r| ensures !Later(r[j].date, r[i].date) {
        if i == 0 {
          LaterIsStrictTotalOrder(r[j].date, s[0].date, x.date);
        }
      }
    } else {
      InsertByDateSorted(x, s[1..]);
      var t := InsertByDate(x, s[1..]);
      forall i, j | 0 <= i < j < |r| ensures !Later(r[j].date, r[i].date) {
        if i == 0 {
          assert r[j] in multiset(t);
          assert r[j] in multiset(s[1..]) + multiset{x};
          if r[j] == x {
            LaterIsStrictTotalOrder(x.date, s[0].date, x.date);
          } else {
            assert r[j] in s[1..];
          }
        }
      }
    }
  }

  lemma {:induction false} SortByDateDescSorted(xs: seq<Expense>)
    ensures SortedByDateDesc(SortByDateDesc(xs))
  {
    if xs != [] {
      SortByDateDescSorted(xs[1..]);
      InsertByDateSorted(xs[0], SortByDateDesc(xs[1..]));
    }
  }

  lemma {:induction false} InsertByDateOnDate(x: Expense, s: seq<Expense>, d: Date)
    ensures OnDate(InsertByDate(x, s), d) ==
      (if x.date == d then [x] else []) + OnDate(s, d)
  {
    if s == [] || !Later(s[0].date, x.date) {
      assert ([x] + s)[1..] == s;
    } else {
      InsertByDateOnDate(x, s[1..], d);
      assert ([s[0]] + InsertByDate(x, s[1..]))[1..] == InsertByDate(x, s[1..]);
      LaterIsStrictTotalOrder(s[0].date, x.date, x.date);
    }
  }

  /** The sort is stable: for every date, the records of that date keep their
      input order. */
  lemma {:induction false} SortByDateDescStable(xs: seq<Expense>, d: Date)
    ensures OnDate(SortByDateDesc(xs), d) == OnDate(xs, d)
  {
    if xs != [] {
      SortByDateDescStable(xs[1..], d);
      InsertByDateOnDate(xs[0], SortByDateDesc(xs[1..]), d);
    }
  }

  /** The five most recent records: a sorted copy, cut to its first five. */
  function Recent(xs: seq<Expense>): seq<Expense> {
    var sorted := SortByDateDesc(xs);
    if |sorted| <= 5 then sorted else sorted[..5]
  }

  /** The recent view has min(5, n) records, latest first, each taken from
      the list; and no record left out is later than one kept. */
  lemma RecentProperties(xs: seq<Expense>)
    ensures |Recent(xs)| == if |xs| < 5 then |xs| else 5
    ensures SortedByDateDesc(Recent(xs))
    ensures multiset(Recent(xs)) <= multiset(xs)
    ensures forall e, i :: 0 <= i < |Recent(xs)| && multiset(Recent(xs))[e] < multiset(xs)[e] ==>
      !Later(e.date, Recent(xs)[i].date)
  {
    var sorted := SortByDateDesc(xs);
    assert |sorted| == |multiset(sorted)| == |xs|;
    SortByDateDescSorted(xs);
    var r := Recent(xs);
    if |sorted| > 5 {
      assert sorted == r + sorted[5..];
      assert multiset(sorted) == multiset(r) + multiset(sorted[5..]);
      forall e, i | 0 <= i < |r| && multiset(r)[e] < multiset(xs)[e]
        ensures !Later(e.date, r[i].date)
      {
        assert e in multiset(sorted[5..]);
        var j :| 5 <= j < |sorted| && sorted[j] == e;
        assert sorted[i] == r[i];
      }
    }
  }

  // ---------------------------------------------------------------------
  // Month bucket of a date text, as the page computes it

  /** The month (from 1) that `new Date(text).getMonth()` reports for the
      date text of `d` in a time zone `offsetMinutes` east of UTC: the text
      is read as midnight UTC, and the month is read in local time, so west
      of UTC the instant falls on the previous local day. */
  function LocalMonthOfDateText(d: Date, offsetMinutes: int): (m: int)
    requires ValidDate(d) && -720 <= offsetMinutes <= 840
    ensures 1 <= m <= 12
  {
    if offsetMinutes < 0 then PrevDay(d).month else d.month
  }

  /** As written, a record lands in another month's bucket exactly when it is
      dated the 1st of a month and the browser is west of UTC. */
  lemma LocalMonthShift(d: Date, offsetMinutes: int)
    requires ValidDate(d) && -720 <= offsetMinutes <= 840
    ensures LocalMonthOfDateText(d, offsetMinutes) != MonthIndex(d) + 1 <==>
      offsetMinutes < 0 && d.day == 1
  {
  }

  /** An expense dated 1 March 2024, seen in UTC-5, is counted under "Feb". */
  lemma LocalMonthShiftExample()
    ensures LocalMonthOfDateText(Date(2024, 3, 1), -300) == 2
    ensures MonthLabels[LocalMonthOfDateText(Date(2024, 3, 1), -300) - 1] == "Feb"
    ensures MonthLabels[MonthIndex(Date(2024, 3, 1))] == "Mar"
  {
  }

  // ---------------------------------------------------------------------
  // The page

  class DashboardPage {
    var expenses: seq<Expense>
    var loading: bool
    var error: Option<string>
    var totalExpense: real
    var categoryData: Option<Chart>   // None while the chart data is still `{}`
    var monthlyData: Option<Chart>

    constructor ()
      ensures expenses == [] && loading && error == None && totalExpense == 0.0
      ensures categoryData == None && monthlyData == None
    {
      expenses := [];
      loading := true;
      error := None;
      totalExpense := 0.0;
      categoryData := None;
      monthlyData := None;
    }

    /** Loads all expenses and recomputes the total and both charts; on a
        failed call only the error message changes. */
    method FetchExpenses(reply: Reply<seq<Expense>>) returns (request: Request)
      requires reply.Ok? ==> AllDatesValid(reply.data)
      modifies this
      ensures request == GetAll
      ensures !loading
      ensures reply.Ok? ==>
        expenses == reply.data && totalExpense == Total(reply.data) && error == None &&
        categoryData == Some(Chart(UniqueCategories(reply.data), CategoryAmounts(reply.data))) &&
        monthlyData == Some(Chart(MonthLabels, MonthlyAmounts(reply.data)))
      ensures reply.Failed? ==>
        error == Some(FetchFailed) && expenses == old(expenses) &&
        totalExpense == old(totalExpense) &&
        categoryData == old(categoryData) && monthlyData == old(monthlyData)
    {
      loading := true;
      request := GetAll;
      if reply.Ok? {
        var expenseData := reply.data;
        var total := Total(expenseData);
        var byCategory := ProcessCategoryData(expenseData);
        var byMonth := ProcessMonthlyData(expenseData);
        expenses := expenseData;
        totalExpense := total;
        categoryData := Some(byCategory);
        monthlyData := Some(byMonth);
        error := None;
      } else {
        error := Some(FetchFailed);
      }
      loading := false;
    }

    /** The average card: total over count, and 0 when there are no
        expenses. */
    function AverageExpense(): (r: real)
      reads this
      ensures |expenses| == 0 ==> r == 0.0
      ensures |expenses| > 0 ==> r * (|expenses| as real) == totalExpense
    {
      if |expenses| > 0 then totalExpense / (|expenses| as real) else 0.0
    }

    /** The recent table sorts a copy, so it reads the expenses but cannot
        change them. */
    method GetRecentExpenses() returns (recent: seq<Expense>)
      ensures recent == Recent(expenses)
    {
      var copy := expenses;
      var sorted := SortByDateDesc(copy);
      recent := if |sorted| <= 5 then sorted else sorted[..5];
    }
  }
}
