/** The expense record shared by the pages and by the backend service, with
    the calendar dates it carries and the category list derived from it. */
module Expenses {

  datatype Option<+T> = None | Some(value: T)

  /** A calendar date, already parsed from its `YYYY-MM-DD` text. */
  datatype Date = Date(year: int, month: int, day: int)

  predicate IsLeapYear(year: int) {
    (year % 4 == 0 && year % 100 != 0) || year % 400 == 0
  }

  function DaysInMonth(year: int, month: int): (n: int)
    requires 1 <= month <= 12
    ensures 28 <= n <= 31
    ensures n == 31 <==> month in {1, 3, 5, 7, 8, 10, 12}
  {
    if month == 2 then (if IsLeapYear(year) then 29 else 28)
    else if month in {4, 6, 9, 11} then 30
    else 31
  }

  predicate ValidDate(d: Date) {
    1 <= d.month <= 12 && 1 <= d.day <= DaysInMonth(d.year, d.month)
  }

  /** `a` is a strictly later calendar day than `b`. */
  predicate Later(a: Date, b: Date) {
    a.year > b.year ||
    (a.year == b.year && (a.month > b.month || (a.month == b.month && a.day > b.day)))
  }

  lemma LaterIsStrictTotalOrder(a: Date, b: Date, c: Date)
    ensures !Later(a, a)
    ensures Later(a, b) ==> !Later(b, a)
    ensures Later(a, b) && Later(b, c) ==> Later(a, c)
    ensures !Later(a, b) && !Later(b, a) ==> a == b
  {
  }

  /** The day before a valid date. */
  function PrevDay(d: Date): (r: Date)
    requires ValidDate(d)
    ensures ValidDate(r) && Later(d, r)
  {
    if d.day > 1 then Date(d.year, d.month, d.day - 1)
    else if d.month > 1 then Date(d.year, d.month - 1, DaysInMonth(d.year, d.month - 1))
    else Date(d.year - 1, 12, 31)
  }

  /** One persisted expense. `notes` is the empty string when none were given. */
  datatype Expense = Expense(
    id: int,
    description: string,
    amount: real,
    category: string,
    date: Date,
    notes: string)

  predicate AllDatesValid(xs: seq<Expense>) {
    forall i :: 0 <= i < |xs| ==> ValidDate(xs[i].date)
  }

  predicate NoDuplicates<T(==)>(s: seq<T>) {
    forall i, j :: 0 <= i < j < |s| ==> s[i] != s[j]
  }

  predicate HasCategory(xs: seq<Expense>, c: string) {
    exists i :: 0 <= i < |xs| && xs[i].category == c
  }

  /** Position of the first record of category `c`. */
  function FirstIndex(xs: seq<Expense>, c: string): (i: nat)
    requires HasCategory(xs, c)
    ensures i < |xs| && xs[i].category == c
    ensures forall j :: 0 <= j < i ==> xs[j].category != c
  {
    var p := xs[..|xs| - 1];
    if HasCategory(p, c) then FirstIndex(p, c)
    else
      assert forall j :: 0 <= j < |p| ==> p[j] == xs[j];
      |xs| - 1
  }

  /** The categories of `xs` without repeats, in order of first occurrence:
      what a JavaScript `Set` built from the categories iterates. */
  function UniqueCategories(xs: seq<Expense>): (r: seq<string>)
    ensures NoDuplicates(r)
    ensures forall c :: c in r <==> HasCategory(xs, c)
  {
    if xs == [] then []
    else
      var p := xs[..|xs| - 1];
      var c := xs[|xs| - 1].category;
      var prev := UniqueCategories(p);
      assert forall k :: HasCategory(xs, k) <==> HasCategory(p, k) || k == c by {
        forall k ensures HasCategory(xs, k) <==> HasCategory(p, k) || k == c {
          if HasCategory(xs, k) {
            var i :| 0 <= i < |xs| && xs[i].category == k;
            if i < |p| { assert p[i] == xs[i]; }
          }
          if HasCategory(p, k) {
            var i :| 0 <= i < |p| && p[i].category == k;
            assert xs[i] == p[i];
          }
        }
      }
      if c in prev then prev else prev + [c]
  }

  /** Every entry of `r` is a category of `xs`, and `r` lists them in the
      order in which they first occur in `xs`. */
  predicate InFirstOccurrenceOrder(xs: seq<Expense>, r: seq<string>) {
    (forall i :: 0 <= i < |r| ==> HasCategory(xs, r[i])) &&
    forall i, j :: 0 <= i < j < |r| ==> FirstIndex(xs, r[i]) < FirstIndex(xs, r[j])
  }

  /** The category list keeps the order in which categories first occur. */
  lemma {:induction false} UniqueCategoriesInFirstOccurrenceOrder(xs: seq<Expense>)
    ensures InFirstOccurrenceOrder(xs, UniqueCategories(xs))
  {
    if xs != [] {
      var p := xs[..|xs| - 1];
      var c := xs[|xs| - 1].category;
      UniqueCategoriesInFirstOccurrenceOrder(p);
      var prev := UniqueCategories(p);
      var r := UniqueCategories(xs);
      forall i, j | 0 <= i < j < |r|
        ensures FirstIndex(xs, r[i]) < FirstIndex(xs, r[j])
      {
        assert HasCategory(p, r[i]);
        assert FirstIndex(xs, r[i]) == FirstIndex(p, r[i]);
        if j < |prev| {
          assert HasCategory(p, r[j]);
          assert FirstIndex(xs, r[j]) == FirstIndex(p, r[j]);
          assert r[i] == prev[i] && r[j] == prev[j];
          assert FirstIndex(p, prev[i]) < FirstIndex(p, prev[j]);
        } else {
          assert r[j] == c && !HasCategory(p, c);
          assert FirstIndex(xs, c) == |p|;
        }
      }
    }
  }
}
