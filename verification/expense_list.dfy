/** The expense list page: the filter bar that picks one query endpoint,
    confirmation-gated delete from the list held by the page, and the
    category dropdown built from the fetched list. */
module ExpenseList {
  import opened Expenses
  import opened Gateway

  const FetchFailed := "Failed to fetch expenses. Please try again later."
  const DeleteFailed := "Failed to delete expense. Please try again later."
  const FilterFailed := "Failed to filter expenses. Please try again later."

  /** The query the filter bar issues. The empty category and a missing date
      count as unset; a date range is used only when both ends are set. */
  function FilterRequest(category: string, startDate: Option<Date>, endDate: Option<Date>): (r: Request)
    ensures r.ByCategoryAndDateRange? <==> category != "" && startDate.Some? && endDate.Some?
    ensures r.ByDateRange? <==> category == "" && startDate.Some? && endDate.Some?
    ensures r.ByCategory? <==> category != "" && (startDate.None? || endDate.None?)
    ensures r.GetAll? <==> category == "" && (startDate.None? || endDate.None?)
    ensures r.ByCategoryAndDateRange? ==>
      r.category == category && Some(r.startDate) == startDate && Some(r.endDate) == endDate
    ensures r.ByDateRange? ==> Some(r.startDate) == startDate && Some(r.endDate) == endDate
    ensures r.ByCategory? ==> r.category == category
  {
    if category != "" && startDate.Some? && endDate.Some? then
      ByCategoryAndDateRange(category, startDate.value, endDate.value)
    else if startDate.Some? && endDate.Some? then
      ByDateRange(startDate.value, endDate.value)
    else if category != "" then
      ByCategory(category)
    else
      GetAll
  }

  /** The two worked cases of the decision table. */
  lemma FilterRequestExamples()
    ensures FilterRequest("Food", Some(Date(2024, 1, 1)), Some(Date(2024, 1, 31))) ==
      ByCategoryAndDateRange("Food", Date(2024, 1, 1), Date(2024, 1, 31))
    ensures FilterRequest("", Some(Date(2024, 1, 1)), None) == GetAll
    ensures FilterRequest("Food", Some(Date(2024, 1, 1)), None) == ByCategory("Food")
  {
  }

  /** The list without the records of `id`, in their original order. */
  function RemoveId(xs: seq<Expense>, id: int): (r: seq<Expense>)
    ensures forall i :: 0 <= i < |r| ==> r[i].id != id
  {
    if xs == [] then []
    else (if xs[0].id == id then [] else [xs[0]]) + RemoveId(xs[1..], id)
  }

  /** Exactly the records of `id` are removed: every other record keeps its
      number of occurrences. */
  lemma {:induction false} RemoveIdContents(xs: seq<Expense>, id: int)
    ensures forall e :: multiset(RemoveId(xs, id))[e] == if e.id == id then 0 else multiset(xs)[e]
  {
    if xs != [] {
      RemoveIdContents(xs[1..], id);
      assert xs == [xs[0]] + xs[1..];
      var head := if xs[0].id == id then [] else [xs[0]];
      assert multiset(RemoveId(xs, id)) == multiset(head) + multiset(RemoveId(xs[1..], id));
    }
  }

  /** Removal works record by record: removing from a concatenation is
      concatenating the removals, so the kept records keep their order. */
  lemma {:induction false} RemoveIdAppend(a: seq<Expense>, b: seq<Expense>, id: int)
    ensures RemoveId(a + b, id) == RemoveId(a, id) + RemoveId(b, id)
  {
    if a != [] {
      var head := if a[0].id == id then [] else [a[0]];
      assert (a + b)[0] == a[0] && (a + b)[1..] == a[1..] + b;
      assert RemoveId(a + b, id) == head + RemoveId(a[1..] + b, id);
      assert RemoveId(a, id) == head + RemoveId(a[1..], id);
      RemoveIdAppend(a[1..], b, id);
    } else {
      assert a + b == b;
    }
  }

  /** The day that `toISOString().split('T')[0]` gives for local midnight of
      `d` in a time zone `offsetMinutes` east of UTC: east of UTC, local
      midnight is still the previous day in UTC. */
  function IsoDateOfLocalMidnight(d: Date, offsetMinutes: int): (r: Date)
    requires ValidDate(d) && -720 <= offsetMinutes <= 840
    ensures ValidDate(r)
  {
    if offsetMinutes > 0 then PrevDay(d) else d
  }

  /** As written, the query carries the picked day exactly when the browser
      is not east of UTC; east of UTC both bounds move one day earlier. */
  lemma IsoDateShift(d: Date, offsetMinutes: int)
    requires ValidDate(d) && -720 <= offsetMinutes <= 840
    ensures IsoDateOfLocalMidnight(d, offsetMinutes) == d <==> offsetMinutes <= 0
  {
    LaterIsStrictTotalOrder(d, PrevDay(d), d);
  }

  /** In UTC+2, picking 1 January 2024 as the start sends 2023-12-31. */
  lemma IsoDateShiftExample()
    ensures IsoDateOfLocalMidnight(Date(2024, 1, 1), 120) == Date(2023, 12, 31)
  {
  }

  class ExpenseListPage {
    var expenses: seq<Expense>
    var loading: bool
    var error: Option<string>
    var filterCategory: string
    var startDate: Option<Date>
    var endDate: Option<Date>
    var categories: seq<string>

    constructor ()
      ensures expenses == [] && loading && error == None
      ensures filterCategory == "" && startDate == None && endDate == None
      ensures categories == []
    {
      expenses := [];
      loading := true;
      error := None;
      filterCategory := "";
      startDate := None;
      endDate := None;
      categories := [];
    }

    /** Loads every expense and rebuilds the category dropdown from them. */
    method FetchExpenses(reply: Reply<seq<Expense>>) returns (request: Request)
      modifies this
      ensures request == GetAll && !loading
      ensures reply.Ok? ==>
        expenses == reply.data && categories == UniqueCategories(reply.data) && error == None
      ensures reply.Failed? ==>
        expenses == old(expenses) && categories == old(categories) && error == Some(FetchFailed)
      ensures filterCategory == old(filterCategory)
      ensures startDate == old(startDate) && endDate == old(endDate)
    {
      loading := true;
      request := GetAll;
      if reply.Ok? {
        expenses := reply.data;
        categories := UniqueCategories(reply.data);
        error := None;
      } else {
        error := Some(FetchFailed);
      }
      loading := false;
    }

    /** Deletes after the user confirms; on success the records of `id` are
        dropped from the list held by the page, without fetching it again. */
    method HandleDelete(id: int, confirmed: bool, reply: Reply<()>) returns (request: Option<Request>)
      modifies this
      ensures !confirmed ==> request == None
      ensures confirmed ==> request == Some(Delete(id))
      ensures confirmed && reply.Ok? ==> expenses == RemoveId(old(expenses), id) && error == old(error)
      ensures confirmed && reply.Failed? ==> expenses == old(expenses) && error == Some(DeleteFailed)
      ensures !confirmed ==> expenses == old(expenses) && error == old(error)
      ensures loading == old(loading) && categories == old(categories)
      ensures filterCategory == old(filterCategory)
      ensures startDate == old(startDate) && endDate == old(endDate)
    {
      request := None;
      if confirmed {
        request := Some(Delete(id));
        if reply.Ok? {
          expenses := RemoveId(expenses, id);
        } else {
          error := Some(DeleteFailed);
        }
      }
    }

    /** Issues the one query the filter fields select; its result replaces
        the list. The dropdown keeps the categories it had. */
    method HandleFilter(reply: Reply<seq<Expense>>) returns (request: Request)
      modifies this
      ensures request == FilterRequest(filterCategory, startDate, endDate)
      ensures !loading
      ensures reply.Ok? ==> expenses == reply.data && error == None
      ensures reply.Failed? ==> expenses == old(expenses) && error == Some(FilterFailed)
      ensures categories == old(categories)
      ensures filterCategory == old(filterCategory)
      ensures startDate == old(startDate) && endDate == old(endDate)
    {
      loading := true;
      if filterCategory != "" && startDate.Some? && endDate.Some? {
        request := ByCategoryAndDateRange(filterCategory, startDate.value, endDate.value);
      } else if startDate.Some? && endDate.Some? {
        request := ByDateRange(startDate.value, endDate.value);
      } else if filterCategory != "" {
        request := ByCategory(filterCategory);
      } else {
        request := GetAll;
      }
      if reply.Ok? {
        expenses := reply.data;
        error := None;
      } else {
        error := Some(FilterFailed);
      }
      loading := false;
    }

    /** Resets the three filter fields and loads every expense again. */
    method ClearFilters(reply: Reply<seq<Expense>>) returns (request: Request)
      modifies this
      ensures filterCategory == "" && startDate == None && endDate == None
      ensures request == GetAll && request == FilterRequest(filterCategory, startDate, endDate)
      ensures !loading
      ensures reply.Ok? ==>
        expenses == reply.data && categories == UniqueCategories(reply.data) && error == None
      ensures reply.Failed? ==>
        expenses == old(expenses) && categories == old(categories) && error == Some(FetchFailed)
    {
      filterCategory := "";
      startDate := None;
      endDate := None;
      request := FetchExpenses(reply);
    }

    method SetFilterCategory(category: string)
      modifies this
      ensures filterCategory == category
      ensures startDate == old(startDate) && endDate == old(endDate)
      ensures expenses == old(expenses) && categories == old(categories)
      ensures error == old(error) && loading == old(loading)
    {
      filterCategory := category;
    }

    method SetStartDate(date: Option<Date>)
      modifies this
      ensures startDate == date
      ensures filterCategory == old(filterCategory) && endDate == old(endDate)
      ensures expenses == old(expenses) && categories == old(categories)
      ensures error == old(error) && loading == old(loading)
    {
      startDate := date;
    }

    method SetEndDate(date: Option<Date>)
      modifies this
      ensures endDate == date
      ensures filterCategory == old(filterCategory) && startDate == old(startDate)
      ensures expenses == old(expenses) && categories == old(categories)
      ensures error == old(error) && loading == old(loading)
    {
      endDate := date;
    }
  }
}
