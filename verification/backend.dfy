/** The backend expense service over its repository, the repository being a
    store of records keyed by id. */
module Backend {
  import opened Expenses

  /** A value, or the message of the exception thrown instead. */
  datatype Result<T> = Ok(value: T) | Err(message: string)

  /** The value of a decimal digit character. */
  function DigitValue(c: char): int {
    c as int - '0' as int
  }

  function DigitChar(d: nat): (c: char)
    requires d < 10
    ensures '0' <= c <= '9' && DigitValue(c) == d
  {
    "0123456789"[d]
  }

  /** The number a text of decimal digits stands for, most significant digit
      first. */
  function DecimalValue(s: string): int {
    if s == [] then 0 else DecimalValue(s[..|s| - 1]) * 10 + DigitValue(s[|s| - 1])
  }

  /** The decimal text of a natural number. */
  function Digits(n: nat): (s: string)
    ensures |s| >= 1
    ensures forall i :: 0 <= i < |s| ==> '0' <= s[i] <= '9'
  {
    if n < 10 then [DigitChar(n)] else Digits(n / 10) + [DigitChar(n % 10)]
  }

  /** The decimal text reads back as the number: the id in a not-found
      message is the id that was asked for. */
  lemma {:induction false} DigitsValue(n: nat)
    ensures DecimalValue(Digits(n)) == n
    ensures n > 0 ==> Digits(n)[0] != '0'
  {
    var s := Digits(n);
    if n < 10 {
      assert s[..|s| - 1] == [];
    } else {
      DigitsValue(n / 10);
      assert s[..|s| - 1] == Digits(n / 10);
      assert s[0] == Digits(n / 10)[0];
    }
  }

  /** The decimal text of an id, as string concatenation writes a long. */
  function IdText(n: int): string {
    if n < 0 then "-" + Digits(-n) else Digits(n)
  }

  function NotFound(id: int): string {
    "Expense not found with id: " + IdText(id)
  }

  /** Inclusive date bounds, as a derived `Between` query compares them. */
  predicate InDateRange(d: Date, startDate: Date, endDate: Date) {
    !Later(startDate, d) && !Later(d, endDate)
  }

  lemma NonEmptyHasElement(s: set<int>)
    requires s != {}
    ensures exists k :: k in s
  {
    if forall k :: k !in s {
      assert false;
    }
  }

  lemma ValueHasKey(m: map<int, Expense>, v: Expense)
    requires v in m.Values
    ensures exists k :: k in m && m[k] == v
  {
    if forall k :: k in m ==> m[k] != v {
      assert false;
    }
  }

  /** Every stored record that satisfies `keep`, each exactly once, in an
      order the store chooses. */
  method Collect(store: map<int, Expense>, keep: Expense -> bool) returns (r: seq<Expense>)
    requires forall k :: k in store ==> store[k].id == k
    ensures forall e :: e in r <==> e in store.Values && keep(e)
    ensures NoDuplicates(r)
  {
    r := [];
    var remaining := store.Keys;
    while remaining != {}
      invariant remaining <= store.Keys
      invariant forall i :: 0 <= i < |r| ==>
        r[i].id in store && store[r[i].id] == r[i] && r[i].id !in remaining && keep(r[i])
      invariant forall k :: k in store && k !in remaining && keep(store[k]) ==> store[k] in r
      invariant NoDuplicates(r)
      decreases remaining
    {
      NonEmptyHasElement(remaining);
      var key :| key in remaining;
      if keep(store[key]) {
        r := r + [store[key]];
      }
      remaining := remaining - {key};
    }
    forall e | e in store.Values && keep(e) ensures e in r {
      ValueHasKey(store, e);
      var key :| key in store && store[key] == e;
    }
  }

  class ExpenseService {
    var store: map<int, Expense>
    var nextId: int   // the id the store generates next; ids are never reused

    ghost predicate Valid()
      reads this
    {
      forall k :: k in store ==> store[k].id == k && k < nextId
    }

    constructor ()
      ensures Valid() && store == map[]
    {
      store := map[];
      nextId := 1;
    }

    method GetAllExpenses() returns (r: seq<Expense>)
      requires Valid()
      ensures forall e :: e in r <==> e in store.Values
      ensures NoDuplicates(r)
    {
      r := Collect(store, (e: Expense) => true);
    }

    method GetExpenseById(id: int) returns (r: Result<Expense>)
      ensures id in store ==> r == Ok(store[id])
      ensures id !in store ==> r == Err(NotFound(id))
    {
      if id in store {
        r := Ok(store[id]);
      } else {
        r := Err(NotFound(id));
      }
    }

    /** Saves a new record under a freshly generated id; the id in the given
        record is not used. */
    method CreateExpense(expense: Expense) returns (saved: Expense)
      requires Valid()
      modifies this
      ensures Valid()
      ensures saved == expense.(id := old(nextId)) && old(nextId) !in old(store)
      ensures store == old(store)[saved.id := saved]
      ensures nextId > old(nextId)
    {
      saved := expense.(id := nextId);
      store := store[nextId := saved];
      nextId := nextId + 1;
    }

    /** Overwrites the five editable fields of the stored record; the stored
        id stays and the id in `details` is ignored. An absent id fails
        before anything is written. */
    method UpdateExpense(id: int, details: Expense) returns (r: Result<Expense>)
      requires Valid()
      modifies this
      ensures Valid() && nextId == old(nextId)
      ensures id !in old(store) ==> r == Err(NotFound(id)) && store == old(store)
      ensures id in old(store) ==>
        r == Ok(details.(id := id)) && store == old(store)[id := details.(id := id)]
    {
      var found := GetExpenseById(id);
      if found.Err? {
        r := Err(found.message);
        return;
      }
      var expense := found.value;
      expense := expense.(description := details.description);
      expense := expense.(amount := details.amount);
      expense := expense.(date := details.date);
      expense := expense.(category := details.category);
      expense := expense.(notes := details.notes);
      store := store[expense.id := expense];
      r := Ok(expense);
    }

    /** Removes the stored record of `id`; an absent id fails and nothing
        changes. */
    method DeleteExpense(id: int) returns (r: Result<()>)
      requires Valid()
      modifies this
      ensures Valid() && nextId == old(nextId)
      ensures id !in old(store) ==> r == Err(NotFound(id)) && store == old(store)
      ensures id in old(store) ==> r == Ok(()) && store == old(store) - {id}
    {
      var found := GetExpenseById(id);
      if found.Err? {
        r := Err(found.message);
        return;
      }
      store := store - {found.value.id};
      r := Ok(());
    }

    method GetExpensesByCategory(category: string) returns (r: seq<Expense>)
      requires Valid()
      ensures forall e :: e in r <==> e in store.Values && e.category == category
      ensures NoDuplicates(r)
    {
      r := Collect(store, (e: Expense) => e.category == category);
    }

    method GetExpensesByDateRange(startDate: Date, endDate: Date) returns (r: seq<Expense>)
      requires Valid()
      ensures forall e :: e in r <==> e in store.Values && InDateRange(e.date, startDate, endDate)
      ensures NoDuplicates(r)
    {
      r := Collect(store, (e: Expense) => InDateRange(e.date, startDate, endDate));
    }

    method GetExpensesByCategoryAndDateRange(category: string, startDate: Date, endDate: Date)
      returns (r: seq<Expense>)
      requires Valid()
      ensures forall e :: e in r <==>
        e in store.Values && e.category == category && InDateRange(e.date, startDate, endDate)
      ensures NoDuplicates(r)
    {
      r := Collect(store, (e: Expense) => e.category == category && InDateRange(e.date, startDate, endDate));
    }
  }

  /** Creating a record and then fetching it by the returned id gives back
      the record that was sent, apart from its id; deleting it afterwards
      makes the same fetch fail. */
  method CreateFetchDelete(service: ExpenseService, expense: Expense)
    returns (fetched: Result<Expense>, refetched: Result<Expense>)
    requires service.Valid()
    modifies service
    ensures service.Valid()
    ensures fetched.Ok? && fetched.value == expense.(id := fetched.value.id)
    ensures refetched == Err(NotFound(fetched.value.id))
    ensures service.store == old(service.store)
  {
    var saved := service.CreateExpense(expense);
    fetched := service.GetExpenseById(saved.id);
    var deleted := service.DeleteExpense(saved.id);
    refetched := service.GetExpenseById(saved.id);
  }
}
