# Expense tracker: a verified model of its core logic

This project models the logic of a small expense tracker. The browser side has
four pages: a dashboard, an expense list with filters, an add form and an edit
form. A Java service keeps the expense records behind a REST API. The model
covers:

- **Dashboard aggregation.** It covers the total and the average. It covers the
  per-category chart data, whose keys are in first-occurrence order. It covers
  the twelve month buckets, which ignore the year. It covers the "five most
  recent" view, which is a stable sort by date, latest first, cut to five.
- **The list page.** Its handlers are methods of a class holding the page
  state. The filter bar picks exactly one query endpoint. Delete needs the
  user's confirmation and then removes the record from the list the page holds.
  The category dropdown lists the distinct categories of the fetched list.
- **The add and edit forms.** The field schema is a set of per-field rules with
  their error messages. Both pages declare the same schema:
  `AddExpense.js:23-37` and `EditExpense.js:48-62`. They also declare the same
  category list: `AddExpense.js:59-62` and `EditExpense.js:83-86`. The model
  states each once, in module `ExpenseForm`. Each page is a class whose methods
  set the `success`, `error` and `loading` flags.
- **The backend service.** It is a class holding the repository as a
  `map<int, Expense>`. It models get-or-fail, create, update in place, delete
  and the filtered listings.

Amounts are exact `real`s. Dates are parsed `(year, month, day)` triples. The
remote API is the `Gateway.Request` datatype. Each page handler returns the
request it issues and takes the server's reply (`Gateway.Reply`) as a
parameter. The user's answer to the delete confirmation is a boolean
parameter. The date the add form starts on is a parameter too.

The category bucket test at `Dashboard.js:73` is a truthiness test. When a
running total is 0, the code overwrites it with the new amount instead of
adding to it. Overwriting 0 with `amount` gives the same result as adding
`amount` to 0. So each bucket is exactly its category's sum for every list of
amounts, not only for positive ones. `Dashboard.ProcessCategoryData` and
`Dashboard.CategoryAmountsSumToTotal` are proved without any sign condition.
This holds for category names that are ordinary object keys. Names that
JavaScript objects treat specially are discussed under "## Left out".

The length rules of the form count what JavaScript's `length` counts: UTF-16
code units. A character outside the Basic Multilingual Plane, such as an
emoji, counts twice (`ExpenseForm.Utf16Length`).

## Model

| member | source | states |
|---|---|---|
| `Expenses.UniqueCategories` | frontend/src/components/ExpenseList.js:28 | the dropdown categories have no repeats, and a name is listed exactly when some fetched record has that category |
| `Expenses.UniqueCategoriesInFirstOccurrenceOrder` | frontend/src/components/ExpenseList.js:28 | the dropdown lists categories in the order of their first occurrence in the list |
| `Expenses.LaterIsStrictTotalOrder` | frontend/src/components/Dashboard.js:130 | the date comparison used for sorting is a strict total order: two dates that are not later than each other are the same day |
| `Dashboard.TotalAppend` | frontend/src/components/Dashboard.js:48 | the total of a split list is the sum of the totals of its parts, so the total is the plain sum of all amounts, and 0 for an empty list |
| `Dashboard.TotalPositive` | frontend/src/components/Dashboard.js:48 | with positive amounts the total is non-negative, and it is 0 exactly for the empty list |
| `Dashboard.DashboardPage.AverageExpense` | frontend/src/components/Dashboard.js:177 | the average is 0 for no expenses, and otherwise is the total divided by the count, so no division by zero happens |
| `Dashboard.ProcessCategoryData` | frontend/src/components/Dashboard.js:66-94 | the one-pass dictionary build, overwrite-when-falsy test included, gives the distinct categories in first-occurrence order as labels and each category's exact sum as its data |
| `Dashboard.CategoryAmountsSumToTotal` | frontend/src/components/Dashboard.js:69-78 | the category buckets add up to the overall total, for any amounts |
| `Dashboard.ProcessMonthlyData` | frontend/src/components/Dashboard.js:96-126 | the chart always has the twelve labels Jan..Dec. Every bucket starts at 0, and bucket i ends as the sum of the amounts dated in month i+1 of any year |
| `Dashboard.MonthlyAmountsStep` | frontend/src/components/Dashboard.js:106-112 | adding one record changes exactly one bucket, its calendar month's, by its amount; the year plays no part |
| `Dashboard.MonthlyAmountsSumToTotal` | frontend/src/components/Dashboard.js:106-112 | the twelve month buckets add up to the overall total |
| `Dashboard.MonthIndex` | frontend/src/components/Dashboard.js:107-108 | the bucket index of a valid date is its calendar month counted from 0; this is the intended month lookup, used by the model |
| `Dashboard.LocalMonthOfDateText` | frontend/src/components/Dashboard.js:107-108 | the month the code actually reads from a date text: the text is parsed as midnight UTC and the month is taken in local time. It is always a month number 1..12 |
| `Dashboard.LocalMonthShift` | frontend/src/components/Dashboard.js:107-108 | as written, a record goes to a different month's bucket exactly when it is dated the 1st and the browser is west of UTC |
| `Dashboard.LocalMonthShiftExample` | frontend/src/components/Dashboard.js:107-108 | a record dated 2024-03-01, viewed in UTC-5, is counted under "Feb" instead of "Mar" |
| `Dashboard.InsertByDate` | frontend/src/components/Dashboard.js:130 | one insertion step of the sort adds exactly the inserted record to the contents |
| `Dashboard.SortByDateDesc` | frontend/src/components/Dashboard.js:130 | the sorted copy is a permutation of the list |
| `Dashboard.SortByDateDescSorted` | frontend/src/components/Dashboard.js:130 | the sorted copy is ordered by date, latest first |
| `Dashboard.SortByDateDescStable` | frontend/src/components/Dashboard.js:130 | the sort is stable: for every date, the records of that date keep their input order |
| `Dashboard.RecentProperties` | frontend/src/components/Dashboard.js:128-132 | the recent view has min(5, n) records. It is sorted latest first, and it only contains records of the list, with multiplicity. No record left out is later than a record kept |
| `Dashboard.DashboardPage.GetRecentExpenses` | frontend/src/components/Dashboard.js:128-132 | returns the recent view of the stored expenses. The method may not modify anything, so the stored list stays unchanged |
| `Dashboard.DashboardPage.FetchExpenses` | frontend/src/components/Dashboard.js:40-64 | issues list-all. On success it stores the list, its total and both charts and clears the error. On failure it sets the fetch error and changes nothing else. Loading ends either way |
| `Dashboard.DashboardPage.constructor` | frontend/src/components/Dashboard.js:29-34 | the page starts empty and loading: total 0, no error, and chart data still `{}` |
| `ExpenseList.FilterRequest` | frontend/src/components/ExpenseList.js:57-76 | exactly one of the four endpoints is chosen. A date range is used iff both dates are set, and the category is used iff it is non-empty. The chosen request carries exactly the filter values |
| `ExpenseList.FilterRequestExamples` | frontend/src/components/ExpenseList.js:57-76 | ("Food", 2024-01-01, 2024-01-31) gives category-and-date-range with those values. A start date alone gives list-all, or by-category when a category is set |
| `ExpenseList.RemoveId` | frontend/src/components/ExpenseList.js:44 | no record of the deleted id is left in the list |
| `ExpenseList.RemoveIdContents` | frontend/src/components/ExpenseList.js:44 | every record of another id keeps its number of occurrences; the records of the id are all gone |
| `ExpenseList.RemoveIdAppend` | frontend/src/components/ExpenseList.js:44 | removing from a concatenation is concatenating the removals, so the kept records stay in their order |
| `ExpenseList.IsoDateOfLocalMidnight` | frontend/src/components/ExpenseList.js:61-62 | the day the code actually sends for a picked date: `toISOString` of the picked local midnight. It is always a valid date |
| `ExpenseList.IsoDateShift` | frontend/src/components/ExpenseList.js:61-62 | as written, the picked day is sent unchanged exactly when the browser is not east of UTC |
| `ExpenseList.IsoDateShiftExample` | frontend/src/components/ExpenseList.js:61-62 | picking 2024-01-01 in UTC+2 sends 2023-12-31 |
| `ExpenseList.ExpenseListPage.constructor` | frontend/src/components/ExpenseList.js:9-15 | the page starts with an empty list, loading, no error, an empty category, no dates and no dropdown entries |
| `ExpenseList.ExpenseListPage.FetchExpenses` | frontend/src/components/ExpenseList.js:21-38 | issues list-all. On success the list and dropdown are replaced and the error cleared. On failure only the fetch error is set. Loading ends and the filter fields stay |
| `ExpenseList.ExpenseListPage.HandleDelete` | frontend/src/components/ExpenseList.js:40-50 | if the user declines, nothing is sent and nothing changes. If the user confirms, delete of that id is sent. Success leaves the old list minus that id's records. Failure sets the delete error. No other field changes |
| `ExpenseList.ExpenseListPage.HandleFilter` | frontend/src/components/ExpenseList.js:52-86 | issues exactly the request that `FilterRequest` picks for the current fields. On success the reply replaces the list. On failure the filter error is set. The dropdown and the filter fields are unchanged, and loading ends |
| `ExpenseList.ExpenseListPage.ClearFilters` | frontend/src/components/ExpenseList.js:88-93 | the category becomes "" and both dates become unset. Then list-all is issued, which is what the filter now selects, with the fetch outcome as in `FetchExpenses` |
| `ExpenseList.ExpenseListPage.SetFilterCategory` | frontend/src/components/ExpenseList.js:113 | sets only the category filter |
| `ExpenseList.ExpenseListPage.SetStartDate` | frontend/src/components/ExpenseList.js:127 | sets only the start date |
| `ExpenseList.ExpenseListPage.SetEndDate` | frontend/src/components/ExpenseList.js:142 | sets only the end date |
| `ExpenseForm.DescriptionError` | frontend/src/components/AddExpense.js:24-27 | the description fails iff its length in UTF-16 code units is outside 3..255. Empty gives the required message, length 1-2 the minimum message and over 255 the maximum message |
| `ExpenseForm.AmountError` | frontend/src/components/AddExpense.js:28-30 | the amount fails iff it is missing or not > 0, with the required and the positive message respectively |
| `ExpenseForm.CategoryError` | frontend/src/components/AddExpense.js:31-32 | the category fails iff it is empty, with "Category is required" |
| `ExpenseForm.DateError` | frontend/src/components/AddExpense.js:33-34 | the date fails iff it is missing, with "Date is required" |
| `ExpenseForm.NotesError` | frontend/src/components/AddExpense.js:35-36 | notes are optional and fail iff longer than 500 UTF-16 code units, with the maximum message |
| `ExpenseForm.Utf16Length` | frontend/src/components/AddExpense.js:24-36 | the length the rules compare is between the character count and twice it. It equals the character count iff no character is astral, and twice it iff every character is |
| `ExpenseForm.AstralCharactersCountTwice` | frontend/src/components/AddExpense.js:24-27 | two emoji make a valid description of length 4 and one emoji is too short. A text is longer than its character count iff it holds an astral character |
| `ExpenseForm.ValidIffNoErrors` | frontend/src/components/AddExpense.js:23-37 | the form satisfies the schema iff its error object is empty, and each field has an entry iff it breaks its own rule |
| `ExpenseForm.DescriptionAndAmountBoundaries` | frontend/src/components/AddExpense.js:24-30 | "ab" fails with the minimum message and "abc" passes. -5 and 0 fail with the positive message, and 0.01 passes |
| `ExpenseForm.CategoryChoicesAreValid` | frontend/src/components/AddExpense.js:59-62 | the dropdown offers eleven distinct names, and each of them satisfies the category rule |
| `ExpenseForm.InitialValues` | frontend/src/components/AddExpense.js:15-21 | the fresh form has errors on exactly description, amount and category |
| `ExpenseForm.FormRoundTrip` | frontend/src/components/EditExpense.js:31-34 | loading a record into the form and reading it back gives the same record. The loaded form passes the schema iff the record satisfies its rules |
| `AddExpense.InitialFormIsInvalid` | frontend/src/components/AddExpense.js:15-21 | the fresh form cannot be submitted. It shows the required messages for description, amount and category |
| `AddExpense.AddExpensePage.constructor` | frontend/src/components/AddExpense.js:11-21 | the page starts with no error, no success, and the form at its initial values |
| `AddExpense.AddExpensePage.SetValues` | frontend/src/components/AddExpense.js:87-90 | editing the form changes only the form values |
| `AddExpense.AddExpensePage.Submit` | frontend/src/components/AddExpense.js:39-57 | an invalid form sends nothing. A valid form sends create with its values. Success sets success, clears the error and resets the form. Failure sets the add error, clears success and keeps the form |
| `EditExpense.EditExpensePage.constructor` | frontend/src/components/EditExpense.js:11-23 | the page starts loading, with the route id, no error, no success and default form values |
| `EditExpense.EditExpensePage.FetchExpense` | frontend/src/components/EditExpense.js:26-43 | issues get-by-id for the route id. On success the form is loaded with every field of the record. On failure the fetch error is set. Loading ends either way |
| `EditExpense.EditExpensePage.SetValues` | frontend/src/components/EditExpense.js:122-125 | editing the form changes only the form values |
| `EditExpense.EditExpensePage.Submit` | frontend/src/components/EditExpense.js:64-81 | an invalid form sends nothing. A valid form sends update to the route id, whatever id its values carry. Success sets success and clears the error. Failure sets the update error and clears success. The form is kept |
| `Backend.Collect` | src/main/java/com/example/expensetracker/repository/ExpenseRepository.java:13-17 | a query returns exactly the stored records that match, each once |
| `Backend.ExpenseService.constructor` | src/main/java/com/example/expensetracker/service/ExpenseService.java:16-19 | the service starts over an empty store whose keys are the records' ids |
| `Backend.ExpenseService.GetAllExpenses` | src/main/java/com/example/expensetracker/service/ExpenseService.java:21-23 | returns every stored record, each once |
| `Backend.DigitsValue` | src/main/java/com/example/expensetracker/service/ExpenseService.java:27 | the id in the not-found message is written in decimal without leading zeros and reads back as the requested id |
| `Backend.ExpenseService.GetExpenseById` | src/main/java/com/example/expensetracker/service/ExpenseService.java:25-28 | returns the stored record, or fails with "Expense not found with id: " followed by the id |
| `Backend.ExpenseService.CreateExpense` | src/main/java/com/example/expensetracker/service/ExpenseService.java:30-32 | saves the record under a new, never used id, adds only that entry, and returns what was saved |
| `Backend.ExpenseService.UpdateExpense` | src/main/java/com/example/expensetracker/service/ExpenseService.java:34-44 | an absent id fails and the store is unchanged. Otherwise description, amount, date, category and notes come from the details, the stored id is kept, the id of the details is ignored, and no other record changes |
| `Backend.ExpenseService.DeleteExpense` | src/main/java/com/example/expensetracker/service/ExpenseService.java:46-49 | an absent id fails and the store is unchanged; otherwise exactly that record is removed |
| `Backend.ExpenseService.GetExpensesByCategory` | src/main/java/com/example/expensetracker/service/ExpenseService.java:51-53 | returns exactly the stored records of that category, each once |
| `Backend.ExpenseService.GetExpensesByDateRange` | src/main/java/com/example/expensetracker/service/ExpenseService.java:55-57 | returns exactly the stored records dated between start and end, both bounds included, each once |
| `Backend.ExpenseService.GetExpensesByCategoryAndDateRange` | src/main/java/com/example/expensetracker/service/ExpenseService.java:59-61 | returns exactly the stored records of that category dated between start and end inclusive, each once |
| `Backend.CreateFetchDelete` | src/main/java/com/example/expensetracker/service/ExpenseService.java:25-49 | creating a record and fetching it by the returned id gives back the record sent, apart from its id. Deleting it makes the same fetch fail, and the store is as before |

## Findings

| source | as written | input that shows it | evidently intended | confidence | as-written member | corrected member |
|---|---|---|---|---|---|---|
| frontend/src/components/Dashboard.js:107-108 | the month is read with `new Date(expense.date).getMonth()`. A `YYYY-MM-DD` text parses as midnight UTC, but `getMonth` reads local time | an expense dated 2024-03-01, viewed in UTC-5, is added to the "Feb" bucket (`Dashboard.LocalMonthShiftExample`) | each record counts in the month of its own calendar date | not executed; follows from the ECMAScript date-only parsing rule | `Dashboard.LocalMonthOfDateText` | `Dashboard.MonthIndex` |
| frontend/src/components/ExpenseList.js:61-62 | the picked dates are sent as `toISOString().split('T')[0]` of the picker's local-midnight `Date` | with start 2024-01-01 picked in UTC+2, the query sends 2023-12-31 (`ExpenseList.IsoDateShiftExample`) | the query carries the picked calendar days | not executed; assumes the picker yields local midnight | `ExpenseList.IsoDateOfLocalMidnight` | `ExpenseList.FilterRequest` |

## Left out

- Rendering is left out: JSX, Bootstrap layout, spinners, alerts, Header.js and App.js routing. It holds no logic that can be stated.
- Chart.js registration, colours and options are left out. A chart is only its labels and data.
- `frontend/src/services/ExpenseService.js` is left out. Its eight calls become the constructors of `Gateway.Request`.
- The backend controller is left out. It only maps HTTP routes and status codes.
- Async sequencing is left out. Each handler is one atomic step, with the reply as a parameter. A reply that arrives after navigation is not modelled.
- The two-second `setTimeout` redirect after a successful submit is left out.
- `console.error` logging is left out.
- `window.confirm` is not modelled; the user's answer is the `confirmed` parameter.
- Floating point is not modelled. `parseFloat` and `toFixed(2)` are replaced by exact `real` amounts, so the sum identities hold exactly.
- JavaScript date parsing is not modelled. Dates are parsed triples, and the dashboard requires valid dates. An unparsable date text would add an extra "undefined" bucket at `Dashboard.js:111`, and the model does not capture that.
- Time zones are modelled only by the two Findings members. The rest of the model uses the intended calendar dates.
- Formik and Yup internals are not modelled: text-to-number coercion, touched and blur tracking, and the choice of which message shows first. An amount typed as non-numeric text and an unparsable date are also out.
- The form is validated as a whole at submit; validation on each keystroke is not modelled.
- A `null` notes field on a stored record is not modelled. The model treats notes as text, empty when none were given.
- Dashboard.ProcessCategoryData: category names that a plain JavaScript object treats specially are not modelled. The model treats every name as an ordinary key.
  - Integer-like names such as "2024": the object lists them first, in numeric order, so the page shows the labels in a different order from the model.
  - Names inherited from `Object.prototype`, such as "toString", "constructor" or "valueOf": the truthiness test at `Dashboard.js:73` reads an inherited function, so `+=` turns the bucket into a string rather than a sum.
  - The name "__proto__": the write is ignored, so the page drops that category from the chart and its amounts are not counted.
- Dashboard.CategoryAmountsSumToTotal: the statement is about the model's buckets. For the inherited and "__proto__" names above, the page's buckets do not add up to the total.
- `Backend.ExpenseService.CreateExpense` always gives the record a new id. A request body that carried an existing id would be merged into that record by the repository's `save`; that case is not modelled.
- The order of the backend's listings is left open: the store chooses it. The Java `Long` range of ids is not modelled.
- The Java `Expense` entity and the repository implementation are not part of this model. Only the repository's derived query names are used, for the filter predicates.
