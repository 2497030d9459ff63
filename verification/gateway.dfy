/** The remote expense API as the pages see it: the requests they issue
    and the replies they receive. */
module Gateway {
  import opened Expenses
  import opened ExpenseForm

  /** One call to the expense endpoints under `/api/expenses`. */
  datatype Request =
    | GetAll                                    // GET  /api/expenses
    | GetById(id: int)                          // GET  /api/expenses/{id}
    | Create(body: FormValues)                  // POST /api/expenses
    | Update(id: int, body: FormValues)         // PUT  /api/expenses/{id}
    | Delete(id: int)                           // DELETE /api/expenses/{id}
    | ByCategory(category: string)              // GET  /api/expenses/category/{category}
    | ByDateRange(startDate: Date, endDate: Date)
    | ByCategoryAndDateRange(category: string, startDate: Date, endDate: Date)

  /** The outcome of a call: the response data, or a failure of any kind. */
  datatype Reply<T> = Ok(data: T) | Failed
}
