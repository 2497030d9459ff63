/** The edit-expense page: loads one record into the form, then sends the
    edited values to the update endpoint of the record named in the route. */
module EditExpense {
  import opened Expenses
  import opened ExpenseForm
  import opened Gateway

  const FetchFailed := "Failed to fetch expense details. Please try again later."
  const UpdateFailed := "Failed to update expense. Please try again."

  class EditExpensePage {
    const id: int               // the route parameter
    var error: Option<string>
    var success: bool
    var loading: bool
    var initialValues: FormValues
    var values: FormValues      // what the form currently holds
    var submitting: bool

    constructor (routeId: int, today: Date)
      ensures id == routeId
      ensures initialValues == InitialValues(today) && values == initialValues
      ensures error == None && !success && loading && !submitting
    {
      id := routeId;
      initialValues := InitialValues(today);
      values := InitialValues(today);
      error := None;
      success := false;
      loading := true;
      submitting := false;
    }

    /** Loads the record of the route id. The form is re-initialised with the
        record's fields; loading ends whether or not the call succeeds. */
    method FetchExpense(reply: Reply<Expense>) returns (request: Request)
      modifies this
      ensures request == GetById(id)
      ensures !loading
      ensures reply.Ok? ==>
        initialValues == ToFormValues(reply.data) && values == initialValues && error == None
      ensures reply.Failed? ==>
        error == Some(FetchFailed) && initialValues == old(initialValues) && values == old(values)
      ensures success == old(success) && submitting == old(submitting)
    {
      request := GetById(id);
      if reply.Ok? {
        initialValues := ToFormValues(reply.data);
        values := initialValues;
        error := None;
      } else {
        error := Some(FetchFailed);
      }
      loading := false;
    }

    /** The user edits the form. */
    method SetValues(v: FormValues)
      modifies this
      ensures values == v && initialValues == old(initialValues)
      ensures error == old(error) && success == old(success) && loading == old(loading)
      ensures submitting == old(submitting)
    {
      values := v;
    }

    /** Submits the form. While a field fails its rule nothing is sent. A
        valid form is sent to the update endpoint of the route id, whatever id
        the values carry; the form is not reset. */
    method Submit(reply: Reply<Expense>) returns (request: Option<Request>)
      modifies this
      ensures !submitting
      ensures values == old(values) && initialValues == old(initialValues) && loading == old(loading)
      ensures !Valid(values) ==> request == None && error == old(error) && success == old(success)
      ensures Valid(values) ==> request == Some(Update(id, values))
      ensures Valid(values) && reply.Ok? ==> success && error == None
      ensures Valid(values) && reply.Failed? ==> !success && error == Some(UpdateFailed)
    {
      submitting := true;
      request := None;
      if Valid(values) {
        request := Some(Update(id, values));
        if reply.Ok? {
          success := true;
          error := None;
        } else {
          error := Some(UpdateFailed);
          success := false;
        }
      }
      submitting := false;
    }
  }
}
