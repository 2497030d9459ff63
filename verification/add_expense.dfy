/** The add-expense page: a form that starts from fixed initial values, is
    blocked while the schema fails, and reports the outcome of the create
    call through its success and error flags. */
module AddExpense {
  import opened Expenses
  import opened ExpenseForm
  import opened Gateway

  const AddFailed := "Failed to add expense. Please try again."

  class AddExpensePage {
    var error: Option<string>
    var success: bool
    var values: FormValues      // what the form currently holds
    var submitting: bool
    const initialValues: FormValues

    /** `today` is the date the date picker starts on. */
    constructor (today: Date)
      ensures initialValues == InitialValues(today) && values == initialValues
      ensures error == None && !success && !submitting
    {
      initialValues := InitialValues(today);
      values := InitialValues(today);
      error := None;
      success := false;
      submitting := false;
    }

    /** The user edits the form. */
    method SetValues(v: FormValues)
      modifies this
      ensures values == v
      ensures error == old(error) && success == old(success) && submitting == old(submitting)
    {
      values := v;
    }

    /** Submits the form. While a field fails its rule nothing is sent. A
        valid form is sent to the create endpoint; success raises the success
        flag, clears the error and resets the form, failure shows the error
        and keeps what was typed. */
    method Submit(reply: Reply<Expense>) returns (request: Option<Request>)
      modifies this
      ensures !submitting
      ensures !Valid(old(values)) ==>
        request == None && values == old(values) && error == old(error) && success == old(success)
      ensures Valid(old(values)) ==> request == Some(Create(old(values)))
      ensures Valid(old(values)) && reply.Ok? ==>
        success && error == None && values == initialValues
      ensures Valid(old(values)) && reply.Failed? ==>
        !success && error == Some(AddFailed) && values == old(values)
    {
      submitting := true;
      request := None;
      if Valid(values) {
        request := Some(Create(values));
        if reply.Ok? {
          success := true;
          error := None;
          values := initialValues;
        } else {
          error := Some(AddFailed);
          success := false;
        }
      }
      submitting := false;
    }
  }

  /** A fresh form cannot be submitted: its description, amount and category
      are empty, while its date and notes pass. */
  lemma InitialFormIsInvalid(today: Date)
    ensures !Valid(InitialValues(today))
    ensures Errors(InitialValues(today)) ==
      map[Description := DescriptionRequired, Amount := AmountRequired, Category := CategoryRequired]
  {
  }
}
