/** The field schema shared by the add and edit pages, stated field by field
    as the rules the pages declare, together with the error message each
    failing field shows. */
module ExpenseForm {
  import opened Expenses

  /** The values the form holds. An empty text field reaches the schema as
      absent, so `""` stands for a missing description, category or notes
      and `None` for a missing amount or date. `id` is only present when the
      values were loaded from a stored record. */
  datatype FormValues = FormValues(
    id: Option<int>,
    description: string,
    amount: Option<real>,
    category: string,
    date: Option<Date>,
    notes: string)

  datatype Field = Description | Amount | Category | DateField | Notes

  const DescriptionRequired := "Description is required"
  const DescriptionTooShort := "Description must be at least 3 characters"
  const DescriptionTooLong := "Description must be at most 255 characters"
  const AmountRequired := "Amount is required"
  const AmountNotPositive := "Amount must be positive"
  const CategoryRequired := "Category is required"
  const DateRequired := "Date is required"
  const NotesTooLong := "Notes must be at most 500 characters"

  /** The fixed category choices offered by the category dropdown. */
  const CategoryChoices: seq<string> := [
    "Food", "Transportation", "Housing", "Utilities", "Entertainment",
    "Healthcare", "Education", "Shopping", "Personal Care", "Travel", "Other"
  ]

  /** A character outside the Basic Multilingual Plane, which JavaScript
      stores as a surrogate pair. */
  predicate Astral(c: char) { c as int >= 0x1_0000 }

  /** The `length` JavaScript reports for a text: the number of its UTF-16
      code units, two for an astral character and one for any other. The
      length rules of the schema compare this count. */
  function Utf16Length(s: string): (n: nat)
    ensures |s| <= n <= 2 * |s|
    ensures n == |s| <==> forall i :: 0 <= i < |s| ==> !Astral(s[i])
    ensures n == 2 * |s| <==> forall i :: 0 <= i < |s| ==> Astral(s[i])
  {
    if s == [] then 0
    else
      var rest := Utf16Length(s[1..]);
      assert forall i :: 1 <= i < |s| ==> s[i] == s[1..][i - 1];
      (if Astral(s[0]) then 2 else 1) + rest
  }

  /** The schema, one rule per field. */
  predicate DescriptionOk(d: string) { 3 <= Utf16Length(d) <= 255 }
  predicate AmountOk(a: Option<real>) { a.Some? && a.value > 0.0 }
  predicate CategoryOk(c: string) { c != "" }
  predicate DateOk(d: Option<Date>) { d.Some? }
  predicate NotesOk(n: string) { Utf16Length(n) <= 500 }

  predicate Valid(v: FormValues) {
    DescriptionOk(v.description) && AmountOk(v.amount) && CategoryOk(v.category) &&
    DateOk(v.date) && NotesOk(v.notes)
  }

  function DescriptionError(d: string): (r: Option<string>)
    ensures r.None? <==> DescriptionOk(d)
    ensures r == Some(DescriptionRequired) <==> d == ""
    ensures r == Some(DescriptionTooShort) <==> 0 < Utf16Length(d) < 3
    ensures r == Some(DescriptionTooLong) <==> Utf16Length(d) > 255
  {
    if d == "" then Some(DescriptionRequired)
    else if Utf16Length(d) < 3 then Some(DescriptionTooShort)
    else if Utf16Length(d) > 255 then Some(DescriptionTooLong)
    else None
  }

  function AmountError(a: Option<real>): (r: Option<string>)
    ensures r.None? <==> AmountOk(a)
    ensures r == Some(AmountRequired) <==> a.None?
    ensures r == Some(AmountNotPositive) <==> a.Some? && a.value <= 0.0
  {
    match a
    case None => Some(AmountRequired)
    case Some(x) => if x > 0.0 then None else Some(AmountNotPositive)
  }

  function CategoryError(c: string): (r: Option<string>)
    ensures r.None? <==> CategoryOk(c)
    ensures r.Some? ==> r.value == CategoryRequired
  {
    if c == "" then Some(CategoryRequired) else None
  }

  function DateError(d: Option<Date>): (r: Option<string>)
    ensures r.None? <==> DateOk(d)
    ensures r.Some? ==> r.value == DateRequired
  {
    if d.None? then Some(DateRequired) else None
  }

  function NotesError(n: string): (r: Option<string>)
    ensures r.None? <==> NotesOk(n)
    ensures r.Some? ==> r.value == NotesTooLong
  {
    if Utf16Length(n) > 500 then Some(NotesTooLong) else None
  }

  /** The message shown next to field `f`, if that field fails its rule. */
  function FieldError(v: FormValues, f: Field): Option<string> {
    match f
    case Description => DescriptionError(v.description)
    case Amount => AmountError(v.amount)
    case Category => CategoryError(v.category)
    case DateField => DateError(v.date)
    case Notes => NotesError(v.notes)
  }

  /** The form's error object: one entry per failing field. */
  function Errors(v: FormValues): map<Field, string> {
    map f: Field | FieldError(v, f).Some? :: FieldError(v, f).value
  }

  /** The form can be submitted exactly when no field shows an error, and
      each field shows an error exactly when it breaks its own rule. */
  lemma ValidIffNoErrors(v: FormValues)
    ensures Valid(v) <==> Errors(v) == map[]
    ensures Description in Errors(v) <==> !DescriptionOk(v.description)
    ensures Amount in Errors(v) <==> !AmountOk(v.amount)
    ensures Category in Errors(v) <==> !CategoryOk(v.category)
    ensures DateField in Errors(v) <==> !DateOk(v.date)
    ensures Notes in Errors(v) <==> !NotesOk(v.notes)
  {
    if Valid(v) {
      forall f: Field ensures f !in Errors(v) {
        match f
        case Description =>
        case Amount =>
        case Category =>
        case DateField =>
        case Notes =>
      }
    } else {
      if !DescriptionOk(v.description) { assert Description in Errors(v); }
      else if !AmountOk(v.amount) { assert Amount in Errors(v); }
      else if !CategoryOk(v.category) { assert Category in Errors(v); }
      else if !DateOk(v.date) { assert DateField in Errors(v); }
      else { assert Notes in Errors(v); }
    }
  }

  /** The boundary cases of the description and amount rules. */
  lemma DescriptionAndAmountBoundaries()
    ensures DescriptionError("ab") == Some(DescriptionTooShort)
    ensures DescriptionError("abc") == None
    ensures AmountError(Some(-5.0)) == Some(AmountNotPositive)
    ensures AmountError(Some(0.0)) == Some(AmountNotPositive)
    ensures AmountError(Some(0.01)) == None
  {
  }

  /** Lengths are counted in UTF-16 code units: two emoji make a description
      of length 4, which passes the minimum, while one emoji (length 2) does
      not, and a text is longer than its character count exactly when it
      holds an astral character. */
  lemma AstralCharactersCountTwice(s: string)
    ensures DescriptionError("\U{1F600}\U{1F600}") == None
    ensures DescriptionError("\U{1F600}") == Some(DescriptionTooShort)
    ensures Utf16Length(s) > |s| <==> exists i :: 0 <= i < |s| && Astral(s[i])
  {
    assert Utf16Length("\U{1F600}\U{1F600}") == 4;
  }

  /** Every dropdown choice satisfies the category rule, and the choices are
      eleven distinct names. */
  lemma CategoryChoicesAreValid()
    ensures |CategoryChoices| == 11 && NoDuplicates(CategoryChoices)
    ensures forall i :: 0 <= i < |CategoryChoices| ==> CategoryOk(CategoryChoices[i])
  {
  }

  /** The values a fresh add form starts with; `today` is the date picker's
      default. */
  function InitialValues(today: Date): (v: FormValues)
    ensures Errors(v).Keys == {Description, Amount, Category}
  {
    var v := FormValues(None, "", None, "", Some(today), "");
    assert Description in Errors(v) && Amount in Errors(v) && Category in Errors(v);
    v
  }

  /** The form values loaded from a fetched record: every field of the
      record, with the date converted from its text. */
  function ToFormValues(e: Expense): FormValues {
    FormValues(Some(e.id), e.description, Some(e.amount), e.category, Some(e.date), e.notes)
  }

  /** The record a submitted form stands for, as the server reads the request
      body. A body without an id reaches the server with a null id and is
      inserted as a new record; 0 is only this model's placeholder for that
      missing id. */
  function ToRecord(v: FormValues): Expense
    requires v.amount.Some? && v.date.Some?
  {
    Expense(
      if v.id.Some? then v.id.value else 0,
      v.description, v.amount.value, v.category, v.date.value, v.notes)
  }

  /** Loading a record into the form and reading the form back gives the
      record again, and a record that satisfies the schema loads into a form
      with no errors. */
  lemma FormRoundTrip(e: Expense)
    ensures ToRecord(ToFormValues(e)) == e
    ensures Valid(ToFormValues(e)) <==>
      DescriptionOk(e.description) && e.amount > 0.0 && CategoryOk(e.category) && NotesOk(e.notes)
  {
  }
}
