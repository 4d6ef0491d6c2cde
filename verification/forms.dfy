/** The add forms of the income and expense pages (`handleAddIncome`, `handleAddExpense`):
    every field is a string as typed; an empty required field blocks the submission before any
    request; otherwise the body is posted with the amount passed through `parseFloat`, and a
    successful post resets the form to its defaults. `parseFloat` is a parameter (`None` stands
    for `NaN`, which the JSON body carries as `null`), and so is today's date. */
module Forms {
  import opened Api
  import opened Ledger

  datatype IncomeForm = IncomeForm(source: string, amount: string, date: string, icon: string)

  datatype ExpenseForm = ExpenseForm(category: string, amount: string, date: string, icon: string)

  /** What pressing the add button does: nothing but a "Please fill all fields" toast, or a post. */
  datatype Submission = Blocked | Sent(body: EntryBody)

  /** The form after the handler, and what it submitted. */
  datatype Outcome<F> = Outcome(form: F, submission: Submission)

  const IncomeIcon := "\U{1F4B0}"
  const ExpenseIcon := "\U{1F4B8}"

  /** The income form when the page opens and after a successful add; `today` is
      `new Date().toISOString().split('T')[0]`. */
  function IncomeDefaults(today: string): IncomeForm {
    IncomeForm("", "", today, IncomeIcon)
  }

  function ExpenseDefaults(today: string): ExpenseForm {
    ExpenseForm("", "", today, ExpenseIcon)
  }

  /** The check and the request of `handleAddIncome`; a text field is falsy exactly when empty. */
  function SubmitIncome(f: IncomeForm, parseAmount: string -> Option<int>): (s: Submission)
    ensures s.Blocked? <==> f.source == "" || f.amount == "" || f.date == ""
    ensures s.Sent? ==>
      && s.body.title == Some(f.source) && s.body.date == Some(f.date) && s.body.icon == Some(f.icon)
      && s.body.amount == parseAmount(f.amount)
  {
    if f.source == "" || f.amount == "" || f.date == "" then Blocked
    else Sent(EntryBody(Some(f.icon), Some(f.source), parseAmount(f.amount), Some(f.date)))
  }

  /** The check and the request of `handleAddExpense`. */
  function SubmitExpense(f: ExpenseForm, parseAmount: string -> Option<int>): (s: Submission)
    ensures s.Blocked? <==> f.category == "" || f.amount == "" || f.date == ""
    ensures s.Sent? ==>
      && s.body.title == Some(f.category) && s.body.date == Some(f.date) && s.body.icon == Some(f.icon)
      && s.body.amount == parseAmount(f.amount)
  {
    if f.category == "" || f.amount == "" || f.date == "" then Blocked
    else Sent(EntryBody(Some(f.icon), Some(f.category), parseAmount(f.amount), Some(f.date)))
  }

  /** `handleAddIncome`: `accepted` says whether the post succeeded. A blocked or failed add keeps
      what the user typed; a successful one resets the form. */
  function HandleAddIncome(f: IncomeForm, parseAmount: string -> Option<int>, today: string, accepted: bool)
    : (o: Outcome<IncomeForm>)
    ensures o.submission == SubmitIncome(f, parseAmount)
    ensures o.form == (if o.submission.Sent? && accepted then IncomeDefaults(today) else f)
  {
    var s := SubmitIncome(f, parseAmount);
    if s.Sent? && accepted then Outcome(IncomeDefaults(today), s) else Outcome(f, s)
  }

  /** `handleAddExpense`, the same as for incomes with the expense defaults. */
  function HandleAddExpense(f: ExpenseForm, parseAmount: string -> Option<int>, today: string, accepted: bool)
    : (o: Outcome<ExpenseForm>)
    ensures o.submission == SubmitExpense(f, parseAmount)
    ensures o.form == (if o.submission.Sent? && accepted then ExpenseDefaults(today) else f)
  {
    var s := SubmitExpense(f, parseAmount);
    if s.Sent? && accepted then Outcome(ExpenseDefaults(today), s) else Outcome(f, s)
  }

  /** A form the client lets through always carries a source and a date the server accepts, so
      the server's field check can only fail on the amount. */
  lemma SentIncomePassesServerCheckIffAmount(f: IncomeForm, parseAmount: string -> Option<int>)
    requires SubmitIncome(f, parseAmount).Sent?
    ensures CheckEntry(SubmitIncome(f, parseAmount).body, IncomeFieldsMissing).None?
        <==> AmountTruthy(parseAmount(f.amount))
  {
  }

  lemma SentExpensePassesServerCheckIffAmount(f: ExpenseForm, parseAmount: string -> Option<int>)
    requires SubmitExpense(f, parseAmount).Sent?
    ensures CheckEntry(SubmitExpense(f, parseAmount).body, ExpenseFieldsMissing).None?
        <==> AmountTruthy(parseAmount(f.amount))
  {
  }

  /** The reset form cannot be submitted again as it is: its source is empty. */
  lemma ResetIncomeFormIsBlocked(today: string, parseAmount: string -> Option<int>)
    ensures SubmitIncome(IncomeDefaults(today), parseAmount) == Blocked
  {
  }

  lemma ResetExpenseFormIsBlocked(today: string, parseAmount: string -> Option<int>)
    ensures SubmitExpense(ExpenseDefaults(today), parseAmount) == Blocked
  {
  }

  /** An amount of "0" passes the page's check (the string is not empty) but the number 0 is falsy
      on the server, whose 400 is turned into a 500 by the handler's `catch`; the add fails and the
      form keeps what was typed. */
  lemma ZeroIncomeIsRefusedByServer(f: IncomeForm, parseAmount: string -> Option<int>, today: string,
                                    store: seq<Txn>, u: UserId, freshId: RecordId,
                                    castDate: string -> Option<int>, storeUp: bool)
    requires FreshIn(store, freshId)
    requires f.source != "" && f.date != "" && f.amount == "0" && parseAmount("0") == Some(0)
    ensures SubmitIncome(f, parseAmount).Sent?
    ensures var r := AddIncome(store, u, SubmitIncome(f, parseAmount).body, freshId, castDate, storeUp);
      r == Err(ApiError(InternalError, AddIncomeFailed))
      && HandleAddIncome(f, parseAmount, today, r.Ok?).form == f
  {
  }

  lemma ZeroExpenseIsRefusedByServer(f: ExpenseForm, parseAmount: string -> Option<int>, today: string,
                                     store: seq<Txn>, u: UserId, freshId: RecordId,
                                     castDate: string -> Option<int>, storeUp: bool)
    requires FreshIn(store, freshId)
    requires f.category != "" && f.date != "" && f.amount == "0" && parseAmount("0") == Some(0)
    ensures SubmitExpense(f, parseAmount).Sent?
    ensures var r := AddExpense(store, u, SubmitExpense(f, parseAmount).body, freshId, castDate, storeUp);
      r == Err(ApiError(InternalError, AddExpenseFailed))
      && HandleAddExpense(f, parseAmount, today, r.Ok?).form == f
  {
  }

  /** A sent form whose amount parses to a non-zero number and whose date the store can cast is
      added as a record of the caller carrying exactly the typed source, icon and parsed amount. */
  lemma SentIncomeIsRecorded(f: IncomeForm, parseAmount: string -> Option<int>,
                             store: seq<Txn>, u: UserId, freshId: RecordId,
                             castDate: string -> Option<int>)
    requires FreshIn(store, freshId)
    requires SubmitIncome(f, parseAmount).Sent?
    requires parseAmount(f.amount).Some? && parseAmount(f.amount).value != 0
    requires castDate(f.date).Some?
    ensures var r := AddIncome(store, u, SubmitIncome(f, parseAmount).body, freshId, castDate, true);
      r.Ok? && r.value.record == Txn(freshId, u, Some(f.icon), f.source, parseAmount(f.amount).value,
                                     castDate(f.date).value)
  {
  }

  lemma SentExpenseIsRecorded(f: ExpenseForm, parseAmount: string -> Option<int>,
                              store: seq<Txn>, u: UserId, freshId: RecordId,
                              castDate: string -> Option<int>)
    requires FreshIn(store, freshId)
    requires SubmitExpense(f, parseAmount).Sent?
    requires parseAmount(f.amount).Some? && parseAmount(f.amount).value != 0
    requires castDate(f.date).Some?
    ensures var r := AddExpense(store, u, SubmitExpense(f, parseAmount).body, freshId, castDate, true);
      r.Ok? && r.value.record == Txn(freshId, u, Some(f.icon), f.category, parseAmount(f.amount).value,
                                     castDate(f.date).value)
  {
  }
}
