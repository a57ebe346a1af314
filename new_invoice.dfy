/**
 * The `createInvoice` server action of the new-invoice page: it turns the
 * submitted form into one invoice row, or redirects, or silently gives up.
 *
 * The remote parts are values here: the signed-in user is an optional
 * input, the insert is the record the action would send, and the insert's
 * failure is an optional error message handed to `Respond`.
 */
module NewInvoice {
  import opened Options
  import opened JsStrings

  type UserId = string

  /**
   * The submitted form. A text field is `None` when `formData.get` gives
   * `null`. An amount is `None` when the field is missing or empty (both
   * falsy, so `|| 0` applies) and otherwise holds the number it parses to.
   */
  datatype InvoiceForm = InvoiceForm(
    ref: Option<string>,
    clientName: Option<string>,
    eventDate: Option<string>,
    total: Option<real>,
    deposit: Option<real>,
    status: Option<string>,
    notes: Option<string>)

  /** The row inserted into the `invoices` table. */
  datatype InvoiceRecord = InvoiceRecord(
    userId: UserId,
    ref: string,
    clientName: string,
    eventDate: Option<string>,
    total: real,
    deposit: real,
    balance: real,
    status: string,
    notes: Option<string>)

  /** What the action decides before it talks to the database. */
  datatype Outcome =
    | RedirectToLogin         // no signed-in user: `redirect("/login")`
    | Rejected                // `ref` or `client_name` blank: `return` without inserting
    | Insert(record: InvoiceRecord)

  /** How the request ends once the insert (if any) has answered. */
  datatype Response =
    | RedirectTo(path: string)
    | ReturnedEarly
    | Threw(message: string)

  const DefaultStatus: string := "Draft"
  const LoginPath: string := "/login"
  const InvoicesPath: string := "/dashboard/invoices"

  /** `String(formData.get(name) || "").trim()`. */
  function TextField(v: Option<string>): (r: string)
    ensures r == [] <==> v == None || AllWhiteSpace(v.value)
    ensures v.Some? ==> r == Trim(v.value)
  {
    TrimEmptyIff(OrElse(v, ""));
    Trim(OrElse(v, ""))
  }

  /** `Number(formData.get(name) || 0)` for a value already parsed. */
  function Amount(v: Option<real>): (r: real)
    ensures v == None ==> r == 0.0
    ensures v.Some? ==> r == v.value
  {
    match v
    case None => 0.0
    case Some(x) => x
  }

  /** `String(formData.get("status") || "Draft").trim()`. */
  function StatusField(v: Option<string>): (r: string)
    ensures r == DefaultStatus <==> v == None || v == Some([]) || Trim(v.value) == DefaultStatus
    ensures v != None && v != Some([]) ==> r == Trim(v.value)
  {
    Trim(OrElse(v, DefaultStatus))
  }

  /** `x ? x : null` and `x || null` for an already trimmed string. */
  function NullIfEmpty(s: string): (r: Option<string>)
    ensures r == None <==> s == []
    ensures r.Some? ==> r.value == s
  {
    if s == [] then None else Some(s)
  }

  /**
   * The row `createInvoice` builds from a signed-in user's form: every
   * field is normalised and the balance computed before any validation.
   */
  function Normalize(id: UserId, form: InvoiceForm): (rec: InvoiceRecord)
    ensures rec.userId == id
    ensures rec.balance == rec.total - rec.deposit
  {
    var ref := TextField(form.ref);
    var clientName := TextField(form.clientName);
    var eventDateRaw := TextField(form.eventDate);
    var total := Amount(form.total);
    var deposit := Amount(form.deposit);
    var status := StatusField(form.status);
    var notes := TextField(form.notes);
    var eventDate := NullIfEmpty(eventDateRaw);
    var balance := total - deposit;
    InvoiceRecord(id, ref, clientName, eventDate, total, deposit, balance, status, NullIfEmpty(notes))
  }

  /** The decision `createInvoice` makes for a user and a submitted form. */
  function Plan(user: Option<UserId>, form: InvoiceForm): (o: Outcome)
    ensures user == None <==> o == RedirectToLogin
    ensures o.Insert? ==> o.record == Normalize(user.value, form)
    ensures o.Insert? ==> o.record.ref != [] && o.record.clientName != []
  {
    match user
    case None => RedirectToLogin
    case Some(id) =>
      var rec := Normalize(id, form);
      if rec.ref == [] || rec.clientName == [] then Rejected else Insert(rec)
  }

  /**
   * The end of the request: an insert error becomes a thrown error with its message, a successful
   * insert redirects to the invoice list.
   */
  function Respond(o: Outcome, insertError: Option<string>): (r: Response)
    ensures r == RedirectTo(InvoicesPath) <==> o.Insert? && insertError == None
    ensures r.Threw? <==> o.Insert? && insertError.Some?
    ensures r.Threw? ==> r.message == insertError.value
    ensures r == RedirectTo(LoginPath) <==> o == RedirectToLogin
    ensures r == ReturnedEarly <==> o == Rejected
  {
    match o
    case RedirectToLogin => RedirectTo(LoginPath)
    case Rejected => ReturnedEarly
    case Insert(_) =>
      match insertError
      case Some(m) => Threw(m)
      case None => RedirectTo(InvoicesPath)
  }

  /** The whole action: `Plan`, then `Respond` to whatever the insert answered. */
  function CreateInvoice(user: Option<UserId>, form: InvoiceForm, insertError: Option<string>): (r: Response)
    ensures user == None ==> r == RedirectTo(LoginPath)
    ensures r == RedirectTo(InvoicesPath) ==> Plan(user, form).Insert? && insertError == None
  {
    Respond(Plan(user, form), insertError)
  }

  // ----- Properties of the decision -----

  /** A caller who is not signed in is sent to the login page and nothing is inserted. */
  lemma UnauthenticatedInsertsNothing(form: InvoiceForm, insertError: Option<string>)
    ensures Plan(None, form) == RedirectToLogin
    ensures CreateInvoice(None, form, insertError) == RedirectTo(LoginPath)
  {
  }

  /**
   * A signed-in submission is rejected exactly when the reference or the
   * client name is missing or white space only, whatever the other fields
   * (and the balance already computed from them) hold; otherwise the
   * normalised row is inserted.
   */
  lemma RejectedIff(id: UserId, form: InvoiceForm)
    ensures Plan(Some(id), form) == Rejected <==>
      (form.ref == None || AllWhiteSpace(form.ref.value) ||
       form.clientName == None || AllWhiteSpace(form.clientName.value))
    ensures Plan(Some(id), form) != Rejected ==> Plan(Some(id), form) == Insert(Normalize(id, form))
  {
  }

  /** An inserted row belongs to the signed-in user and holds the trimmed, non-blank reference and client name. */
  lemma InsertedRefAndClient(id: UserId, form: InvoiceForm)
    requires Plan(Some(id), form).Insert?
    ensures Plan(Some(id), form).record.userId == id
    ensures form.ref.Some? && Plan(Some(id), form).record.ref == Trim(form.ref.value)
    ensures form.clientName.Some? && Plan(Some(id), form).record.clientName == Trim(form.clientName.value)
    ensures !AllWhiteSpace(form.ref.value) && !AllWhiteSpace(form.clientName.value)
  {
  }

  /** Missing or empty amounts are stored as 0, and the balance is their exact difference. */
  lemma NormalizedAmounts(id: UserId, form: InvoiceForm)
    ensures form.total == None ==> Normalize(id, form).total == 0.0
    ensures form.total.Some? ==> Normalize(id, form).total == form.total.value
    ensures form.deposit == None ==> Normalize(id, form).deposit == 0.0
    ensures form.deposit.Some? ==> Normalize(id, form).deposit == form.deposit.value
    ensures Normalize(id, form).balance == Amount(form.total) - Amount(form.deposit)
  {
  }

  /** The event date is null exactly when the submitted date is missing or blank, and trimmed otherwise. */
  lemma NormalizedEventDate(id: UserId, form: InvoiceForm)
    ensures Normalize(id, form).eventDate == None <==> form.eventDate == None || AllWhiteSpace(form.eventDate.value)
    ensures Normalize(id, form).eventDate.Some? ==> Normalize(id, form).eventDate.value == Trim(form.eventDate.value)
  {
  }

  /** The notes are null exactly when the submitted notes are missing or blank, and trimmed otherwise. */
  lemma NormalizedNotes(id: UserId, form: InvoiceForm)
    ensures Normalize(id, form).notes == None <==> form.notes == None || AllWhiteSpace(form.notes.value)
    ensures Normalize(id, form).notes.Some? ==> Normalize(id, form).notes.value == Trim(form.notes.value)
  {
  }

  /**
   * The status falls back to "Draft" only for a missing or empty field;
   * any other submission is stored trimmed and unchecked, so a status of
   * white space only is stored as the empty string.
   */
  lemma NormalizedStatus(id: UserId, form: InvoiceForm)
    ensures form.status == None || form.status == Some([]) ==> Normalize(id, form).status == DefaultStatus
    ensures form.status != None && form.status != Some([]) ==> Normalize(id, form).status == Trim(form.status.value)
    ensures form.status != None && AllWhiteSpace(form.status.value) && form.status != Some([]) ==>
      Normalize(id, form).status == []
  {
    if form.status != None && form.status != Some([]) {
      TrimEmptyIff(form.status.value);
    }
  }

  /** Every text field of the row is already in trimmed form. */
  lemma NormalizedTextIsTrimmed(id: UserId, form: InvoiceForm)
    ensures Trim(Normalize(id, form).ref) == Normalize(id, form).ref
    ensures Trim(Normalize(id, form).clientName) == Normalize(id, form).clientName
    ensures Trim(Normalize(id, form).status) == Normalize(id, form).status
    ensures Normalize(id, form).eventDate.Some? ==>
      Trim(Normalize(id, form).eventDate.value) == Normalize(id, form).eventDate.value
    ensures Normalize(id, form).notes.Some? ==>
      Trim(Normalize(id, form).notes.value) == Normalize(id, form).notes.value
  {
    var rec := Normalize(id, form);
    TrimOfTrimmed(rec.ref);
    TrimOfTrimmed(rec.clientName);
    TrimOfTrimmed(rec.status);
    if rec.eventDate.Some? { TrimOfTrimmed(rec.eventDate.value); }
    if rec.notes.Some? { TrimOfTrimmed(rec.notes.value); }
  }

  /** A failed insert ends the request with its message and never with the success redirect. */
  lemma InsertErrorAborts(id: UserId, form: InvoiceForm, message: string)
    ensures CreateInvoice(Some(id), form, Some(message)) != RedirectTo(InvoicesPath)
    ensures Plan(Some(id), form).Insert? ==> CreateInvoice(Some(id), form, Some(message)) == Threw(message)
  {
  }

  /** A whitespace-only status is stored as the empty string, not as "Draft". */
  lemma BlankStatusIsNotDraft()
    ensures var form := InvoiceForm(Some("A1"), Some("Ann"), None, Some(500.0), None, Some("  "), None);
      Plan(Some("u"), form) == Insert(InvoiceRecord("u", "A1", "Ann", None, 500.0, 0.0, 500.0, "", None))
  {
    assert Trim("  ") == [] by { TrimEmptyIff("  "); }
    assert Trim("A1") == "A1" by { TrimOfTrimmed("A1"); }
    assert Trim("Ann") == "Ann" by { TrimOfTrimmed("Ann"); }
  }
}
