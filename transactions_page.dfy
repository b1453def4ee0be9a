/** The transactions page: the list filter the page applies to the loaded
    transactions, the filter reset, and the request body the form submits. */
module TransactionsPage {
  import opened Base
  import opened Calendar
  import opened TransactionModel
  import Routes = TransactionRoutes

  /** The filter inputs: '' means not set. The two dates are the instants the
      page's `new Date(...)` gives for the date inputs, or None when blank. */
  datatype Filters = Filters(kind: string, category: string, start: Option<Moment>, end: Option<Moment>)

  /** `clearFilters`: every input back to ''. */
  const Cleared: Filters := Filters("", "", None, None)

  /** The `filteredTransactions` predicate: each set input is a constraint,
      and a transaction dated before the start or after the end is dropped. */
  predicate Keep(f: Filters, t: Transaction) {
    (f.kind == "" || KindName(t.kind) == f.kind)
    && (f.category == "" || CategoryName(t.category) == f.category)
    && (f.start.None? || MomentLe(f.start.value, t.date))
    && (f.end.None? || MomentLe(t.date, f.end.value))
  }

  function KeepFn(f: Filters): Transaction -> bool {
    (t: Transaction) => Keep(f, t)
  }

  /** `filteredTransactions`. */
  function Filtered(rows: seq<Transaction>, f: Filters): seq<Transaction> {
    Filter(rows, KeepFn(f))
  }

  /** A transaction is shown exactly when it meets every set input, with both
      date bounds inclusive; the shown list keeps the loaded order. */
  lemma FilteredSpec(rows: seq<Transaction>, f: Filters)
    ensures forall t :: t in Filtered(rows, f) <==>
      (t in rows
       && (f.kind == "" || KindName(t.kind) == f.kind)
       && (f.category == "" || CategoryName(t.category) == f.category)
       && (f.start.Some? ==> MomentLe(f.start.value, t.date))
       && (f.end.Some? ==> MomentLe(t.date, f.end.value)))
    ensures IsSubsequence(Filtered(rows, f), rows)
  {
    forall t ensures t in Filtered(rows, f) <==>
      (t in rows
       && (f.kind == "" || KindName(t.kind) == f.kind)
       && (f.category == "" || CategoryName(t.category) == f.category)
       && (f.start.Some? ==> MomentLe(f.start.value, t.date))
       && (f.end.Some? ==> MomentLe(t.date, f.end.value)))
    {
      FilterMembers(rows, KeepFn(f), t);
    }
    FilterIsSubsequence(rows, KeepFn(f));
  }

  /** With the inputs cleared everything is shown, and filtering the shown
      list again shows the same list. */
  lemma FilteredClearedAndIdempotent(rows: seq<Transaction>, f: Filters)
    ensures Filtered(rows, Cleared) == rows
    ensures Filtered(Filtered(rows, f), f) == Filtered(rows, f)
  {
    FilterAll(rows, KeepFn(Cleared));
    FilterIdempotent(rows, KeepFn(f));
  }

  /** The form as typed: every input is text. */
  datatype Form = Form(kind: string, amount: string, category: string, description: string, date: string)

  /** The body `handleSubmit` sends: the amount through `parseFloat` (None
      standing for NaN, which is sent as null) and the date input's instant,
      or now when the input is blank. */
  datatype Payload = Payload(kind: string, amount: Option<real>, category: string, description: string, date: Moment)

  function Submission(form: Form, parseFloat: string -> Option<real>, parseDate: string -> Moment, now: Moment): (p: Payload)
    ensures p.kind == form.kind && p.category == form.category && p.description == form.description
    ensures p.amount == parseFloat(form.amount)
    ensures form.date == "" ==> p.date == now
    ensures form.date != "" ==> p.date == parseDate(form.date)
  {
    Payload(form.kind, parseFloat(form.amount), form.category, form.description,
      if form.date != "" then parseDate(form.date) else now)
  }

  /** The body as the create route reads it. A NaN amount travels as JSON
      `null`, which the validator does not skip as optional, so it arrives
      malformed rather than absent. */
  function BodyOf(p: Payload): (q: Routes.NewBody)
    ensures q.kind.Given? <==> ParseKind(p.kind).Some?
    ensures q.amount.Given? <==> p.amount.Some?
    ensures q.amount.Malformed? <==> p.amount.None?
    ensures q.date == Given(p.date)
  {
    Routes.NewBody(
      match ParseKind(p.kind) case Some(k) => Given(k) case None => Malformed,
      match p.amount case Some(a) => Given(a) case None => Malformed,
      Some(p.category), Some(p.description), Given(p.date))
  }

  /** A form whose type and category come from the page's choices and whose
      amount reads as a number of at least 0 is stored, with the typed date
      or now; an amount that reads as NaN or below 0 is refused with 400. */
  lemma SubmissionStored(rows: seq<Transaction>, nextId: nat, user: Id, form: Form,
                         parseFloat: string -> Option<real>, parseDate: string -> Moment, now: Moment)
    requires Routes.StoreValid(rows, nextId) && ValidMoment(now)
    requires form.date != "" ==> ValidMoment(parseDate(form.date))
    ensures var q := BodyOf(Submission(form, parseFloat, parseDate, now));
      var o := Routes.Create(rows, nextId, user, q, now);
      (ParseKind(form.kind).Some? && ParseCategory(form.category).Some?
         && parseFloat(form.amount).Some? && parseFloat(form.amount).value >= 0.0
       ==> o.reply.status == 201 && o.reply.body.Some?
           && o.reply.body.value.date == (if form.date == "" then now else parseDate(form.date))
           && o.reply.body.value.amount == parseFloat(form.amount).value)
      && (parseFloat(form.amount).None? || parseFloat(form.amount).value < 0.0 ==> o.reply.status == 400)
  {
    var q := BodyOf(Submission(form, parseFloat, parseDate, now));
    Routes.CreateSpec(rows, nextId, user, q, now);
  }
}
