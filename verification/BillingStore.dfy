/** The billing documents and the atomic store operations: every database call of the billing code is
    one indivisible step, written here as a function from the documents before to the documents after. */
module BillingStore {
  import opened Outcomes
  import opened Calendar
  import opened Money

  type Id = string

  /** Net payment terms, days between dunning retries, and the stage that suspends. */
  const DUE_DAYS: nat := 14
  const RETRY_DAYS: nat := 3
  const SUSPEND_STAGE: nat := 4

  // ---- Catalogue: fixed while the protocol runs ----

  datatype Plan = Plan(name: string, price: Money, months: nat, vatRate: Option<Id>)

  datatype Catalog = Catalog(plans: map<Id, Plan>, vatRates: map<Id, Rate>)

  // ---- Documents ----

  datatype EnrollmentStatus = Pending | Active | Frozen | Cancelled

  datatype Period = Period(start: Date, end: Date)

  datatype Enrollment = Enrollment(
    tenant: Id, member: Id, plan: Id, startDate: Date,
    status: EnrollmentStatus,
    currentPeriod: Option<Period>)

  datatype InvoiceStatus = Draft | Open | Paid | Void | Uncollectible

  /** What an invoice says; no operation below writes it after creation. */
  datatype Bill = Bill(
    member: Id,
    enrollment: Option<Id>, period: Option<Period>,
    lines: seq<InvoiceLine>, totals: Totals)

  datatype Number = Number(year: nat, sequence: nat)

  datatype Invoice = Invoice(
    tenant: Id, bill: Bill,
    status: InvoiceStatus,
    number: Option<Number>,
    issuedAt: Option<nat>, dueAt: Option<nat>, paidAt: Option<nat>,
    dunningStage: nat, nextRetryAt: Option<nat>)

  datatype PaymentStatus = PaymentPending | Processing | Succeeded | Failed | Refunded

  datatype Payment = Payment(invoice: Id, amount: Money, status: PaymentStatus)

  /** A payment's key is its tenant and idempotency key; a counter's key is its tenant and year. */
  datatype Db = Db(
    enrollments: map<Id, Enrollment>,
    invoices: map<Id, Invoice>,
    counters: map<(Id, nat), nat>,
    payments: map<(Id, string), Payment>)

  const EMPTY: Db := Db(map[], map[], map[], map[])

  datatype StoreError = DuplicatePeriod | DuplicateNumber | DuplicatePaymentKey

  // ---- Clock readings ----

  function YearOf(at: nat): nat {
    DateOfDay(at / DAY).year
  }

  function AsOf(at: nat): Date {
    DateOfDay(at / DAY)
  }

  /** The clock as the documents have it: an instant lies on its date and in its year, by the civil calendar. */
  lemma ReadingsAreCivil(at: nat)
    ensures var d := AsOf(at);
            && Valid(d) && CivilDays(d.year, d.month, d.day) * DAY <= at < (CivilDays(d.year, d.month, d.day) + 1) * DAY
            && CivilDays(YearOf(at), 1, 1) * DAY <= at < CivilDays(YearOf(at) + 1, 1, 1) * DAY
  {
    hide CivilDays;
    DateOfDayIsCivil(at / DAY);
  }

  // ---- Enrollments ----

  function FindEnrollment(db: Db, tenant: Id, id: Id): Option<Enrollment> {
    if id in db.enrollments && db.enrollments[id].tenant == tenant then Some(db.enrollments[id]) else None
  }

  function SetCurrentPeriod(db: Db, tenant: Id, id: Id, period: Period): Db {
    if FindEnrollment(db, tenant, id).Some?
    then db.(enrollments := db.enrollments[id := db.enrollments[id].(currentPeriod := Some(period))])
    else db
  }

  function Freeze(db: Db, tenant: Id, id: Id): Db {
    if FindEnrollment(db, tenant, id).Some?
    then db.(enrollments := db.enrollments[id := db.enrollments[id].(status := Frozen)])
    else db
  }

  // ---- Invoices ----

  function FindInvoice(db: Db, tenant: Id, id: Id): Option<Invoice> {
    if id in db.invoices && db.invoices[id].tenant == tenant then Some(db.invoices[id]) else None
  }

  /** The unique-index key of a subscription invoice; ad-hoc invoices have none. */
  predicate SamePeriodKey(tenant: Id, bill: Bill, other: Invoice) {
    bill.enrollment.Some? && other.tenant == tenant && other.bill.enrollment == bill.enrollment
    && StartOf(other.bill) == StartOf(bill)
  }

  function StartOf(bill: Bill): Option<Date> {
    if bill.period.Some? then Some(bill.period.value.start) else None
  }

  predicate PeriodTaken(db: Db, tenant: Id, bill: Bill) {
    exists id :: id in db.invoices && SamePeriodKey(tenant, bill, db.invoices[id])
  }

  predicate MatchesPeriod(db: Db, tenant: Id, enrollment: Id, start: Date, id: Id) {
    id in db.invoices && db.invoices[id].tenant == tenant
    && db.invoices[id].bill.enrollment == Some(enrollment) && StartOf(db.invoices[id].bill) == Some(start)
  }

  /** What `findByEnrollmentPeriod` may answer: some matching invoice, or none when none matches. */
  predicate PeriodAnswer(db: Db, tenant: Id, enrollment: Id, start: Date, hit: Option<Id>) {
    match hit
    case Some(id) => MatchesPeriod(db, tenant, enrollment, start, id)
    case None => forall id :: id in db.invoices ==> !MatchesPeriod(db, tenant, enrollment, start, id)
  }

  function DraftOf(tenant: Id, bill: Bill): Invoice {
    Invoice(tenant, bill, Draft, None, None, None, None, 0, None)
  }

  /** Insert a draft; the unique index on (tenant, enrollment, period start) rejects a second one. */
  function CreateDraft(db: Db, tenant: Id, id: Id, bill: Bill): Result<Db, StoreError>
    requires id !in db.invoices
  {
    if PeriodTaken(db, tenant, bill) then Err(DuplicatePeriod)
    else Ok(db.(invoices := db.invoices[id := DraftOf(tenant, bill)]))
  }

  predicate NumberTaken(db: Db, tenant: Id, number: Number) {
    exists id :: id in db.invoices && db.invoices[id].tenant == tenant && db.invoices[id].number == Some(number)
  }

  function Issued(inv: Invoice, at: nat, number: Number): Invoice {
    inv.(status := Open, issuedAt := Some(at), dueAt := Some(at + DUE_DAYS * DAY), number := Some(number))
  }

  /** Status, dates and number in one conditional write: applies only to a draft. */
  function ClaimForIssue(db: Db, tenant: Id, id: Id, at: nat, number: Number): Result<(Db, Option<Invoice>), StoreError> {
    if FindInvoice(db, tenant, id).Some? && db.invoices[id].status == Draft then
      if NumberTaken(db, tenant, number) then Err(DuplicateNumber)
      else
        var issued := Issued(db.invoices[id], at, number);
        Ok((db.(invoices := db.invoices[id := issued]), Some(issued)))
    else Ok((db, None))
  }

  function Stepped(inv: Invoice, at: nat): Invoice {
    if inv.dunningStage + 1 >= SUSPEND_STAGE
    then inv.(status := Uncollectible, dunningStage := inv.dunningStage + 1, nextRetryAt := None)
    else inv.(dunningStage := inv.dunningStage + 1, nextRetryAt := Some(at + RETRY_DAYS * DAY))
  }

  /** One rung, conditional on the invoice still being open at the stage the caller read. */
  function AdvanceDunningStep(db: Db, tenant: Id, id: Id, fromStage: nat, at: nat): (Db, Option<Invoice>) {
    if FindInvoice(db, tenant, id).Some? && db.invoices[id].status == Open && db.invoices[id].dunningStage == fromStage
    then (db.(invoices := db.invoices[id := Stepped(db.invoices[id], at)]), Some(Stepped(db.invoices[id], at)))
    else (db, None)
  }

  /** The unconditional update of a recorded payment: it does not look at the status. */
  function MarkPaid(db: Db, tenant: Id, id: Id, at: nat): Db {
    if FindInvoice(db, tenant, id).Some?
    then db.(invoices := db.invoices[id := db.invoices[id].(status := Paid, paidAt := Some(at), dunningStage := 0, nextRetryAt := None)])
    else db
  }

  /** The sweep's filter: open, past due, and never retried or past the retry time. */
  predicate Dunnable(inv: Invoice, at: nat) {
    inv.status == Open && inv.dueAt.Some? && inv.dueAt.value < at
    && (inv.nextRetryAt.None? || inv.nextRetryAt.value <= at)
  }

  // ---- Counters and payments ----

  function CounterOf(db: Db, tenant: Id, year: nat): nat {
    if (tenant, year) in db.counters then db.counters[(tenant, year)] else 0
  }

  /** `$inc` with upsert: one more than every number handed out before. */
  function Allocate(db: Db, tenant: Id, year: nat): (Db, nat) {
    var n := CounterOf(db, tenant, year) + 1;
    (db.(counters := db.counters[(tenant, year) := n]), n)
  }

  function CreatePayment(db: Db, tenant: Id, key: string, payment: Payment): Result<Db, StoreError> {
    if (tenant, key) in db.payments then Err(DuplicatePaymentKey)
    else Ok(db.(payments := db.payments[(tenant, key) := payment]))
  }

  // ---- What the service computes between the calls ----

  function VatPercent(c: Catalog, plan: Plan): Option<Rate> {
    if plan.vatRate.None? then Some(Percent(0, 1))
    else if plan.vatRate.value in c.vatRates then Some(c.vatRates[plan.vatRate.value])
    else None
  }

  /** The bill for one unit of the plan; None when the plan's VAT rate is missing. */
  function BillFor(c: Catalog, plan: Plan, member: Id, enrollment: Option<Id>, period: Option<Period>): (b: Option<Bill>)
    ensures b.Some? ==> b.value.enrollment == enrollment && b.value.period == period && b.value.member == member
  {
    match VatPercent(c, plan)
    case None => None
    case Some(p) =>
      var line := BuildInvoiceLine(plan.name, 1, plan.price, p);
      match InvoiceTotals([line], plan.price.currency)
      case Ok(t) => Some(Bill(member, enrollment, period, [line], t))
      case Err(_) => None
  }

  /** The next period to bill, or None for a non-recurring plan or a period that has not started. */
  function ComputeBillingPeriod(months: nat, startDate: Date, current: Option<Period>, asOf: Date): Option<Period> {
    if months == 0 then None
    else
      var start := if current.Some? then current.value.end else startDate;
      if Before(asOf, start) then None else Some(Period(start, AddMonths(start, months)))
  }
}
