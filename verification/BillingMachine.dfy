/** The billing protocol as a step machine. A process is one call of a service method; its value is
    the program point between two store calls together with what the call has read so far, possibly
    stale by now. Any process may take its next step, or crash, at any time. */
module BillingMachine {
  import opened Outcomes
  import opened Calendar
  import opened BillingStore

  /** What happens once an invoice is known to be issued: nothing, or the cursor write of a billing run. */
  datatype After = Done | ThenAdvance(enrollment: Id, seen: Option<Period>, period: Period)

  datatype Proc =
    // issue
    | IssueFind(tenant: Id, invoice: Id, k: After)
    | IssueClock(tenant: Id, invoice: Id, k: After)
    | IssueAllocate(tenant: Id, invoice: Id, at: nat, k: After)
    | IssueClaim(tenant: Id, invoice: Id, at: nat, sequence: nat, k: After)
    | IssueReread(tenant: Id, invoice: Id, k: After)
    | EnsureReread(tenant: Id, invoice: Id, k: After)
    // issueInvoiceForEnrollment
    | AdHocEnrollment(tenant: Id, enrollment: Id)
    | AdHocCreate(tenant: Id, bill: Bill)
    // billRecurringForEnrollment
    | BillEnrollment(tenant: Id, enrollment: Id)
    | BillClock(tenant: Id, enrollment: Id, seenDoc: Enrollment)
    | BillFind(tenant: Id, enrollment: Id, seenDoc: Enrollment, period: Period)
    | BillCreate(tenant: Id, enrollment: Id, seenDoc: Enrollment, period: Period, bill: Bill)
    | BillRefind(tenant: Id, enrollment: Id, seenDoc: Enrollment, period: Period)
    | AdvanceCursor(tenant: Id, enrollment: Id, seen: Option<Period>, period: Period)
    // advanceDunning, called for an invoice the sweep listed at `listed`
    | DunFind(tenant: Id, invoice: Id, listed: nat)
    | DunClock(tenant: Id, invoice: Id, snap: Invoice)
    | DunEnrollment(tenant: Id, invoice: Id, snap: Invoice, at: nat)
    | DunStep(tenant: Id, invoice: Id, snap: Invoice, at: nat, freeze: Option<Id>)
    | DunFreeze(tenant: Id, invoice: Id, at: nat, target: Id)
    // recordPaymentResult
    | PayFind(tenant: Id, invoice: Id, payment: Payment, key: string)
    | PayList(tenant: Id, invoice: Id, payment: Payment, key: string)
    | PayCreate(tenant: Id, invoice: Id, payment: Payment, key: string)
    | PayMark(tenant: Id, invoice: Id)

  /** What an observer writes down: a rung climbed, an enrollment frozen. */
  datatype Event =
    | Rung(invoice: Id, fromStage: nat, at: nat)
    | Froze(enrollment: Id, byInvoice: Id, climbedAt: nat)

  /** (tenant, year, sequence) */
  type Slot = (Id, nat, nat)

  /** `burnt` and `log` record history; no step reads them. */
  datatype State = State(
    db: Db, now: nat, procs: map<nat, Proc>,
    burnt: set<Slot>, log: seq<Event>)

  const INITIAL: State := State(EMPTY, 0, map[], {}, [])

  datatype Action =
    | StartIssue(pid: nat, tenant: Id, invoice: Id)
    | StartAdHoc(pid: nat, tenant: Id, enrollment: Id)
    | StartBilling(pid: nat, tenant: Id, enrollment: Id)
    | StartDunning(pid: nat, tenant: Id, invoice: Id, listed: nat)
    | StartPayment(pid: nat, tenant: Id, invoice: Id, payment: Payment, key: string)
    /** `pick` is the store's free choice: the id of a new document, or of the one a lookup found. */
    | Next(pid: nat, pick: Option<Id>)
    | Crash(pid: nat)
    | Tick(to: nat)
    | NewEnrollment(id: Id, doc: Enrollment)

  datatype Effect = Effect(db: Db, next: Option<Proc>, burnt: set<Slot>, events: seq<Event>)

  function Quiet(db: Db, next: Option<Proc>): Effect {
    Effect(db, next, {}, [])
  }

  /** The invoice is issued: finish, or go on to the cursor write. */
  function Success(tenant: Id, k: After): Option<Proc> {
    match k
    case Done => None
    case ThenAdvance(e, seen, period) => Some(AdvanceCursor(tenant, e, seen, period))
  }

  /** `issue` throws: the billing run catches it and re-reads, any other caller gives up. */
  function Thrown(tenant: Id, invoice: Id, k: After): Option<Proc> {
    if k.Done? then None else Some(EnsureReread(tenant, invoice, k))
  }

  predicate IsIssued(db: Db, tenant: Id, id: Id) {
    FindInvoice(db, tenant, id).Some? && db.invoices[id].status != Draft
  }

  function Ensure(db: Db, tenant: Id, id: Id, k: After): Option<Proc> {
    if IsIssued(db, tenant, id) then Success(tenant, k) else Some(IssueFind(tenant, id, k))
  }

  function Continue(enrollment: Id, seenDoc: Enrollment, period: Period): After {
    ThenAdvance(enrollment, seenDoc.currentPeriod, period)
  }

  // ---- The next step of one process, operation by operation ----

  predicate InIssue(p: Proc) {
    p.IssueFind? || p.IssueClock? || p.IssueAllocate? || p.IssueClaim? || p.IssueReread? || p.EnsureReread?
  }

  function AdvanceIssue(db: Db, now: nat, p: Proc): Effect
    requires InIssue(p)
  {
    var t, id, k := p.tenant, p.invoice, p.k;
    if p.IssueFind? then
      if FindInvoice(db, t, id).Some? && db.invoices[id].status == Draft
      then Quiet(db, Some(IssueClock(t, id, k)))
      else Quiet(db, Thrown(t, id, k))
    else if p.IssueClock? then Quiet(db, Some(IssueAllocate(t, id, now, k)))
    else if p.IssueAllocate? then
      var (db', n) := Allocate(db, t, YearOf(p.at));
      Quiet(db', Some(IssueClaim(t, id, p.at, n, k)))
    else if p.IssueClaim? then
      var slot := (t, YearOf(p.at), p.sequence);
      match ClaimForIssue(db, t, id, p.at, Number(YearOf(p.at), p.sequence))
      case Err(_) => Effect(db, Thrown(t, id, k), {slot}, [])
      case Ok((db', won)) =>
        if won.Some? then Quiet(db', Success(t, k))
        else Effect(db, Some(IssueReread(t, id, k)), {slot}, [])
    else if p.IssueReread? then
      Quiet(db, if IsIssued(db, t, id) then Success(t, k) else Thrown(t, id, k))
    else
      Quiet(db, if IsIssued(db, t, id) then Success(t, k) else None)
  }

  predicate InAdHoc(p: Proc) {
    p.AdHocEnrollment? || p.AdHocCreate?
  }

  function AdvanceAdHoc(c: Catalog, db: Db, p: Proc, pick: Option<Id>): Effect
    requires InAdHoc(p)
  {
    match p
    case AdHocEnrollment(t, e) =>
      var doc := FindEnrollment(db, t, e);
      if doc.None? || doc.value.plan !in c.plans then Quiet(db, None)
      else
        var bill := BillFor(c, c.plans[doc.value.plan], doc.value.member, None, None);
        Quiet(db, if bill.None? then None else Some(AdHocCreate(t, bill.value)))
    case AdHocCreate(t, bill) =>
      if pick.None? || pick.value in db.invoices then Quiet(db, Some(p))
      else
        match CreateDraft(db, t, pick.value, bill)
        case Ok(db') => Quiet(db', Some(IssueFind(t, pick.value, Done)))
        case Err(_) => Quiet(db, None)
  }

  predicate InBilling(p: Proc) {
    p.BillEnrollment? || p.BillClock? || p.BillFind? || p.BillCreate? || p.BillRefind? || p.AdvanceCursor?
  }

  function AdvanceBilling(c: Catalog, db: Db, now: nat, p: Proc, pick: Option<Id>): Effect
    requires InBilling(p)
  {
    match p
    case BillEnrollment(t, e) =>
      var doc := FindEnrollment(db, t, e);
      if doc.None? || doc.value.status != Active || doc.value.plan !in c.plans then Quiet(db, None)
      else Quiet(db, Some(BillClock(t, e, doc.value)))
    case BillClock(t, e, doc) =>
      if doc.plan !in c.plans then Quiet(db, None)
      else
        (match ComputeBillingPeriod(c.plans[doc.plan].months, doc.startDate, doc.currentPeriod, AsOf(now))
         case None => Quiet(db, None)
         case Some(period) => Quiet(db, Some(BillFind(t, e, doc, period))))
    case BillFind(t, e, doc, period) =>
      if !PeriodAnswer(db, t, e, period.start, pick) then Quiet(db, Some(p))
      else if pick.Some? then Quiet(db, Ensure(db, t, pick.value, Continue(e, doc, period)))
      else if doc.plan !in c.plans then Quiet(db, None)
      else
        var bill := BillFor(c, c.plans[doc.plan], doc.member, Some(e), Some(period));
        Quiet(db, if bill.None? then None else Some(BillCreate(t, e, doc, period, bill.value)))
    case BillCreate(t, e, doc, period, bill) =>
      if pick.None? || pick.value in db.invoices then Quiet(db, Some(p))
      else
        (match CreateDraft(db, t, pick.value, bill)
         case Ok(db') => Quiet(db', Some(IssueFind(t, pick.value, Continue(e, doc, period))))
         case Err(_) => Quiet(db, Some(BillRefind(t, e, doc, period))))
    case BillRefind(t, e, doc, period) =>
      if !PeriodAnswer(db, t, e, period.start, pick) then Quiet(db, Some(p))
      else if pick.Some? then Quiet(db, Ensure(db, t, pick.value, Continue(e, doc, period)))
      else Quiet(db, None)
    case AdvanceCursor(t, e, seen, period) =>
      if seen.None? || Before(seen.value.end, period.end)
      then Quiet(SetCurrentPeriod(db, t, e, period), None)
      else Quiet(db, None)
  }

  predicate InDunning(p: Proc) {
    p.DunFind? || p.DunClock? || p.DunEnrollment? || p.DunStep? || p.DunFreeze?
  }

  function AdvanceDunning(db: Db, now: nat, p: Proc): Effect
    requires InDunning(p)
  {
    match p
    case DunFind(t, id, _) =>
      var found := FindInvoice(db, t, id);
      Quiet(db, if found.None? then None else Some(DunClock(t, id, found.value)))
    case DunClock(t, id, snap) =>
      if snap.status != Open || (snap.nextRetryAt.Some? && now < snap.nextRetryAt.value) then Quiet(db, None)
      else if snap.bill.enrollment.Some? then Quiet(db, Some(DunEnrollment(t, id, snap, now)))
      else Quiet(db, Some(DunStep(t, id, snap, now, None)))
    case DunEnrollment(t, id, snap, at) =>
      if snap.bill.enrollment.None? then Quiet(db, None)
      else
        var found := FindEnrollment(db, t, snap.bill.enrollment.value);
        if found.Some? && found.value.member != snap.bill.member then Quiet(db, None)
        else Quiet(db, Some(DunStep(t, id, snap, at, if found.Some? then snap.bill.enrollment else None)))
    case DunStep(t, id, snap, at, freeze) =>
      var (db', stepped) := AdvanceDunningStep(db, t, id, snap.dunningStage, at);
      if stepped.None? then Quiet(db, None)
      else
        var next := if snap.dunningStage + 1 >= SUSPEND_STAGE && freeze.Some? then Some(DunFreeze(t, id, at, freeze.value)) else None;
        Effect(db', next, {}, [Rung(id, snap.dunningStage, at)])
    case DunFreeze(t, id, at, e) =>
      Effect(Freeze(db, t, e), None, {}, [Froze(e, id, at)])
  }

  predicate InPayment(p: Proc) {
    p.PayFind? || p.PayList? || p.PayCreate? || p.PayMark?
  }

  function AdvancePayment(db: Db, now: nat, p: Proc): Effect
    requires InPayment(p)
  {
    match p
    case PayFind(t, id, payment, key) =>
      var found := FindInvoice(db, t, id);
      if found.None? || payment.amount.currency != found.value.bill.totals.total.currency then Quiet(db, None)
      else Quiet(db, Some(PayList(t, id, payment, key)))
    case PayList(t, id, payment, key) =>
      if (t, key) in db.payments && db.payments[(t, key)].invoice == id then Quiet(db, None)
      else Quiet(db, Some(PayCreate(t, id, payment, key)))
    case PayCreate(t, id, payment, key) =>
      (match CreatePayment(db, t, key, payment)
       case Err(_) => Quiet(db, None)
       case Ok(db') => Quiet(db', if payment.status == Succeeded then Some(PayMark(t, id)) else None))
    case PayMark(t, id) => Quiet(MarkPaid(db, t, id, now), None)
  }

  /** The next step of any process. A pick the store could not have made leaves everything as it is. */
  function Advance(c: Catalog, db: Db, now: nat, p: Proc, pick: Option<Id>): Effect {
    if InIssue(p) then AdvanceIssue(db, now, p)
    else if InAdHoc(p) then AdvanceAdHoc(c, db, p, pick)
    else if InBilling(p) then AdvanceBilling(c, db, now, p, pick)
    else if InDunning(p) then AdvanceDunning(db, now, p)
    else AdvancePayment(db, now, p)
  }

  function Started(s: State, pid: nat, p: Proc): State {
    if pid in s.procs then s else s.(procs := s.procs[pid := p])
  }

  function HeldBy(p: Proc): set<Slot> {
    if p.IssueClaim? then {(p.tenant, YearOf(p.at), p.sequence)} else {}
  }

  function Without(procs: map<nat, Proc>, pid: nat): map<nat, Proc> {
    map q | q in procs && q != pid :: procs[q]
  }

  function Settle(procs: map<nat, Proc>, pid: nat, next: Option<Proc>): map<nat, Proc> {
    match next
    case Some(p) => procs[pid := p]
    case None => Without(procs, pid)
  }

  function Apply(s: State, pid: nat, e: Effect): State {
    State(e.db, s.now, Settle(s.procs, pid, e.next), s.burnt + e.burnt, s.log + e.events)
  }

  function Step(c: Catalog, s: State, a: Action): State {
    match a
    case StartIssue(pid, t, id) => Started(s, pid, IssueFind(t, id, Done))
    case StartAdHoc(pid, t, e) => Started(s, pid, AdHocEnrollment(t, e))
    case StartBilling(pid, t, e) => Started(s, pid, BillEnrollment(t, e))
    case StartDunning(pid, t, id, listed) =>
      if listed <= s.now && FindInvoice(s.db, t, id).Some? && Dunnable(s.db.invoices[id], listed)
      then Started(s, pid, DunFind(t, id, listed))
      else s
    case StartPayment(pid, t, id, payment, key) => Started(s, pid, PayFind(t, id, payment.(invoice := id), key))
    case Next(pid, pick) =>
      if pid in s.procs then Apply(s, pid, Advance(c, s.db, s.now, s.procs[pid], pick)) else s
    case Crash(pid) =>
      if pid in s.procs then Apply(s, pid, Effect(s.db, None, HeldBy(s.procs[pid]), [])) else s
    case Tick(to) => if s.now <= to then s.(now := to) else s
    case NewEnrollment(id, doc) =>
      if id !in s.db.enrollments && Valid(doc.startDate) && doc.currentPeriod.None?
      then s.(db := s.db.(enrollments := s.db.enrollments[id := doc]))
      else s
  }

  function Run(c: Catalog, s: State, actions: seq<Action>): State {
    if actions == [] then s else Step(c, Run(c, s, actions[..|actions| - 1]), actions[|actions| - 1])
  }
}
