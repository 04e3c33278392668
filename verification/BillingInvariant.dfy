/** What every reachable state of the billing protocol satisfies, what every step keeps about single
    documents, and what a suspended process may still rely on when it wakes up. */
module BillingInvariant {
  import opened Outcomes
  import opened Calendar
  import opened Money
  import opened BillingStore
  import opened BillingMachine

  // ---- The billing chain of an enrollment ----

  predicate HasChain(c: Catalog, e: Enrollment) {
    Valid(e.startDate) && e.plan in c.plans && c.plans[e.plan].months > 0
  }

  function PeriodAt(c: Catalog, e: Enrollment, k: nat): Period
    requires HasChain(c, e)
  {
    Period(Boundary(e.startDate, c.plans[e.plan].months, k), Boundary(e.startDate, c.plans[e.plan].months, k + 1))
  }

  /** Invoice `id` bills the k-th period of enrollment `e`. */
  ghost predicate Covers(c: Catalog, db: Db, e: Id, k: nat, id: Id) {
    && e in db.enrollments && HasChain(c, db.enrollments[e])
    && id in db.invoices
    && db.invoices[id].tenant == db.enrollments[e].tenant
    && db.invoices[id].bill.enrollment == Some(e)
    && db.invoices[id].bill.period == Some(PeriodAt(c, db.enrollments[e], k))
  }

  ghost predicate PeriodBilled(c: Catalog, db: Db, e: Id, k: nat) {
    exists id :: Covers(c, db, e, k, id)
  }

  ghost predicate PeriodIssued(c: Catalog, db: Db, e: Id, k: nat) {
    exists id :: Covers(c, db, e, k, id) && db.invoices[id].status != Draft
  }

  ghost predicate IssuedBelow(c: Catalog, db: Db, e: Id, j: nat) {
    forall k: nat :: k < j ==> PeriodIssued(c, db, e, k)
  }

  /** The cursor value `cur` says that the periods before the j-th are done. */
  predicate CursorAt(c: Catalog, e: Enrollment, cur: Option<Period>, j: nat)
    requires HasChain(c, e)
  {
    cur == if j == 0 then None else Some(PeriodAt(c, e, j - 1))
  }

  ghost predicate OnChain(c: Catalog, db: Db, e: Id, cur: Option<Period>, j: nat) {
    && e in db.enrollments && HasChain(c, db.enrollments[e])
    && CursorAt(c, db.enrollments[e], cur, j)
    && IssuedBelow(c, db, e, j)
  }

  // ---- What a bill says ----

  /** One line: one unit of the plan at its own price, with the nearest whole amount of VAT, and totals to
      match, all in the currency of the price. */
  predicate UnitBillAt(plan: Plan, rate: Rate, bill: Bill) {
    var price, currency := plan.price.amountMinor, plan.price.currency;
    && |bill.lines| == 1
    && bill.totals.subtotal == plan.price
    && bill.totals.vatTotal.currency == currency && Nearest(price * rate.num, 100 * rate.den, bill.totals.vatTotal.amountMinor)
    && bill.totals.total == Money(price + bill.totals.vatTotal.amountMinor, currency)
    && bill.lines[0] == InvoiceLine(plan.name, 1, plan.price, rate, bill.totals.vatTotal, bill.totals.total)
  }

  /** … at the rate of the plan's rate document, which must exist, or 0 when the plan names none. */
  predicate UnitBill(c: Catalog, plan: Plan, bill: Bill) {
    && (plan.vatRate.Some? ==> plan.vatRate.value in c.vatRates)
    && UnitBillAt(plan, if plan.vatRate.Some? then c.vatRates[plan.vatRate.value] else Percent(0, 1), bill)
  }

  /** The bill of an enrollment is one unit of its plan, for its member; any other is one unit of some plan. */
  predicate Priced(c: Catalog, db: Db, bill: Bill) {
    match bill.enrollment
    case Some(e) =>
      && e in db.enrollments && db.enrollments[e].member == bill.member
      && db.enrollments[e].plan in c.plans && UnitBill(c, c.plans[db.enrollments[e].plan], bill)
    case None => OfSomePlan(c, bill)
  }

  predicate OfSomePlan(c: Catalog, bill: Bill) {
    exists plan :: plan in c.plans && UnitBill(c, c.plans[plan], bill)
  }

  /** A bill is made exactly when the plan's rate exists, and then it is one unit of the plan. */
  lemma BillForExactly(c: Catalog, plan: Plan, member: Id, enrollment: Option<Id>, period: Option<Period>)
    ensures var b := BillFor(c, plan, member, enrollment, period);
            && (b.Some? <==> plan.vatRate.Some? ==> plan.vatRate.value in c.vatRates)
            && (b.Some? ==> UnitBill(c, plan, b.value))
  {
    var b := BillFor(c, plan, member, enrollment, period);
    if b.Some? {
      var rate: Rate := if plan.vatRate.Some? then c.vatRates[plan.vatRate.value] else Percent(0, 1);
      RoundIsNearest(plan.price.amountMinor * rate.num, 100 * rate.den);
      OneLine(BuildInvoiceLine(plan.name, 1, plan.price, rate), plan.price.currency);
      assert plan.price == Money(plan.price.amountMinor * 1, plan.price.currency);
    }
  }

  // ---- Single documents ----

  predicate Numbered(inv: Invoice) {
    && inv.number.Some? && inv.issuedAt.Some?
    && inv.dueAt == Some(inv.issuedAt.value + DUE_DAYS * DAY)
    && inv.number.value.year == YearOf(inv.issuedAt.value)
  }

  /** The earliest instant at which the rung from `stage` may be climbed (exclusive). */
  function Earliest(issuedAt: nat, stage: nat): nat {
    issuedAt + DUE_DAYS * DAY + RETRY_DAYS * DAY * stage
  }

  predicate Lifecycle(inv: Invoice, now: nat) {
    && (inv.number.Some? ==> Numbered(inv) && inv.issuedAt.value <= now)
    && match inv.status
       case Draft => inv == DraftOf(inv.tenant, inv.bill)
       case Open =>
         && Numbered(inv) && inv.dunningStage < SUSPEND_STAGE
         && if inv.dunningStage == 0 then inv.nextRetryAt.None?
            else inv.nextRetryAt.Some? && Earliest(inv.issuedAt.value, inv.dunningStage) < inv.nextRetryAt.value
       case Uncollectible =>
         && Numbered(inv) && inv.dunningStage == SUSPEND_STAGE && inv.nextRetryAt.None?
         && Earliest(inv.issuedAt.value, SUSPEND_STAGE - 1) < now
       case Paid => inv.dunningStage == 0 && inv.nextRetryAt.None?
       case Void => false
  }

  ghost predicate Linked(c: Catalog, db: Db, id: Id)
    requires id in db.invoices
  {
    && Priced(c, db, db.invoices[id].bill)
    && (db.invoices[id].bill.enrollment.Some? ==>
          exists k: nat :: Covers(c, db, db.invoices[id].bill.enrollment.value, k, id))
  }

  ghost predicate EnrollmentOk(c: Catalog, db: Db, e: Id)
    requires e in db.enrollments
  {
    && Valid(db.enrollments[e].startDate)
    && (db.enrollments[e].currentPeriod.Some? ==> HasChain(c, db.enrollments[e]))
    && (HasChain(c, db.enrollments[e]) ==> exists j: nat :: OnChain(c, db, e, db.enrollments[e].currentPeriod, j))
  }

  // ---- The documents of a state ----

  ghost predicate NoDuplicates(c: Catalog, db: Db) {
    forall e, k: nat, a, b :: Covers(c, db, e, k, a) && Covers(c, db, e, k, b) ==> a == b
  }

  ghost predicate NoGaps(c: Catalog, db: Db) {
    forall e, k: nat, i: nat :: PeriodBilled(c, db, e, k) && i < k ==> PeriodBilled(c, db, e, i)
  }

  ghost predicate DbInv(c: Catalog, db: Db, now: nat) {
    && (forall id :: id in db.invoices ==> Lifecycle(db.invoices[id], now))
    && (forall id :: id in db.invoices ==> Linked(c, db, id))
    && (forall e :: e in db.enrollments ==> EnrollmentOk(c, db, e))
    && NoDuplicates(c, db)
    && NoGaps(c, db)
  }

  // ---- What no step undoes ----

  /** How one invoice may change: the bill never; once issued, never back to draft and never another
      number or date; once paid, only the payment instant; while open, the stage and the retry time
      only rise, and a stage fixes its retry time. */
  predicate InvoiceEvolves(x: Invoice, y: Invoice) {
    && y.tenant == x.tenant && y.bill == x.bill
    && (x.number.Some? ==> y.number == x.number)
    && (x.status != Draft ==>
          && y.status != Draft && y.number == x.number && y.issuedAt == x.issuedAt && y.dueAt == x.dueAt
          && (y.status == Open ==>
                && x.status == Open && x.dunningStage <= y.dunningStage
                && (x.nextRetryAt.Some? ==> y.nextRetryAt.Some? && x.nextRetryAt.value <= y.nextRetryAt.value)
                && (x.dunningStage == y.dunningStage ==> x.nextRetryAt == y.nextRetryAt)))
    && (x.status == Paid ==> y == x.(paidAt := y.paidAt))
    && (x.status == Uncollectible && y.status != Paid ==> y == x)
  }

  /** An enrollment keeps its terms, and nothing here thaws it. */
  predicate EnrollmentEvolves(x: Enrollment, y: Enrollment) {
    && y == x.(status := y.status, currentPeriod := y.currentPeriod)
    && (y.status == x.status || y.status == Frozen)
  }

  predicate DbEvolves(a: Db, b: Db) {
    && (forall id :: id in a.invoices ==> id in b.invoices && InvoiceEvolves(a.invoices[id], b.invoices[id]))
    && (forall e :: e in a.enrollments ==> e in b.enrollments && EnrollmentEvolves(a.enrollments[e], b.enrollments[e]))
    && (forall k :: k in a.counters ==> k in b.counters && a.counters[k] <= b.counters[k])
    && (forall k :: k in a.payments ==> k in b.payments && a.payments[k] == b.payments[k])
  }

  lemma InvoiceEvolvesTransitive(x: Invoice, y: Invoice, z: Invoice)
    requires InvoiceEvolves(x, y) && InvoiceEvolves(y, z)
    ensures InvoiceEvolves(x, z)
  {
  }

  lemma DbEvolvesTransitive(x: Db, y: Db, z: Db)
    requires DbEvolves(x, y) && DbEvolves(y, z)
    ensures DbEvolves(x, z)
  {
  }

  lemma CoversStable(c: Catalog, a: Db, b: Db, e: Id, k: nat, id: Id)
    requires DbEvolves(a, b) && Covers(c, a, e, k, id)
    ensures Covers(c, b, e, k, id)
  {
  }

  lemma IssuedStable(c: Catalog, a: Db, b: Db, e: Id, k: nat)
    requires DbEvolves(a, b) && PeriodIssued(c, a, e, k)
    ensures PeriodIssued(c, b, e, k)
  {
    var id :| Covers(c, a, e, k, id) && a.invoices[id].status != Draft;
    CoversStable(c, a, b, e, k, id);
  }

  lemma OnChainStable(c: Catalog, a: Db, b: Db, e: Id, cur: Option<Period>, j: nat)
    requires DbEvolves(a, b) && OnChain(c, a, e, cur, j)
    ensures OnChain(c, b, e, cur, j)
  {
    forall k: nat | k < j ensures PeriodIssued(c, b, e, k) { IssuedStable(c, a, b, e, k); }
  }

  // ---- What a suspended process relies on ----

  /** The period a billing run works on: the one after the cursor value it has read. */
  ghost predicate NextPeriod(c: Catalog, db: Db, e: Id, cur: Option<Period>, period: Period, j: nat) {
    OnChain(c, db, e, cur, j) && period == PeriodAt(c, db.enrollments[e], j)
  }

  ghost predicate RunOk(c: Catalog, db: Db, t: Id, e: Id, cur: Option<Period>, period: Period) {
    && FindEnrollment(db, t, e).Some?
    && exists j: nat :: NextPeriod(c, db, e, cur, period, j)
  }

  ghost predicate AfterOk(c: Catalog, db: Db, t: Id, id: Id, k: After) {
    && FindInvoice(db, t, id).Some?
    && (k.ThenAdvance? ==>
          && RunOk(c, db, t, k.enrollment, k.seen, k.period)
          && db.invoices[id].bill.enrollment == Some(k.enrollment)
          && db.invoices[id].bill.period == Some(k.period))
  }

  predicate SeenOk(db: Db, t: Id, e: Id, doc: Enrollment) {
    FindEnrollment(db, t, e).Some? && EnrollmentEvolves(doc, db.enrollments[e])
  }

  predicate SnapOk(db: Db, t: Id, id: Id, snap: Invoice, now: nat) {
    && FindInvoice(db, t, id).Some? && InvoiceEvolves(snap, db.invoices[id])
    && Lifecycle(snap, now) && snap.status != Draft
    && snap.dueAt.Some? && snap.dueAt.value < now
  }

  predicate ClimbOk(snap: Invoice, at: nat) {
    && snap.status == Open && snap.dueAt.Some? && snap.dueAt.value < at
    && (snap.nextRetryAt.Some? ==> snap.nextRetryAt.value <= at)
  }

  ghost predicate IssueInv(c: Catalog, db: Db, now: nat, p: Proc)
    requires InIssue(p)
  {
    && ((p.IssueFind? && p.k.Done?) || AfterOk(c, db, p.tenant, p.invoice, p.k))
    && (p.IssueAllocate? || p.IssueClaim? ==> p.at <= now)
    && (p.EnsureReread? ==> p.k.ThenAdvance?)
  }

  ghost predicate BillingInv(c: Catalog, db: Db, p: Proc)
    requires InBilling(p)
  {
    match p
    case BillEnrollment(_, _) => true
    case BillClock(t, e, doc) =>
      SeenOk(db, t, e, doc)
      && (HasChain(c, db.enrollments[e]) ==> exists j: nat :: OnChain(c, db, e, doc.currentPeriod, j))
      && (doc.currentPeriod.Some? ==> HasChain(c, db.enrollments[e]))
    case BillFind(t, e, doc, period) => SeenOk(db, t, e, doc) && RunOk(c, db, t, e, doc.currentPeriod, period)
    case BillCreate(t, e, doc, period, bill) =>
      SeenOk(db, t, e, doc) && RunOk(c, db, t, e, doc.currentPeriod, period)
      && bill.enrollment == Some(e) && bill.period == Some(period) && bill.member == doc.member
      && doc.plan in c.plans && UnitBill(c, c.plans[doc.plan], bill)
    case BillRefind(t, e, doc, period) => SeenOk(db, t, e, doc) && RunOk(c, db, t, e, doc.currentPeriod, period)
    case AdvanceCursor(t, e, seen, period) =>
      && FindEnrollment(db, t, e).Some?
      && exists j: nat :: NextPeriod(c, db, e, seen, period, j) && PeriodIssued(c, db, e, j)
  }

  predicate DunningInv(db: Db, now: nat, log: seq<Event>, p: Proc)
    requires InDunning(p)
  {
    match p
    case DunFind(t, id, listed) =>
      && listed <= now && IsIssued(db, t, id)
      && db.invoices[id].dueAt.Some? && db.invoices[id].dueAt.value < listed
    case DunClock(t, id, snap) => SnapOk(db, t, id, snap, now)
    case DunEnrollment(t, id, snap, at) => SnapOk(db, t, id, snap, now) && ClimbOk(snap, at) && at <= now
    case DunStep(t, id, snap, at, freeze) =>
      SnapOk(db, t, id, snap, now) && ClimbOk(snap, at) && at <= now
      && (freeze.Some? ==> freeze == snap.bill.enrollment)
    case DunFreeze(t, id, at, e) =>
      && FindInvoice(db, t, id).Some? && db.invoices[id].bill.enrollment == Some(e)
      && Rung(id, SUSPEND_STAGE - 1, at) in log
  }

  ghost predicate ProcInv(c: Catalog, db: Db, now: nat, log: seq<Event>, p: Proc) {
    if InIssue(p) then IssueInv(c, db, now, p)
    else if InBilling(p) then BillingInv(c, db, p)
    else if InDunning(p) then DunningInv(db, now, log, p)
    else p.AdHocCreate? ==> p.bill.enrollment.None? && OfSomePlan(c, p.bill)
  }

  lemma RunOkStable(c: Catalog, a: Db, b: Db, t: Id, e: Id, cur: Option<Period>, period: Period)
    requires DbEvolves(a, b) && RunOk(c, a, t, e, cur, period)
    ensures RunOk(c, b, t, e, cur, period)
  {
    var j: nat :| NextPeriod(c, a, e, cur, period, j);
    OnChainStable(c, a, b, e, cur, j);
    assert NextPeriod(c, b, e, cur, period, j);
  }

  lemma AfterOkStable(c: Catalog, a: Db, b: Db, t: Id, id: Id, k: After)
    requires DbEvolves(a, b) && AfterOk(c, a, t, id, k)
    ensures AfterOk(c, b, t, id, k)
  {
    if k.ThenAdvance? { RunOkStable(c, a, b, t, k.enrollment, k.seen, k.period); }
  }

  lemma SnapOkStable(a: Db, b: Db, t: Id, id: Id, snap: Invoice, now: nat, later: nat)
    requires DbEvolves(a, b) && now <= later && SnapOk(a, t, id, snap, now)
    ensures SnapOk(b, t, id, snap, later)
  {
    InvoiceEvolvesTransitive(snap, a.invoices[id], b.invoices[id]);
  }

  lemma SeenOkStable(c: Catalog, a: Db, b: Db, t: Id, e: Id, doc: Enrollment)
    requires DbEvolves(a, b) && SeenOk(a, t, e, doc)
    ensures SeenOk(b, t, e, doc)
    ensures HasChain(c, b.enrollments[e]) <==> HasChain(c, a.enrollments[e])
  {
  }

  lemma BillingStable(c: Catalog, a: Db, b: Db, p: Proc)
    requires InBilling(p) && DbEvolves(a, b) && BillingInv(c, a, p)
    ensures BillingInv(c, b, p)
  {
    if p.AdvanceCursor? {
      CursorRunStable(c, a, b, p);
    } else if !p.BillEnrollment? {
      hide DbEvolves, SeenOk, RunOk, OnChain, HasChain, UnitBill;
      SeenOkStable(c, a, b, p.tenant, p.enrollment, p.seenDoc);
      if p.BillClock? {
        if HasChain(c, b.enrollments[p.enrollment]) {
          var j: nat :| OnChain(c, a, p.enrollment, p.seenDoc.currentPeriod, j);
          OnChainStable(c, a, b, p.enrollment, p.seenDoc.currentPeriod, j);
        }
      } else {
        RunOkStable(c, a, b, p.tenant, p.enrollment, p.seenDoc.currentPeriod, p.period);
      }
    }
  }

  lemma CursorRunStable(c: Catalog, a: Db, b: Db, p: Proc)
    requires p.AdvanceCursor? && DbEvolves(a, b) && BillingInv(c, a, p)
    ensures BillingInv(c, b, p)
  {
    hide PeriodIssued, IssuedBelow, CursorAt, InvoiceEvolves;
    var j: nat :| NextPeriod(c, a, p.enrollment, p.seen, p.period, j) && PeriodIssued(c, a, p.enrollment, j);
    OnChainStable(c, a, b, p.enrollment, p.seen, j);
    IssuedStable(c, a, b, p.enrollment, j);
    assert NextPeriod(c, b, p.enrollment, p.seen, p.period, j);
  }

  lemma DunningStable(a: Db, b: Db, now: nat, later: nat, log: seq<Event>, longer: seq<Event>, p: Proc)
    requires InDunning(p) && DbEvolves(a, b) && now <= later && log <= longer
    requires DunningInv(a, now, log, p)
    ensures DunningInv(b, later, longer, p)
  {
    match p
    case DunFind(_, _, _) =>
    case DunClock(t, id, snap) => SnapOkStable(a, b, t, id, snap, now, later);
    case DunEnrollment(t, id, snap, _) => SnapOkStable(a, b, t, id, snap, now, later);
    case DunStep(t, id, snap, _, _) => SnapOkStable(a, b, t, id, snap, now, later);
    case DunFreeze(_, _, _, _) => assert forall x :: x in log ==> x in longer;
  }

  lemma IssueStable(c: Catalog, a: Db, b: Db, now: nat, later: nat, p: Proc)
    requires InIssue(p) && DbEvolves(a, b) && now <= later && IssueInv(c, a, now, p)
    ensures IssueInv(c, b, later, p)
  {
    if !(p.IssueFind? && p.k.Done?) { AfterOkStable(c, a, b, p.tenant, p.invoice, p.k); }
  }

  /** Whatever the others do meanwhile, what a sleeping process relies on still holds. */
  lemma ProcStable(c: Catalog, a: Db, b: Db, now: nat, later: nat, log: seq<Event>, longer: seq<Event>, p: Proc)
    requires DbEvolves(a, b) && now <= later && log <= longer
    requires ProcInv(c, a, now, log, p)
    ensures ProcInv(c, b, later, longer, p)
  {
    if InIssue(p) { IssueStable(c, a, b, now, later, p); }
    else if InBilling(p) { BillingStable(c, a, b, p); }
    else if InDunning(p) { DunningStable(a, b, now, later, log, longer, p); }
  }
}
