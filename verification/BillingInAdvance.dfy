/** No period is ever billed before it has started, in any run. */
module BillingInAdvance {
  import opened Outcomes
  import opened Calendar
  import opened BillingStore
  import opened BillingMachine
  import opened BillingInvariant
  import opened BillingRuns

  predicate Begun(now: nat, start: Date) {
    !Before(AsOf(now), start)
  }

  lemma BegunStays(now: nat, later: nat, start: Date)
    requires now <= later && Valid(start) && Begun(now, start)
    ensures Begun(later, start)
  {
    DateOfDayMonotone(now / DAY, later / DAY);
    DateOfDayMonotone(later / DAY, now / DAY);
    DayNumberOrders(AsOf(now), AsOf(later));
    DayNumberOrders(AsOf(now), start);
    DayNumberOrders(AsOf(later), start);
    assert now / DAY <= later / DAY;
  }

  predicate BillBegun(now: nat, bill: Bill) {
    bill.enrollment.Some? && bill.period.Some? ==> Valid(bill.period.value.start) && Begun(now, bill.period.value.start)
  }

  predicate ProcBegun(now: nat, p: Proc) {
    match p
    case BillFind(_, _, _, period) => Valid(period.start) && Begun(now, period.start)
    case BillCreate(_, _, _, _, bill) => BillBegun(now, bill)
    case AdHocCreate(_, bill) => BillBegun(now, bill)
    case _ => true
  }

  predicate AllBegun(s: State) {
    && (forall id :: id in s.db.invoices ==> BillBegun(s.now, s.db.invoices[id].bill))
    && (forall pid :: pid in s.procs ==> ProcBegun(s.now, s.procs[pid]))
  }

  /** New invoices come from the two create steps only. */
  predicate BillsFrom(db: Db, db': Db, p: Proc) {
    forall id :: id in db'.invoices ==>
      (id in db.invoices && db'.invoices[id].bill == db.invoices[id].bill)
      || (p.BillCreate? && db'.invoices[id].bill == p.bill)
      || (p.AdHocCreate? && db'.invoices[id].bill == p.bill)
  }

  lemma BillClockBegun(c: Catalog, db: Db, now: nat, p: Proc)
    requires p.BillClock? && DbInv(c, db, now) && BillingInv(c, db, p)
    ensures var next := AdvanceBilling(c, db, now, p, None).next; next.Some? ==> ProcBegun(now, next.value)
  {
    assert EnrollmentOk(c, db, p.enrollment);
    if p.seenDoc.currentPeriod.Some? {
      var j: nat :| OnChain(c, db, p.enrollment, p.seenDoc.currentPeriod, j);
    }
  }

  /** The step leaves only bills, of documents and of processes, whose period has begun. */
  predicate StaysBegun(db: Db, now: nat, p: Proc, e: Effect) {
    BillsFrom(db, e.db, p) && (e.next.Some? ==> ProcBegun(now, e.next.value))
  }

  lemma BillFindBegun(c: Catalog, db: Db, now: nat, p: Proc, pick: Option<Id>)
    requires p.BillFind? && ProcBegun(now, p)
    ensures StaysBegun(db, now, p, AdvanceBilling(c, db, now, p, pick))
  {
    hide PeriodAnswer, IsIssued, Begun, Valid, VatPercent;
  }

  lemma BillCreateBegun(c: Catalog, db: Db, now: nat, p: Proc, pick: Option<Id>)
    requires p.BillCreate? && ProcBegun(now, p)
    ensures StaysBegun(db, now, p, AdvanceBilling(c, db, now, p, pick))
  {
    hide PeriodTaken, Begun, Valid;
  }

  lemma BillingBegun(c: Catalog, db: Db, now: nat, p: Proc, pick: Option<Id>)
    requires InBilling(p) && ProcBegun(now, p) && DbInv(c, db, now) && BillingInv(c, db, p)
    ensures StaysBegun(db, now, p, AdvanceBilling(c, db, now, p, pick))
  {
    hide DbInv, BillingInv, PeriodAnswer, IsIssued, Begun, Valid, ComputeBillingPeriod, FindEnrollment;
    if p.BillClock? { BillClockBegun(c, db, now, p); }
    if p.BillFind? { BillFindBegun(c, db, now, p, pick); }
    if p.BillCreate? { BillCreateBegun(c, db, now, p, pick); }
  }

  lemma AdHocBegun(c: Catalog, db: Db, now: nat, p: Proc, pick: Option<Id>)
    requires InAdHoc(p) && ProcBegun(now, p)
    ensures StaysBegun(db, now, p, AdvanceAdHoc(c, db, p, pick))
  {
    hide PeriodTaken, Begun, Valid;
  }

  lemma IssueBegun(db: Db, now: nat, p: Proc)
    requires InIssue(p)
    ensures StaysBegun(db, now, p, AdvanceIssue(db, now, p))
  {
    hide NumberTaken, IsIssued;
  }

  lemma DunningBegun(db: Db, now: nat, p: Proc)
    requires InDunning(p)
    ensures StaysBegun(db, now, p, AdvanceDunning(db, now, p))
  {
  }

  lemma PaymentBegun(db: Db, now: nat, p: Proc)
    requires InPayment(p)
    ensures StaysBegun(db, now, p, AdvancePayment(db, now, p))
  {
  }

  lemma AdvanceBegun(c: Catalog, s: State, pid: nat, pick: Option<Id>)
    requires Inv(c, s) && AllBegun(s) && pid in s.procs
    ensures AllBegun(Apply(s, pid, Advance(c, s.db, s.now, s.procs[pid], pick)))
  {
    var p := s.procs[pid];
    assert ProcInv(c, s.db, s.now, s.log, p);
    hide DbInv, BillingInv, Begun, Valid, AdvanceIssue, AdvanceAdHoc, AdvanceBilling, AdvanceDunning, AdvancePayment, StaysBegun;
    if InBilling(p) { BillingBegun(c, s.db, s.now, p, pick); }
    else if InAdHoc(p) { AdHocBegun(c, s.db, s.now, p, pick); }
    else if InIssue(p) { IssueBegun(s.db, s.now, p); }
    else if InDunning(p) { DunningBegun(s.db, s.now, p); }
    else { PaymentBegun(s.db, s.now, p); }
    EffectBegun(s, pid, Advance(c, s.db, s.now, p, pick));
  }

  lemma EffectBegun(s: State, pid: nat, e: Effect)
    requires AllBegun(s) && pid in s.procs && StaysBegun(s.db, s.now, s.procs[pid], e)
    ensures AllBegun(Apply(s, pid, e))
  {
    hide Begun, Valid;
  }

  lemma TickBegun(s: State, to: nat)
    requires AllBegun(s) && s.now <= to
    ensures AllBegun(s.(now := to))
  {
    hide Begun, Valid;
    forall d | Valid(d) && Begun(s.now, d) ensures Begun(to, d) { BegunStays(s.now, to, d); }
  }

  lemma StepBegun(c: Catalog, s: State, a: Action)
    requires Inv(c, s) && AllBegun(s)
    ensures AllBegun(Step(c, s, a))
  {
    hide Inv, Begun, Valid, Advance;
    if a.Next? && a.pid in s.procs { AdvanceBegun(c, s, a.pid, a.pick); }
    else if a.Tick? && s.now <= a.to { TickBegun(s, a.to); }
  }

  lemma {:induction false} NoPeriodBilledEarly(c: Catalog, actions: seq<Action>)
    ensures AllBegun(Run(c, INITIAL, actions))
  {
    hide Inv, AllBegun, Step;
    if actions == [] {
      NothingBegun();
    } else {
      NoPeriodBilledEarly(c, actions[..|actions| - 1]);
      Reachable(c, actions[..|actions| - 1]);
      StepBegun(c, Run(c, INITIAL, actions[..|actions| - 1]), actions[|actions| - 1]);
    }
  }

  lemma NothingBegun()
    ensures AllBegun(INITIAL)
  {
  }
}
