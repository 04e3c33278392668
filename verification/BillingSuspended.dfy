/** An enrollment that is not active, frozen by the last rung for one, is not billed any more. */
module BillingSuspended {
  import opened Outcomes
  import opened BillingStore
  import opened BillingMachine
  import opened BillingInvariant
  import opened BillingRuns
  import opened BillingLadder

  function InvoicesOf(db: Db, e: Id): set<Id> {
    set id | id in db.invoices && db.invoices[id].bill.enrollment == Some(e)
  }

  /** The call read the enrollment as active and has not yet tried to create its invoice. */
  predicate MayDraft(p: Proc, e: Id) {
    (p.BillClock? || p.BillFind? || p.BillCreate?) && p.enrollment == e
  }

  /** The enrollment is not active, and no call in progress still takes it for active. */
  predicate Suspended(s: State, e: Id) {
    && e in s.db.enrollments && s.db.enrollments[e].status != Active
    && forall pid :: pid in s.procs ==> !MayDraft(s.procs[pid], e)
  }

  predicate SameBills(a: Db, b: Db) {
    a.invoices.Keys == b.invoices.Keys && forall id :: id in a.invoices ==> b.invoices[id].bill == a.invoices[id].bill
  }

  lemma SameBillsSameInvoices(a: Db, b: Db, e: Id)
    requires SameBills(a, b)
    ensures InvoicesOf(a, e) == InvoicesOf(b, e)
  {
  }

  lemma IssueKeepsBills(db: Db, now: nat, p: Proc, e: Id)
    requires InIssue(p)
    ensures SameBills(db, AdvanceIssue(db, now, p).db)
    ensures AdvanceIssue(db, now, p).next.Some? ==> !MayDraft(AdvanceIssue(db, now, p).next.value, e)
  {
    hide YearOf, NumberTaken;
  }

  lemma DunningKeepsBills(db: Db, now: nat, p: Proc, e: Id)
    requires InDunning(p)
    ensures SameBills(db, AdvanceDunning(db, now, p).db)
    ensures AdvanceDunning(db, now, p).next.Some? ==> !MayDraft(AdvanceDunning(db, now, p).next.value, e)
  {
  }

  lemma PaymentKeepsBills(db: Db, now: nat, p: Proc, e: Id)
    requires InPayment(p)
    ensures SameBills(db, AdvancePayment(db, now, p).db)
    ensures AdvancePayment(db, now, p).next.Some? ==> !MayDraft(AdvancePayment(db, now, p).next.value, e)
  {
  }

  lemma DraftForAnother(db: Db, t: Id, id: Id, bill: Bill, e: Id)
    requires id !in db.invoices && bill.enrollment != Some(e) && CreateDraft(db, t, id, bill).Ok?
    ensures InvoicesOf(CreateDraft(db, t, id, bill).value, e) == InvoicesOf(db, e)
  {
    hide PeriodTaken;
  }

  lemma AdHocBillsNone(c: Catalog, db: Db, p: Proc, pick: Option<Id>, e: Id)
    requires InAdHoc(p) && (p.AdHocCreate? ==> p.bill.enrollment.None?)
    ensures InvoicesOf(AdvanceAdHoc(c, db, p, pick).db, e) == InvoicesOf(db, e)
    ensures AdvanceAdHoc(c, db, p, pick).next.Some? ==> !MayDraft(AdvanceAdHoc(c, db, p, pick).next.value, e)
  {
    hide BillFor, CreateDraft, InvoicesOf;
    if p.AdHocCreate? && pick.Some? && pick.value !in db.invoices && CreateDraft(db, p.tenant, pick.value, p.bill).Ok? {
      DraftForAnother(db, p.tenant, pick.value, p.bill, e);
    }
  }

  lemma BillingBillsAnother(c: Catalog, db: Db, now: nat, p: Proc, pick: Option<Id>, e: Id)
    requires InBilling(p) && !MayDraft(p, e) && (p.BillCreate? ==> p.bill.enrollment == Some(p.enrollment))
    requires e in db.enrollments && db.enrollments[e].status != Active
    ensures InvoicesOf(AdvanceBilling(c, db, now, p, pick).db, e) == InvoicesOf(db, e)
    ensures AdvanceBilling(c, db, now, p, pick).next.Some? ==> !MayDraft(AdvanceBilling(c, db, now, p, pick).next.value, e)
  {
    hide BillFor, CreateDraft, PeriodAnswer, ComputeBillingPeriod, AsOf, IsIssued;
    if p.BillCreate? && pick.Some? && pick.value !in db.invoices && CreateDraft(db, p.tenant, pick.value, p.bill).Ok? {
      DraftForAnother(db, p.tenant, pick.value, p.bill, e);
    }
  }

  lemma AdvanceBillsNot(c: Catalog, s: State, pid: nat, pick: Option<Id>, e: Id)
    requires Inv(c, s) && Suspended(s, e) && pid in s.procs
    ensures var r := Advance(c, s.db, s.now, s.procs[pid], pick);
            InvoicesOf(r.db, e) == InvoicesOf(s.db, e) && (r.next.Some? ==> !MayDraft(r.next.value, e))
  {
    var p := s.procs[pid];
    assert ProcInv(c, s.db, s.now, s.log, p) && !MayDraft(p, e);
    hide Inv, DbInv, AdvanceIssue, AdvanceBilling, AdvanceAdHoc, AdvanceDunning, AdvancePayment, InvoicesOf, SameBills, MayDraft;
    var after := Advance(c, s.db, s.now, p, pick).db;
    if InBilling(p) { BillingBillsAnother(c, s.db, s.now, p, pick, e); }
    else if InAdHoc(p) { AdHocBillsNone(c, s.db, p, pick, e); }
    else if InIssue(p) { IssueKeepsBills(s.db, s.now, p, e); SameBillsSameInvoices(s.db, after, e); }
    else if InDunning(p) { DunningKeepsBills(s.db, s.now, p, e); SameBillsSameInvoices(s.db, after, e); }
    else { PaymentKeepsBills(s.db, s.now, p, e); SameBillsSameInvoices(s.db, after, e); }
  }

  lemma StepBillsNot(c: Catalog, s: State, a: Action, e: Id)
    requires Inv(c, s) && Suspended(s, e)
    ensures Suspended(Step(c, s, a), e) && InvoicesOf(Step(c, s, a).db, e) == InvoicesOf(s.db, e)
  {
    hide Inv, Advance, InvoicesOf, HeldBy, Evolves;
    if a.Next? && a.pid in s.procs { AdvanceBillsNot(c, s, a.pid, a.pick, e); }
    StepKeeps(c, s, a);
    EnrollmentStays(s, Step(c, s, a), e);
    if StatusOf(Step(c, s, a).db, e) != StatusOf(s.db, e) { OnlyFinalRungFreezes(c, s, a, e); }
    if a.NewEnrollment? { SameBillsSameInvoices(s.db, Step(c, s, a).db, e); }
  }

  lemma EnrollmentStays(s: State, s': State, e: Id)
    requires Evolves(s, s') && e in s.db.enrollments
    ensures e in s'.db.enrollments
  {
  }

  /** Whatever happens from here on, the enrollment stays off and gets no further invoice. */
  lemma {:induction false} SuspendedIsNotBilled(c: Catalog, s: State, more: seq<Action>, e: Id)
    requires Inv(c, s) && Suspended(s, e)
    ensures Suspended(Run(c, s, more), e) && InvoicesOf(Run(c, s, more).db, e) == InvoicesOf(s.db, e)
  {
    hide Inv, Suspended, Step, InvoicesOf;
    if more != [] {
      SuspendedIsNotBilled(c, s, more[..|more| - 1], e);
      RunKeeps(c, s, more[..|more| - 1]);
      StepBillsNot(c, Run(c, s, more[..|more| - 1]), more[|more| - 1], e);
    }
  }
}
