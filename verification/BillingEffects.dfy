/** What the next step of a call does, in the terms of the store call the service makes there. */
module BillingEffects {
  import opened Outcomes
  import opened Calendar
  import opened BillingStore
  import opened BillingMachine

  // ---- What each step of `issue` does ----

  lemma IssueEffect(c: Catalog, db: Db, now: nat, p: Proc)
    requires InIssue(p)
    ensures Advance(c, db, now, p, None) == AdvanceIssue(db, now, p)
    ensures FindInvoice(db, p.tenant, p.invoice).Some? ==> FindInvoice(db, p.tenant, p.invoice).value == db.invoices[p.invoice]
  {
  }

  lemma ClaimLands(db: Db, t: Id, id: Id, at: nat, number: Number)
    ensures match ClaimForIssue(db, t, id, at, number)
            case Err(_) => true
            case Ok((db', won)) =>
              if won.Some? then won.value.status == Open && FindInvoice(db', t, id) == won else db' == db
  {
    hide NumberTaken;
  }

  // ---- What each step of the callers of `issue` does ----

  lemma CreatedIsDraft(db: Db, t: Id, id: Id, bill: Bill, k: After)
    requires id !in db.invoices && CreateDraft(db, t, id, bill).Ok?
    ensures FindInvoice(CreateDraft(db, t, id, bill).value, t, id) == Some(DraftOf(t, bill))
    ensures Ensure(CreateDraft(db, t, id, bill).value, t, id, k) == Some(IssueFind(t, id, k))
  {
    hide PeriodTaken;
  }

  lemma AdHocEffect(c: Catalog, db: Db, now: nat, t: Id, e: Id)
    ensures Advance(c, db, now, AdHocEnrollment(t, e), None)
         == match FindEnrollment(db, t, e)
            case None => Quiet(db, None)
            case Some(doc) =>
              if doc.plan !in c.plans then Quiet(db, None)
              else match BillFor(c, c.plans[doc.plan], doc.member, None, None)
                   case None => Quiet(db, None)
                   case Some(bill) => Quiet(db, Some(AdHocCreate(t, bill)))
  {
    hide BillFor, FindEnrollment;
  }

  /** Creating the draft, ad hoc or for a period. */
  lemma CreateEffect(c: Catalog, db: Db, now: nat, p: Proc, id: Id)
    requires (p.AdHocCreate? || p.BillCreate?) && id !in db.invoices
    ensures Advance(c, db, now, p, Some(id))
         == match CreateDraft(db, p.tenant, id, p.bill)
            case Ok(db') => Quiet(db', Some(IssueFind(p.tenant, id, if p.AdHocCreate? then Done else Continue(p.enrollment, p.seenDoc, p.period))))
            case Err(_) => Quiet(db, if p.AdHocCreate? then None else Some(BillRefind(p.tenant, p.enrollment, p.seenDoc, p.period)))
  {
    hide CreateDraft;
  }

  lemma BillEnrollmentEffect(c: Catalog, db: Db, now: nat, t: Id, e: Id)
    ensures Advance(c, db, now, BillEnrollment(t, e), None)
         == match FindEnrollment(db, t, e)
            case None => Quiet(db, None)
            case Some(doc) =>
              Quiet(db, if doc.status != Active || doc.plan !in c.plans then None else Some(BillClock(t, e, doc)))
  {
    hide FindEnrollment;
  }

  lemma BillClockEffect(c: Catalog, db: Db, now: nat, t: Id, e: Id, doc: Enrollment)
    requires doc.plan in c.plans
    ensures Advance(c, db, now, BillClock(t, e, doc), None)
         == match ComputeBillingPeriod(c.plans[doc.plan].months, doc.startDate, doc.currentPeriod, AsOf(now))
            case None => Quiet(db, None)
            case Some(period) => Quiet(db, Some(BillFind(t, e, doc, period)))
  {
    hide ComputeBillingPeriod, AsOf;
  }

  lemma BillHitEffect(c: Catalog, db: Db, now: nat, p: Proc, id: Id)
    requires (p.BillFind? || p.BillRefind?) && PeriodAnswer(db, p.tenant, p.enrollment, p.period.start, Some(id))
    ensures Advance(c, db, now, p, Some(id)) == Quiet(db, Ensure(db, p.tenant, id, Continue(p.enrollment, p.seenDoc, p.period)))
    ensures FindInvoice(db, p.tenant, id).Some?
  {
    hide Ensure;
  }

  /** No invoice of the period: go on to create it, unless its creation has already failed. */
  lemma BillMissEffect(c: Catalog, db: Db, now: nat, p: Proc)
    requires (p.BillFind? || p.BillRefind?) && PeriodAnswer(db, p.tenant, p.enrollment, p.period.start, None) && p.seenDoc.plan in c.plans
    ensures Advance(c, db, now, p, None)
         == Quiet(db, if p.BillRefind? then None
                      else match BillFor(c, c.plans[p.seenDoc.plan], p.seenDoc.member, Some(p.enrollment), Some(p.period))
                           case None => None
                           case Some(bill) => Some(BillCreate(p.tenant, p.enrollment, p.seenDoc, p.period, bill)))
  {
    hide PeriodAnswer, BillFor;
  }

  lemma DunFindEffect(c: Catalog, db: Db, now: nat, t: Id, id: Id, listed: nat)
    ensures Advance(c, db, now, DunFind(t, id, listed), None)
         == match FindInvoice(db, t, id)
            case None => Quiet(db, None)
            case Some(inv) => Quiet(db, Some(DunClock(t, id, inv)))
  {
    hide FindInvoice;
  }

  lemma DunClockEffect(c: Catalog, db: Db, now: nat, t: Id, id: Id, snap: Invoice)
    ensures Advance(c, db, now, DunClock(t, id, snap), None)
         == Quiet(db, if snap.status != Open || (snap.nextRetryAt.Some? && now < snap.nextRetryAt.value) then None
                      else if snap.bill.enrollment.Some? then Some(DunEnrollment(t, id, snap, now))
                      else Some(DunStep(t, id, snap, now, None)))
  {
  }

  lemma DunEnrollmentEffect(c: Catalog, db: Db, now: nat, t: Id, id: Id, snap: Invoice, at: nat)
    requires snap.bill.enrollment.Some?
    ensures Advance(c, db, now, DunEnrollment(t, id, snap, at), None)
         == match FindEnrollment(db, t, snap.bill.enrollment.value)
            case None => Quiet(db, Some(DunStep(t, id, snap, at, None)))
            case Some(doc) =>
              Quiet(db, if doc.member != snap.bill.member then None else Some(DunStep(t, id, snap, at, snap.bill.enrollment)))
  {
    hide FindEnrollment;
  }

  lemma DunStepEffect(c: Catalog, db: Db, now: nat, t: Id, id: Id, snap: Invoice, at: nat, freeze: Option<Id>)
    ensures Advance(c, db, now, DunStep(t, id, snap, at, freeze), None)
         == match AdvanceDunningStep(db, t, id, snap.dunningStage, at)
            case (_, None) => Quiet(db, None)
            case (db', Some(_)) =>
              Effect(db', if snap.dunningStage + 1 >= SUSPEND_STAGE && freeze.Some? then Some(DunFreeze(t, id, at, freeze.value)) else None,
                     {}, [Rung(id, snap.dunningStage, at)])
  {
    hide AdvanceDunningStep;
  }

  lemma StepKeepsTenant(db: Db, t: Id, id: Id, fromStage: nat, at: nat)
    ensures var won := AdvanceDunningStep(db, t, id, fromStage, at).1; won.Some? ==> won.value.tenant == t
    ensures AdvanceDunningStep(db, t, id, fromStage, at).1.None? ==> AdvanceDunningStep(db, t, id, fromStage, at).0 == db
  {
  }

  lemma DunFreezeEffect(c: Catalog, db: Db, now: nat, t: Id, id: Id, at: nat, e: Id)
    ensures Advance(c, db, now, DunFreeze(t, id, at, e), None) == Effect(Freeze(db, t, e), None, {}, [Froze(e, id, at)])
  {
    hide Freeze;
  }

  lemma PayFindEffect(c: Catalog, db: Db, now: nat, t: Id, id: Id, payment: Payment, key: string)
    ensures Advance(c, db, now, PayFind(t, id, payment, key), None)
         == match FindInvoice(db, t, id)
            case None => Quiet(db, None)
            case Some(inv) =>
              Quiet(db, if payment.amount.currency != inv.bill.totals.total.currency then None else Some(PayList(t, id, payment, key)))
  {
    hide FindInvoice;
  }

  lemma PayListEffect(c: Catalog, db: Db, now: nat, t: Id, id: Id, payment: Payment, key: string)
    ensures Advance(c, db, now, PayList(t, id, payment, key), None)
         == Quiet(db, if (t, key) in db.payments && db.payments[(t, key)].invoice == id then None
                      else Some(PayCreate(t, id, payment, key)))
  {
  }

  lemma PayCreateEffect(c: Catalog, db: Db, now: nat, t: Id, id: Id, payment: Payment, key: string)
    ensures Advance(c, db, now, PayCreate(t, id, payment, key), None)
         == match CreatePayment(db, t, key, payment)
            case Err(_) => Quiet(db, None)
            case Ok(db') => Quiet(db', if payment.status == Succeeded then Some(PayMark(t, id)) else None)
  {
    hide CreatePayment;
  }

  lemma PayMarkEffect(c: Catalog, db: Db, now: nat, t: Id, id: Id)
    ensures Advance(c, db, now, PayMark(t, id), None) == Quiet(MarkPaid(db, t, id, now), None)
  {
    hide MarkPaid;
  }

  lemma CursorEffect(c: Catalog, db: Db, now: nat, t: Id, e: Id, seen: Option<Period>, period: Period)
    ensures Advance(c, db, now, AdvanceCursor(t, e, seen, period), None)
         == Quiet(if seen.None? || Before(seen.value.end, period.end) then SetCurrentPeriod(db, t, e, period) else db, None)
  {
    hide SetCurrentPeriod;
  }

}
