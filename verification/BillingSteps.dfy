/** Every step of the billing protocol keeps the invariant of the documents, undoes nothing, and leaves
    the stepping process with what it relies on next. */
module BillingSteps {
  import opened Outcomes
  import opened Calendar
  import opened BillingStore
  import opened BillingMachine
  import opened BillingInvariant

  // ---- The store operations, one kind of change at a time ----

  lemma EvolvesReflexive(db: Db)
    ensures DbEvolves(db, db)
  {
  }

  lemma LaterIsFine(c: Catalog, db: Db, now: nat, later: nat)
    requires DbInv(c, db, now) && now <= later
    ensures DbInv(c, db, later)
  {
  }

  /** Two stores with the same enrollments and invoices satisfy the invariant together. */
  lemma SameDocuments(c: Catalog, a: Db, b: Db, now: nat)
    requires DbInv(c, a, now)
    requires a.enrollments == b.enrollments && a.invoices == b.invoices
    ensures DbInv(c, b, now)
  {
    assert CoversAlike(c, a, b);
    KeepsCoverage(c, a, b);
    forall id | id in b.invoices ensures Linked(c, b, id) { LinkedAlike(c, a, b, id); }
    forall e | e in b.enrollments ensures EnrollmentOk(c, b, e) { CursorAlike(c, a, b, e); }
  }

  /** The two stores bill the same periods by the same invoices. */
  ghost predicate CoversAlike(c: Catalog, a: Db, b: Db) {
    forall e, k: nat, id :: Covers(c, a, e, k, id) <==> Covers(c, b, e, k, id)
  }

  lemma KeepsCoverage(c: Catalog, a: Db, b: Db)
    requires CoversAlike(c, a, b) && NoDuplicates(c, a) && NoGaps(c, a)
    ensures NoDuplicates(c, b) && NoGaps(c, b)
  {
    forall e, k: nat, i: nat | PeriodBilled(c, b, e, k) && i < k ensures PeriodBilled(c, b, e, i) {
      var id :| Covers(c, b, e, k, id);
      assert Covers(c, a, e, k, id);
      assert PeriodBilled(c, a, e, k) && PeriodBilled(c, a, e, i);
      var id' :| Covers(c, a, e, i, id');
      assert Covers(c, b, e, i, id');
    }
  }

  lemma LinkedAlike(c: Catalog, a: Db, b: Db, id: Id)
    requires CoversAlike(c, a, b)
    requires id in a.invoices && id in b.invoices && b.invoices[id].bill == a.invoices[id].bill && Linked(c, a, id)
    requires forall e :: e in a.enrollments ==>
      e in b.enrollments && b.enrollments[e].member == a.enrollments[e].member && b.enrollments[e].plan == a.enrollments[e].plan
    ensures Linked(c, b, id)
  {
    hide UnitBill;
    if b.invoices[id].bill.enrollment.Some? {
      var e := b.invoices[id].bill.enrollment.value;
      var k: nat :| Covers(c, a, e, k, id);
      assert Covers(c, b, e, k, id);
    }
  }

  /** A cursor that did not move is still on the chain. */
  lemma CursorAlike(c: Catalog, a: Db, b: Db, e: Id)
    requires e in a.enrollments && EnrollmentOk(c, a, e)
    requires e in b.enrollments && b.enrollments[e] == a.enrollments[e].(status := b.enrollments[e].status)
    requires forall k: nat :: PeriodIssued(c, a, e, k) ==> PeriodIssued(c, b, e, k)
    ensures EnrollmentOk(c, b, e)
  {
    if HasChain(c, b.enrollments[e]) {
      var j: nat :| OnChain(c, a, e, a.enrollments[e].currentPeriod, j);
      assert OnChain(c, b, e, b.enrollments[e].currentPeriod, j);
    }
  }

  lemma IssuedPeriodsStay(c: Catalog, a: Db, b: Db, e: Id)
    requires DbEvolves(a, b)
    ensures forall k: nat :: PeriodIssued(c, a, e, k) ==> PeriodIssued(c, b, e, k)
  {
    forall k: nat | PeriodIssued(c, a, e, k) ensures PeriodIssued(c, b, e, k) { IssuedStable(c, a, b, e, k); }
  }

  lemma UpdateEvolves(db: Db, id: Id, y: Invoice)
    requires id in db.invoices && InvoiceEvolves(db.invoices[id], y)
    ensures DbEvolves(db, db.(invoices := db.invoices[id := y]))
    ensures y.tenant == db.invoices[id].tenant && y.bill == db.invoices[id].bill
  {
  }

  /** Replacing one invoice by a lawful successor. */
  lemma UpdateInvoiceKeeps(c: Catalog, db: Db, now: nat, id: Id, y: Invoice)
    requires DbInv(c, db, now)
    requires id in db.invoices && InvoiceEvolves(db.invoices[id], y) && Lifecycle(y, now)
    ensures var db' := db.(invoices := db.invoices[id := y]);
            DbEvolves(db, db') && DbInv(c, db', now)
  {
    hide DbEvolves, InvoiceEvolves, Lifecycle, NoDuplicates, NoGaps, EnrollmentOk, UnitBill;
    var db' := db.(invoices := db.invoices[id := y]);
    UpdateEvolves(db, id, y);
    assert CoversAlike(c, db, db');
    KeepsCoverage(c, db, db');
    forall i | i in db'.invoices ensures Linked(c, db', i) { LinkedAlike(c, db, db', i); }
    forall e | e in db'.enrollments ensures EnrollmentOk(c, db', e) {
      IssuedPeriodsStay(c, db, db', e);
      CursorAlike(c, db, db', e);
    }
  }

  /** A change of cursors and statuses only: the invoices, and who bills what, are as before. */
  lemma InvoicesUntouched(c: Catalog, a: Db, b: Db, now: nat)
    requires DbInv(c, a, now) && DbEvolves(a, b)
    requires a.invoices == b.invoices && a.enrollments.Keys == b.enrollments.Keys
    ensures NoDuplicates(c, b) && NoGaps(c, b)
    ensures forall id :: id in b.invoices ==> Lifecycle(b.invoices[id], now) && Linked(c, b, id)
  {
    assert CoversAlike(c, a, b);
    KeepsCoverage(c, a, b);
    forall id | id in b.invoices ensures Linked(c, b, id) { LinkedAlike(c, a, b, id); }
  }

  lemma FreezeEvolves(db: Db, t: Id, e: Id)
    ensures DbEvolves(db, Freeze(db, t, e))
  {
  }

  /** Freezing one enrollment. */
  lemma FreezeKeeps(c: Catalog, db: Db, now: nat, t: Id, e: Id)
    requires DbInv(c, db, now)
    ensures DbEvolves(db, Freeze(db, t, e)) && DbInv(c, Freeze(db, t, e), now)
  {
    hide EnrollmentOk, Linked, Covers, NoDuplicates, NoGaps, Lifecycle, InvoiceEvolves, DbEvolves;
    var db' := Freeze(db, t, e);
    FreezeEvolves(db, t, e);
    InvoicesUntouched(c, db, db', now);
    forall x | x in db'.enrollments ensures EnrollmentOk(c, db', x) {
      IssuedPeriodsStay(c, db, db', x);
      CursorAlike(c, db, db', x);
    }
  }

  lemma CursorWriteOnChain(c: Catalog, db: Db, t: Id, e: Id, seen: Option<Period>, period: Period, j: nat)
    requires FindEnrollment(db, t, e).Some?
    requires NextPeriod(c, db, e, seen, period, j) && PeriodIssued(c, db, e, j)
    ensures var db' := SetCurrentPeriod(db, t, e, period);
            DbEvolves(db, db') && OnChain(c, db', e, Some(period), j + 1)
  {
    var db' := SetCurrentPeriod(db, t, e, period);
    assert DbEvolves(db, db');
    IssuedPeriodsStay(c, db, db', e);
  }

  /** The cursor write of a run whose period is issued: the cursor may move either way, but it stays on
      the chain with everything before it issued. */
  lemma CursorWriteKeeps(c: Catalog, db: Db, now: nat, t: Id, e: Id, seen: Option<Period>, period: Period, j: nat)
    requires DbInv(c, db, now)
    requires FindEnrollment(db, t, e).Some?
    requires NextPeriod(c, db, e, seen, period, j) && PeriodIssued(c, db, e, j)
    ensures var db' := SetCurrentPeriod(db, t, e, period);
            DbEvolves(db, db') && DbInv(c, db', now)
            && OnChain(c, db', e, db'.enrollments[e].currentPeriod, j + 1)
  {
    var db' := SetCurrentPeriod(db, t, e, period);
    CursorWriteOnChain(c, db, t, e, seen, period, j);
    InvoicesUntouched(c, db, db', now);
    forall x | x in db'.enrollments ensures EnrollmentOk(c, db', x) {
      if x != e {
        IssuedPeriodsStay(c, db, db', x);
        CursorAlike(c, db, db', x);
      }
    }
  }

  lemma DraftEvolves(db: Db, now: nat, t: Id, id: Id, bill: Bill)
    requires id !in db.invoices
    ensures DbEvolves(db, db.(invoices := db.invoices[id := DraftOf(t, bill)]))
    ensures Lifecycle(DraftOf(t, bill), now)
  {
  }

  /** A new draft that bills no enrollment. */
  lemma AdHocDraftKeeps(c: Catalog, db: Db, now: nat, t: Id, id: Id, bill: Bill)
    requires DbInv(c, db, now)
    requires id !in db.invoices && bill.enrollment.None? && OfSomePlan(c, bill)
    ensures var db' := db.(invoices := db.invoices[id := DraftOf(t, bill)]);
            DbEvolves(db, db') && DbInv(c, db', now)
  {
    hide DbEvolves, Lifecycle, NoDuplicates, NoGaps, EnrollmentOk, UnitBill;
    var db' := db.(invoices := db.invoices[id := DraftOf(t, bill)]);
    DraftEvolves(db, now, t, id, bill);
    assert CoversAlike(c, db, db');
    KeepsCoverage(c, db, db');
    forall i | i in db'.invoices ensures Linked(c, db', i) { if i != id { LinkedAlike(c, db, db', i); } }
    forall e | e in db'.enrollments ensures EnrollmentOk(c, db', e) {
      IssuedPeriodsStay(c, db, db', e);
      CursorAlike(c, db, db', e);
    }
  }

  /** The period key is taken exactly when the period is billed. */
  lemma TakenIsBilled(c: Catalog, db: Db, now: nat, t: Id, e: Id, j: nat, bill: Bill)
    requires DbInv(c, db, now)
    requires FindEnrollment(db, t, e).Some? && HasChain(c, db.enrollments[e])
    requires bill.enrollment == Some(e) && bill.period == Some(PeriodAt(c, db.enrollments[e], j))
    ensures PeriodTaken(db, t, bill) <==> PeriodBilled(c, db, e, j)
  {
    if PeriodTaken(db, t, bill) {
      var id :| id in db.invoices && SamePeriodKey(t, bill, db.invoices[id]);
      SameStartSamePeriod(c, db, now, e, j, id);
      assert Covers(c, db, e, j, id);
    }
    if PeriodBilled(c, db, e, j) {
      var id :| Covers(c, db, e, j, id);
      assert SamePeriodKey(t, bill, db.invoices[id]);
    }
  }

  /** An invoice of the enrollment that starts where the j-th period starts bills the j-th period. */
  lemma SameStartSamePeriod(c: Catalog, db: Db, now: nat, e: Id, j: nat, id: Id)
    requires DbInv(c, db, now)
    requires e in db.enrollments && HasChain(c, db.enrollments[e])
    requires id in db.invoices && db.invoices[id].bill.enrollment == Some(e)
    requires StartOf(db.invoices[id].bill) == Some(PeriodAt(c, db.enrollments[e], j).start)
    ensures Covers(c, db, e, j, id)
  {
    assert Linked(c, db, id);
    var k: nat :| Covers(c, db, e, k, id);
    BoundaryInjective(db.enrollments[e].startDate, c.plans[db.enrollments[e].plan].months, j, k);
  }

  /** A new draft for the next period of a chain: it extends the billed prefix by exactly one. */
  lemma NextDraftKeeps(c: Catalog, db: Db, now: nat, t: Id, id: Id, bill: Bill, e: Id, cur: Option<Period>, j: nat)
    requires DbInv(c, db, now)
    requires id !in db.invoices && FindEnrollment(db, t, e).Some?
    requires bill.enrollment == Some(e) && bill.period.Some? && NextPeriod(c, db, e, cur, bill.period.value, j)
    requires bill.member == db.enrollments[e].member && UnitBill(c, c.plans[db.enrollments[e].plan], bill)
    requires !PeriodTaken(db, t, bill)
    ensures var db' := db.(invoices := db.invoices[id := DraftOf(t, bill)]);
            DbEvolves(db, db') && DbInv(c, db', now)
  {
    hide DbEvolves, Lifecycle, NoDuplicates, NoGaps, EnrollmentOk, PeriodTaken, UnitBill;
    var db' := db.(invoices := db.invoices[id := DraftOf(t, bill)]);
    DraftEvolves(db, now, t, id, bill);
    TakenIsBilled(c, db, now, t, e, j, bill);
    assert Covers(c, db', e, j, id);
    forall x, k: nat, i | Covers(c, db', x, k, i)
      ensures if i == id then x == e && k == j else Covers(c, db, x, k, i)
    {
      if i == id { BoundaryInjective(db.enrollments[e].startDate, c.plans[db.enrollments[e].plan].months, j, k); }
    }
    forall x, k: nat, i | Covers(c, db, x, k, i) ensures Covers(c, db', x, k, i) { CoversStable(c, db, db', x, k, i); }
    NextDraftCoverage(c, db, db', e, j, id);
    forall i | i in db'.invoices ensures Linked(c, db', i) { if i != id { LinkedGrows(c, db, db', i); } }
    forall x | x in db'.enrollments ensures EnrollmentOk(c, db', x) {
      IssuedPeriodsStay(c, db, db', x);
      CursorAlike(c, db, db', x);
    }
  }

  lemma LinkedGrows(c: Catalog, a: Db, b: Db, id: Id)
    requires DbEvolves(a, b) && id in a.invoices && Linked(c, a, id)
    ensures Linked(c, b, id)
  {
    if b.invoices[id].bill.enrollment.Some? {
      var e := b.invoices[id].bill.enrollment.value;
      var k: nat :| Covers(c, a, e, k, id);
      CoversStable(c, a, b, e, k, id);
    }
  }

  lemma NextDraftCoverage(c: Catalog, a: Db, b: Db, e: Id, j: nat, id: Id)
    requires NoDuplicates(c, a) && NoGaps(c, a) && IssuedBelow(c, a, e, j) && !PeriodBilled(c, a, e, j)
    requires Covers(c, b, e, j, id)
    requires forall x, k: nat, i :: Covers(c, b, x, k, i) ==> if i == id then x == e && k == j else Covers(c, a, x, k, i)
    requires forall x, k: nat, i :: Covers(c, a, x, k, i) ==> Covers(c, b, x, k, i)
    ensures NoDuplicates(c, b) && NoGaps(c, b)
  {
    forall x, k: nat, p, q | Covers(c, b, x, k, p) && Covers(c, b, x, k, q) ensures p == q {
      assert p != id ==> Covers(c, a, x, k, p) && PeriodBilled(c, a, x, k);
      assert q != id ==> Covers(c, a, x, k, q) && PeriodBilled(c, a, x, k);
    }
    forall x, k: nat, i: nat | PeriodBilled(c, b, x, k) && i < k ensures PeriodBilled(c, b, x, i) {
      var p :| Covers(c, b, x, k, p);
      if p == id {
        assert PeriodIssued(c, a, e, i);
      } else {
        assert PeriodBilled(c, a, x, k);
      }
      assert PeriodBilled(c, a, x, i);
      var q :| Covers(c, a, x, i, q);
      assert Covers(c, b, x, i, q);
    }
  }

  lemma NewEnrollmentKeeps(c: Catalog, db: Db, now: nat, e: Id, doc: Enrollment)
    requires DbInv(c, db, now)
    requires e !in db.enrollments && Valid(doc.startDate) && doc.currentPeriod.None?
    ensures var db' := db.(enrollments := db.enrollments[e := doc]);
            DbEvolves(db, db') && DbInv(c, db', now)
  {
    var db' := db.(enrollments := db.enrollments[e := doc]);
    assert DbEvolves(db, db');
    forall x, k: nat, id | Covers(c, db', x, k, id) ensures Covers(c, db, x, k, id) {
      assert Linked(c, db, id);
    }
    forall x, k: nat, id | Covers(c, db, x, k, id) ensures Covers(c, db', x, k, id) { CoversStable(c, db, db', x, k, id); }
    assert CoversAlike(c, db, db');
    KeepsCoverage(c, db, db');
    forall i | i in db'.invoices ensures Linked(c, db', i) { LinkedAlike(c, db, db', i); }
    forall x | x in db'.enrollments ensures EnrollmentOk(c, db', x) {
      if x == e {
        if HasChain(c, doc) { assert OnChain(c, db', e, None, 0); }
      } else {
        IssuedPeriodsStay(c, db, db', x);
        CursorAlike(c, db, db', x);
      }
    }
  }

  // ---- The steps of a process, operation by operation ----

  ghost predicate KeepsDb(c: Catalog, db: Db, now: nat, e: Effect) {
    DbEvolves(db, e.db) && DbInv(c, e.db, now)
  }

  lemma SuccessOk(c: Catalog, db: Db, now: nat, t: Id, id: Id, k: After)
    requires DbInv(c, db, now) && IsIssued(db, t, id) && AfterOk(c, db, t, id, k)
    ensures Success(t, k).Some? ==> BillingInv(c, db, Success(t, k).value)
  {
    if k.ThenAdvance? {
      var j: nat :| NextPeriod(c, db, k.enrollment, k.seen, k.period, j);
      SameStartSamePeriod(c, db, now, k.enrollment, j, id);
      assert PeriodIssued(c, db, k.enrollment, j);
    }
  }

  /** What an issuing step may leave behind. */
  ghost predicate IssueNext(c: Catalog, db: Db, now: nat, next: Option<Proc>) {
    next.Some? ==>
      if InIssue(next.value) then IssueInv(c, db, now, next.value)
      else next.value.AdvanceCursor? && BillingInv(c, db, next.value)
  }

  lemma EnsureOk(c: Catalog, db: Db, now: nat, t: Id, id: Id, k: After)
    requires DbInv(c, db, now) && AfterOk(c, db, t, id, k)
    ensures IssueNext(c, db, now, Ensure(db, t, id, k))
  {
    hide DbInv, AfterOk, RunOk, BillingInv;
    if IsIssued(db, t, id) { SuccessOk(c, db, now, t, id, k); }
  }

  /** Issuing a draft and recording a payment are lawful changes of an invoice. */
  lemma IssuedLawful(c: Catalog, db: Db, now: nat, id: Id, at: nat, number: Number)
    requires DbInv(c, db, now) && id in db.invoices && db.invoices[id].status == Draft
    requires at <= now && number.year == YearOf(at)
    ensures InvoiceEvolves(db.invoices[id], Issued(db.invoices[id], at, number))
    ensures Lifecycle(Issued(db.invoices[id], at, number), now)
  {
    assert Lifecycle(db.invoices[id], now);
  }

  lemma PaidLawful(c: Catalog, db: Db, now: nat, id: Id)
    requires DbInv(c, db, now) && id in db.invoices
    ensures var paid := db.invoices[id].(status := Paid, paidAt := Some(now), dunningStage := 0, nextRetryAt := None);
            InvoiceEvolves(db.invoices[id], paid) && Lifecycle(paid, now)
  {
    assert Lifecycle(db.invoices[id], now);
  }

  lemma ClaimKeeps(c: Catalog, db: Db, now: nat, p: Proc)
    requires p.IssueClaim? && DbInv(c, db, now) && IssueInv(c, db, now, p)
    ensures KeepsDb(c, db, now, AdvanceIssue(db, now, p))
    ensures IssueNext(c, AdvanceIssue(db, now, p).db, now, AdvanceIssue(db, now, p).next)
  {
    hide DbInv, DbEvolves, RunOk, BillingInv, InvoiceEvolves, Lifecycle;
    EvolvesReflexive(db);
    var t, id := p.tenant, p.invoice;
    var claim := ClaimForIssue(db, t, id, p.at, Number(YearOf(p.at), p.sequence));
    if claim.Ok? && claim.value.1.Some? {
      var db' := claim.value.0;
      IssuedLawful(c, db, now, id, p.at, Number(YearOf(p.at), p.sequence));
      UpdateInvoiceKeeps(c, db, now, id, claim.value.1.value);
      AfterOkStable(c, db, db', t, id, p.k);
      SuccessOk(c, db', now, t, id, p.k);
    }
  }

  lemma AllocateKeeps(c: Catalog, db: Db, now: nat, p: Proc)
    requires p.IssueAllocate? && DbInv(c, db, now) && IssueInv(c, db, now, p)
    ensures KeepsDb(c, db, now, AdvanceIssue(db, now, p))
    ensures IssueNext(c, AdvanceIssue(db, now, p).db, now, AdvanceIssue(db, now, p).next)
  {
    hide DbInv, YearOf, Boundary, UnitBill, Lifecycle;
    var db' := Allocate(db, p.tenant, YearOf(p.at)).0;
    assert DbEvolves(db, db');
    SameDocuments(c, db, db', now);
    AfterOkStable(c, db, db', p.tenant, p.invoice, p.k);
  }

  lemma IssueKeeps(c: Catalog, db: Db, now: nat, p: Proc)
    requires InIssue(p) && DbInv(c, db, now) && IssueInv(c, db, now, p)
    ensures KeepsDb(c, db, now, AdvanceIssue(db, now, p))
    ensures IssueNext(c, AdvanceIssue(db, now, p).db, now, AdvanceIssue(db, now, p).next)
  {
    hide DbInv, DbEvolves, RunOk, BillingInv;
    EvolvesReflexive(db);
    if p.IssueClaim? { ClaimKeeps(c, db, now, p); }
    else if p.IssueAllocate? { AllocateKeeps(c, db, now, p); }
    else if p.IssueReread? || p.EnsureReread? {
      if IsIssued(db, p.tenant, p.invoice) { SuccessOk(c, db, now, p.tenant, p.invoice, p.k); }
    }
  }

  lemma AdHocBillIsUnit(c: Catalog, db: Db, p: Proc)
    requires p.AdHocEnrollment?
    ensures var doc := FindEnrollment(db, p.tenant, p.enrollment);
            doc.Some? && doc.value.plan in c.plans ==>
              var bill := BillFor(c, c.plans[doc.value.plan], doc.value.member, None, None);
              bill.Some? ==> OfSomePlan(c, bill.value)
  {
    hide UnitBill, BillFor;
    var doc := FindEnrollment(db, p.tenant, p.enrollment);
    if doc.Some? && doc.value.plan in c.plans { BillForExactly(c, c.plans[doc.value.plan], doc.value.member, None, None); }
  }

  lemma AdHocKeeps(c: Catalog, db: Db, now: nat, p: Proc, pick: Option<Id>)
    requires InAdHoc(p) && DbInv(c, db, now) && (p.AdHocCreate? ==> p.bill.enrollment.None? && OfSomePlan(c, p.bill))
    ensures KeepsDb(c, db, now, AdvanceAdHoc(c, db, p, pick))
    ensures var e := AdvanceAdHoc(c, db, p, pick);
            e.next.Some? ==> (e.next.value.AdHocCreate? && e.next.value.bill.enrollment.None? && OfSomePlan(c, e.next.value.bill))
                             || (e.next.value.IssueFind? && IssueInv(c, e.db, now, e.next.value))
  {
    hide DbInv, DbEvolves, UnitBill, BillFor;
    EvolvesReflexive(db);
    if p.AdHocEnrollment? { AdHocBillIsUnit(c, db, p); }
    if p.AdHocCreate? && pick.Some? && pick.value !in db.invoices {
      AdHocDraftKeeps(c, db, now, p.tenant, pick.value, p.bill);
    }
  }

  /** What a billing step may leave behind: the run itself, or its issuing part. */
  ghost predicate BillingNext(c: Catalog, db: Db, now: nat, next: Option<Proc>) {
    next.Some? ==>
      && (InIssue(next.value) || InBilling(next.value))
      && (InIssue(next.value) ==> IssueInv(c, db, now, next.value))
      && (InBilling(next.value) ==> BillingInv(c, db, next.value))
  }

  lemma BillEnrollmentKeeps(c: Catalog, db: Db, now: nat, p: Proc)
    requires p.BillEnrollment? && DbInv(c, db, now)
    ensures BillingNext(c, db, now, AdvanceBilling(c, db, now, p, None).next)
  {
    if FindEnrollment(db, p.tenant, p.enrollment).Some? { assert EnrollmentOk(c, db, p.enrollment); }
  }

  lemma BillClockKeeps(c: Catalog, db: Db, now: nat, p: Proc)
    requires p.BillClock? && DbInv(c, db, now) && BillingInv(c, db, p)
    ensures BillingNext(c, db, now, AdvanceBilling(c, db, now, p, None).next)
  {
    var e, doc := p.enrollment, p.seenDoc;
    if doc.plan in c.plans {
      var period := ComputeBillingPeriod(c.plans[doc.plan].months, doc.startDate, doc.currentPeriod, AsOf(now));
      if period.Some? {
        assert HasChain(c, db.enrollments[e]) by { assert EnrollmentOk(c, db, e); }
        var j: nat :| OnChain(c, db, e, doc.currentPeriod, j);
        assert NextPeriod(c, db, e, doc.currentPeriod, period.value, j);
      }
    }
  }

  /** A lookup by enrollment and period start finds an invoice for the run's period. */
  lemma FoundOk(c: Catalog, db: Db, now: nat, t: Id, e: Id, cur: Option<Period>, period: Period, id: Id)
    requires DbInv(c, db, now) && RunOk(c, db, t, e, cur, period)
    requires MatchesPeriod(db, t, e, period.start, id)
    ensures AfterOk(c, db, t, id, ThenAdvance(e, cur, period))
  {
    var j: nat :| NextPeriod(c, db, e, cur, period, j);
    SameStartSamePeriod(c, db, now, e, j, id);
  }

  lemma BillLookupKeeps(c: Catalog, db: Db, now: nat, p: Proc, pick: Option<Id>)
    requires p.BillFind? || p.BillRefind?
    requires DbInv(c, db, now) && BillingInv(c, db, p)
    ensures BillingNext(c, db, now, AdvanceBilling(c, db, now, p, pick).next)
  {
    hide DbInv, DbEvolves, RunOk, AfterOk, SeenOk, UnitBill, BillFor;
    if p.seenDoc.plan in c.plans {
      BillForExactly(c, c.plans[p.seenDoc.plan], p.seenDoc.member, Some(p.enrollment), Some(p.period));
    }
    if PeriodAnswer(db, p.tenant, p.enrollment, p.period.start, pick) && pick.Some? {
      FoundOk(c, db, now, p.tenant, p.enrollment, p.seenDoc.currentPeriod, p.period, pick.value);
      EnsureOk(c, db, now, p.tenant, pick.value, Continue(p.enrollment, p.seenDoc, p.period));
    }
  }

  lemma BillCreateKeeps(c: Catalog, db: Db, now: nat, p: Proc, pick: Option<Id>)
    requires p.BillCreate? && DbInv(c, db, now) && BillingInv(c, db, p)
    ensures KeepsDb(c, db, now, AdvanceBilling(c, db, now, p, pick))
    ensures BillingNext(c, AdvanceBilling(c, db, now, p, pick).db, now, AdvanceBilling(c, db, now, p, pick).next)
  {
    hide DbInv, OnChain, NextPeriod, InvoiceEvolves, DbEvolves, UnitBill;
    EvolvesReflexive(db);
    var t, e, cur := p.tenant, p.enrollment, p.seenDoc.currentPeriod;
    if pick.Some? && pick.value !in db.invoices && !PeriodTaken(db, t, p.bill) {
      var j: nat :| NextPeriod(c, db, e, cur, p.period, j);
      NextDraftKeeps(c, db, now, t, pick.value, p.bill, e, cur, j);
      var db' := db.(invoices := db.invoices[pick.value := DraftOf(t, p.bill)]);
      RunOkStable(c, db, db', t, e, cur, p.period);
    }
  }

  lemma CursorKeeps(c: Catalog, db: Db, now: nat, p: Proc)
    requires p.AdvanceCursor? && DbInv(c, db, now) && BillingInv(c, db, p)
    ensures KeepsDb(c, db, now, AdvanceBilling(c, db, now, p, None))
  {
    hide DbInv, DbEvolves, NextPeriod, PeriodIssued, Linked;
    EvolvesReflexive(db);
    var j: nat :| NextPeriod(c, db, p.enrollment, p.seen, p.period, j) && PeriodIssued(c, db, p.enrollment, j);
    CursorWriteKeeps(c, db, now, p.tenant, p.enrollment, p.seen, p.period, j);
  }

  lemma BillingKeeps(c: Catalog, db: Db, now: nat, p: Proc, pick: Option<Id>)
    requires InBilling(p) && DbInv(c, db, now) && BillingInv(c, db, p)
    ensures KeepsDb(c, db, now, AdvanceBilling(c, db, now, p, pick))
    ensures BillingNext(c, AdvanceBilling(c, db, now, p, pick).db, now, AdvanceBilling(c, db, now, p, pick).next)
  {
    hide DbInv, DbEvolves, RunOk, NextPeriod;
    EvolvesReflexive(db);
    if p.BillClock? { BillClockKeeps(c, db, now, p); }
    else if p.BillFind? || p.BillRefind? { BillLookupKeeps(c, db, now, p, pick); }
    else if p.BillCreate? { BillCreateKeeps(c, db, now, p, pick); }
    else if p.AdvanceCursor? { CursorKeeps(c, db, now, p); }
    else { BillEnrollmentKeeps(c, db, now, p); }
  }

  /** Winning a rung: the compare-and-swap on the stage makes the snapshot's retry time the current one. */
  lemma RungLawful(inv: Invoice, snap: Invoice, at: nat, now: nat)
    requires Lifecycle(inv, now) && InvoiceEvolves(snap, inv) && snap.status == Open && Lifecycle(snap, now)
    requires inv.status == Open && inv.dunningStage == snap.dunningStage
    requires ClimbOk(snap, at) && at <= now
    ensures InvoiceEvolves(inv, Stepped(inv, at)) && Lifecycle(Stepped(inv, at), now)
    ensures Earliest(inv.issuedAt.value, inv.dunningStage) < at
    ensures inv.nextRetryAt.Some? ==> inv.nextRetryAt.value <= at
  {
    assert RETRY_DAYS * DAY * (inv.dunningStage + 1) == RETRY_DAYS * DAY * inv.dunningStage + RETRY_DAYS * DAY;
  }

  predicate DunningNext(db: Db, now: nat, log: seq<Event>, next: Option<Proc>) {
    next.Some? ==> InDunning(next.value) && DunningInv(db, now, log, next.value)
  }

  lemma DunReadKeeps(c: Catalog, db: Db, now: nat, log: seq<Event>, p: Proc)
    requires p.DunFind? || p.DunClock? || p.DunEnrollment?
    requires DbInv(c, db, now) && DunningInv(db, now, log, p)
    ensures DunningNext(db, now, log, AdvanceDunning(db, now, p).next)
  {
    if p.DunFind? { assert Lifecycle(db.invoices[p.invoice], now); }
  }

  predicate Wins(db: Db, p: Proc)
    requires p.DunStep?
  {
    FindInvoice(db, p.tenant, p.invoice).Some? && db.invoices[p.invoice].status == Open
    && db.invoices[p.invoice].dunningStage == p.snap.dunningStage
  }

  lemma RungWon(c: Catalog, db: Db, now: nat, log: seq<Event>, p: Proc)
    requires p.DunStep? && DbInv(c, db, now) && DunningInv(db, now, log, p) && Wins(db, p)
    ensures KeepsDb(c, db, now, AdvanceDunning(db, now, p))
  {
    var inv := db.invoices[p.invoice];
    RungLawful(inv, p.snap, p.at, now);
    hide DbInv, DbEvolves, InvoiceEvolves, Lifecycle;
    UpdateInvoiceKeeps(c, db, now, p.invoice, Stepped(inv, p.at));
  }

  lemma DunStepKeeps(c: Catalog, db: Db, now: nat, log: seq<Event>, p: Proc)
    requires p.DunStep? && DbInv(c, db, now) && DunningInv(db, now, log, p)
    ensures KeepsDb(c, db, now, AdvanceDunning(db, now, p))
    ensures var e := AdvanceDunning(db, now, p); DunningNext(e.db, now, log + e.events, e.next)
  {
    hide DbInv, DbEvolves, InvoiceEvolves, Lifecycle;
    EvolvesReflexive(db);
    if Wins(db, p) {
      RungWon(c, db, now, log, p);
      assert Rung(p.invoice, p.snap.dunningStage, p.at) in log + [Rung(p.invoice, p.snap.dunningStage, p.at)];
      SnapKeepsBill(db, p.tenant, p.invoice, p.snap, now);
    }
  }

  lemma SnapKeepsBill(db: Db, t: Id, id: Id, snap: Invoice, now: nat)
    requires SnapOk(db, t, id, snap, now)
    ensures db.invoices[id].bill == snap.bill
    ensures snap.status == Open ==> snap.dunningStage < SUSPEND_STAGE
  {
  }

  lemma DunningKeeps(c: Catalog, db: Db, now: nat, log: seq<Event>, p: Proc)
    requires InDunning(p) && DbInv(c, db, now) && DunningInv(db, now, log, p)
    ensures KeepsDb(c, db, now, AdvanceDunning(db, now, p))
    ensures var e := AdvanceDunning(db, now, p); DunningNext(e.db, now, log + e.events, e.next)
  {
    hide DbInv, DbEvolves, SnapOk;
    EvolvesReflexive(db);
    if p.DunStep? { DunStepKeeps(c, db, now, log, p); }
    else if p.DunFreeze? { FreezeKeeps(c, db, now, p.tenant, p.target); }
    else { DunReadKeeps(c, db, now, log, p); assert log + [] == log; }
  }

  lemma PayKeeps(c: Catalog, db: Db, now: nat, p: Proc)
    requires InPayment(p) && DbInv(c, db, now)
    ensures KeepsDb(c, db, now, AdvancePayment(db, now, p))
    ensures var next := AdvancePayment(db, now, p).next; next.Some? ==> InPayment(next.value)
  {
    hide DbInv, InvoiceEvolves, EnrollmentEvolves, Lifecycle;
    EvolvesReflexive(db);
    if p.PayCreate? && (p.tenant, p.key) !in db.payments {
      var db' := db.(payments := db.payments[(p.tenant, p.key) := p.payment]);
      assert DbEvolves(db, db') by { assert DbEvolves(db, db); }
      SameDocuments(c, db, db', now);
    } else if p.PayMark? && FindInvoice(db, p.tenant, p.invoice).Some? {
      var inv := db.invoices[p.invoice];
      PaidLawful(c, db, now, p.invoice);
      UpdateInvoiceKeeps(c, db, now, p.invoice, inv.(status := Paid, paidAt := Some(now), dunningStage := 0, nextRetryAt := None));
    }
  }

  /** One step of any process keeps the documents lawful, undoes nothing, and leaves the process with
      what it relies on next. */
  lemma AdvanceKeeps(c: Catalog, db: Db, now: nat, log: seq<Event>, p: Proc, pick: Option<Id>)
    requires DbInv(c, db, now) && ProcInv(c, db, now, log, p)
    ensures KeepsDb(c, db, now, Advance(c, db, now, p, pick))
    ensures var e := Advance(c, db, now, p, pick);
            e.next.Some? ==> ProcInv(c, e.db, now, log + e.events, e.next.value)
  {
    hide DbInv, DbEvolves, IssueInv, BillingInv, DunningInv, AdvanceIssue, AdvanceAdHoc, AdvanceBilling, AdvanceDunning, AdvancePayment;
    if InIssue(p) { IssueKeeps(c, db, now, p); }
    else if InAdHoc(p) { AdHocKeeps(c, db, now, p, pick); }
    else if InBilling(p) { BillingKeeps(c, db, now, p, pick); }
    else if InDunning(p) { DunningKeeps(c, db, now, log, p); }
    else { PayKeeps(c, db, now, p); }
  }
}
