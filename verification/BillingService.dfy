/** The billing service as it is written: a sequence of awaited store calls, between which anything may
    happen. Every method is proved to be a run of the step machine, the calls of the others included, so
    whatever holds of all runs holds of the service. */
module BillingService {
  import opened Outcomes
  import opened Calendar
  import opened BillingStore
  import opened BillingMachine
  import opened BillingInvariant
  import opened BillingRuns
  import opened BillingDatabase
  import opened BillingRepositories
  import opened BillingCalls
  import opened BillingEffects

  /** The tenant's enrollment is there and suspended. */
  predicate IsFrozen(db: Db, tenant: Id, e: Id) {
    FindEnrollment(db, tenant, e).Some? && FindEnrollment(db, tenant, e).value.status == EnrollmentStatus.Frozen
  }

  lemma FoundTenant(db: Db, tenant: Id, id: Id)
    ensures FindInvoice(db, tenant, id).Some? ==> FindInvoice(db, tenant, id).value.tenant == tenant
  {
  }

  /** The tenant's invoice is paid, at this instant, and off the dunning ladder. */
  predicate PaidNow(db: Db, tenant: Id, id: Id, now: nat) {
    FindInvoice(db, tenant, id).Some?
    && var x := FindInvoice(db, tenant, id).value;
       x.status == Paid && x.paidAt == Some(now) && x.dunningStage == 0 && x.nextRetryAt.None?
  }

  datatype BillingError =
    | NotFound(what: string, id: Id)
    | NotADraft
    | IssueFailed
    | Refused(cause: StoreError)
    | WrongCurrency
    | WrongMember

  class BillingService {
    const database: Database
    const tenant: Id
    const enrollments: EnrollmentRepository
    const invoices: InvoiceRepository
    const counters: InvoiceCounterRepository
    const payments: PaymentRepository

    constructor (database: Database, tenant: Id)
      ensures this.database == database && this.tenant == tenant && Valid()
      ensures fresh(enrollments) && fresh(invoices) && fresh(counters) && fresh(payments)
    {
      this.database, this.tenant := database, tenant;
      enrollments := new EnrollmentRepository(database, tenant);
      invoices := new InvoiceRepository(database, tenant);
      counters := new InvoiceCounterRepository(database);
      payments := new PaymentRepository(database, tenant);
    }

    /** All repositories are those of the active tenant. */
    predicate Valid() {
      && enrollments.database == database && enrollments.tenant == tenant
      && invoices.database == database && invoices.tenant == tenant
      && counters.database == database
      && payments.database == database && payments.tenant == tenant
    }

    /** The call awaits at p while the others run. */
    method Pause(ghost start: State, ghost run: seq<Action>, pid: nat, ghost p: Proc) returns (ghost longer: seq<Action>)
      requires Stands(database.catalog, start, run, database.World(), pid, Some(p))
      modifies database
      ensures Stands(database.catalog, start, longer, database.World(), pid, Some(p)) && run <= longer
    {
      ghost var others := database.Await(pid, Some(p));
      RunAppend(database.catalog, start, run, others);
      longer := run + others;
    }

    /** Issue a draft: confirm it, read the clock once, allocate, and claim; a loser returns the invoice
        the winner issued. A call that finds no draft throws and leaves everything as it was, so issuing
        an issued invoice takes no number. */
    method Issue(pid: nat, id: Id, ghost k: After) returns (r: Result<Invoice, BillingError>, ghost run: seq<Action>)
      requires Valid() && pid !in database.calls
      modifies database
      ensures Stands(database.catalog, old(database.WithCall(pid, Some(IssueFind(tenant, id, k)))), run, database.World(), pid,
                     if r.Ok? then Success(tenant, k) else Thrown(tenant, id, k))
      ensures r.Ok? ==> r.value.status != Draft && FindInvoice(database.Contents(), tenant, id) == Some(r.value)
      ensures (var found := old(FindInvoice(database.Contents(), tenant, id)); found.None? || found.value.status != Draft) ==>
                r.Err? && database.World() == old(database.World())
    {
      hide Advance, Run, Stands, ClaimForIssue, Allocate, YearOf, Success, Thrown, FindInvoice;
      ghost var c, world := database.catalog, database.World();
      ghost var start := database.WithCall(pid, Some(IssueFind(tenant, id, k)));
      Begin(c, world, pid, IssueFind(tenant, id, k));

      var draft := invoices.FindById(id);
      IssueEffect(c, world.db, world.now, IssueFind(tenant, id, k));
      run := Take(c, start, [], world, database.World(), pid, IssueFind(tenant, id, k), None);
      if draft.None? {
        return Err(NotFound("invoice", id)), run;
      }
      if draft.value.status != Draft {
        return Err(NotADraft), run;
      }

      var at := database.now;
      IssueEffect(c, world.db, world.now, IssueClock(tenant, id, k));
      run := Take(c, start, run, world, database.World(), pid, IssueClock(tenant, id, k), None);

      run := Pause(start, run, pid, IssueAllocate(tenant, id, at, k));
      world := database.World();
      var sequence := counters.AllocateNumber(tenant, YearOf(at));
      IssueEffect(c, world.db, world.now, IssueAllocate(tenant, id, at, k));
      run := Take(c, start, run, world, database.World(), pid, IssueAllocate(tenant, id, at, k), None);

      r, run := ClaimNumber(pid, id, at, sequence, k, start, run);
    }

    /** The claim with the number allocated; a loser reads again what the winner issued. */
    method ClaimNumber(pid: nat, id: Id, at: nat, sequence: nat, ghost k: After, ghost start: State, ghost done: seq<Action>)
      returns (r: Result<Invoice, BillingError>, ghost run: seq<Action>)
      requires Valid() && Stands(database.catalog, start, done, database.World(), pid, Some(IssueClaim(tenant, id, at, sequence, k)))
      modifies database
      ensures Stands(database.catalog, start, run, database.World(), pid, if r.Ok? then Success(tenant, k) else Thrown(tenant, id, k))
      ensures r.Ok? ==> r.value.status != Draft && FindInvoice(database.Contents(), tenant, id) == Some(r.value)
    {
      hide Advance, Run, Stands, ClaimForIssue, YearOf, Success, Thrown, FindInvoice, NumberTaken, Holds;
      ghost var c := database.catalog;
      run := Pause(start, done, pid, IssueClaim(tenant, id, at, sequence, k));
      ghost var world := database.World();
      var claimed := invoices.Claim(id, at, Number(YearOf(at), sequence));
      IssueEffect(c, world.db, world.now, IssueClaim(tenant, id, at, sequence, k));
      ClaimLands(world.db, tenant, id, at, Number(YearOf(at), sequence));
      if claimed.Err? || claimed.value.None? {
        database.burnt := database.burnt + {(tenant, YearOf(at), sequence)};
        assert database.log + [] == database.log;
      }
      run := Take(c, start, run, world, database.World(), pid, IssueClaim(tenant, id, at, sequence, k), None);
      if claimed.Err? {
        return Err(Refused(claimed.error)), run;
      }
      if claimed.value.Some? {
        return Ok(claimed.value.value), run;
      }

      run := Pause(start, run, pid, IssueReread(tenant, id, k));
      world := database.World();
      var after := invoices.FindById(id);
      IssueEffect(c, world.db, world.now, IssueReread(tenant, id, k));
      run := Take(c, start, run, world, database.World(), pid, IssueReread(tenant, id, k), None);
      if after.Some? && after.value.status != Draft {
        return Ok(after.value), run;
      }
      return Err(IssueFailed), run;
    }

    /** Issue a draft, tolerating a concurrent call that issued it first. */
    method EnsureIssued(pid: nat, id: Id, invoice: Invoice, ghost k: After) returns (r: Result<Invoice, BillingError>, ghost run: seq<Action>)
      requires Valid() && pid !in database.calls && k.ThenAdvance?
      requires FindInvoice(database.Contents(), tenant, id) == Some(invoice)
      modifies database
      ensures Stands(database.catalog, old(database.WithCall(pid, Ensure(database.Contents(), tenant, id, k))), run, database.World(), pid,
                     if r.Ok? then Success(tenant, k) else None)
      ensures r.Ok? ==> r.value.status != Draft && FindInvoice(database.Contents(), tenant, id) == Some(r.value)
    {
      ghost var start := database.WithCall(pid, Ensure(database.Contents(), tenant, id, k));
      if invoice.status != Draft {
        return Ok(invoice), [];
      }
      hide Advance, Run, Stands, Success, FindInvoice;
      r, run := Issue(pid, id, k);
      if r.Err? {
        run := Pause(start, run, pid, EnsureReread(tenant, id, k));
        ghost var world := database.World();
        var after := invoices.FindById(id);
        IssueEffect(database.catalog, world.db, world.now, EnsureReread(tenant, id, k));
        run := Take(database.catalog, start, run, world, database.World(), pid, EnsureReread(tenant, id, k), None);
        if after.Some? && after.value.status != Draft {
          r := Ok(after.value);
        }
      }
    }

    /** A draft for one unit of the plan, without a period, and its issue. */
    method IssueInvoiceForEnrollment(pid: nat, enrollmentId: Id) returns (r: Result<Invoice, BillingError>, ghost run: seq<Action>)
      requires Valid() && pid !in database.calls
      modifies database
      ensures Stands(database.catalog, old(database.WithCall(pid, Some(AdHocEnrollment(tenant, enrollmentId)))), run, database.World(), pid, None)
      ensures r.Ok? ==> r.value.status != Draft && exists id :: FindInvoice(database.Contents(), tenant, id) == Some(r.value)
      ensures r.Ok? && old(Inv(database.catalog, database.World())) ==>
                AdHocStored(database.catalog, old(database.Contents()), database.Contents(), tenant, enrollmentId, r.value)
    {
      hide Advance, Run, Stands, Inv, ProcInv, FindEnrollment, FindInvoice, CreateDraft, BillFor, UnitBill, PeriodTaken;
      ghost var c, world := database.catalog, database.World();
      ghost var start := database.WithCall(pid, Some(AdHocEnrollment(tenant, enrollmentId)));
      if Inv(c, world) {
        AdHocStartOk(c, world, tenant, enrollmentId);
        CallIsLawful(c, world, pid, AdHocEnrollment(tenant, enrollmentId));
      }
      Begin(c, world, pid, AdHocEnrollment(tenant, enrollmentId));

      var enrollment := enrollments.FindById(enrollmentId);
      AdHocEffect(c, world.db, world.now, tenant, enrollmentId);
      run := Take(c, start, [], world, database.World(), pid, AdHocEnrollment(tenant, enrollmentId), None);
      if enrollment.None? {
        return Err(NotFound("enrollment", enrollmentId)), run;
      }
      var doc := enrollment.value;
      if doc.plan !in database.catalog.plans {
        return Err(NotFound("plan", doc.plan)), run;
      }
      var bill := BillFor(database.catalog, database.catalog.plans[doc.plan], doc.member, None, None);
      BillForExactly(database.catalog, database.catalog.plans[doc.plan], doc.member, None, None);
      if bill.None? {
        return Err(NotFound("vatRate", doc.plan)), run;
      }

      run := Pause(start, run, pid, AdHocCreate(tenant, bill.value));
      StandsHere(c, start, run, database.World(), pid, Some(AdHocCreate(tenant, bill.value)));
      ghost var freeRun := run;
      world := database.World();
      var id, error := invoices.Create(bill.value);
      CreateEffect(c, world.db, world.now, AdHocCreate(tenant, bill.value), id);
      run := Take(c, start, run, world, database.World(), pid, AdHocCreate(tenant, bill.value), Some(id));
      if error.Some? {
        return Err(Refused(error.value)), run;
      }

      ghost var more;
      ghost var mid := database.WithCall(pid, Some(IssueFind(tenant, id, Done)));
      StandsHere(c, start, run, database.World(), pid, Some(IssueFind(tenant, id, Done)));
      CreatedIsDraft(world.db, tenant, id, bill.value, Done);
      ghost var createdRun := run;
      r, more := Issue(pid, id, Done);
      Chain(c, start, run, mid, more, database.World(), pid, None);
      run := run + more;
      if r.Ok? {
        StandsHere(c, start, run, database.World(), pid, None);
        if Inv(c, start) { CreatedBillStays(c, start, freeRun, createdRun, run, tenant, id, bill.value, r.value); }
      }
    }

    /** The invoice of a period: found, or created, or found after losing the creation to another call. */
    method FindOrCreate(pid: nat, enrollmentId: Id, doc: Enrollment, period: Period, ghost start: State, ghost done: seq<Action>)
      returns (r: Result<Id, BillingError>, ghost run: seq<Action>)
      requires Valid() && doc.plan in database.catalog.plans
      requires Stands(database.catalog, start, done, database.World(), pid, Some(BillFind(tenant, enrollmentId, doc, period)))
      modifies database
      ensures done <= run
      ensures match r
              case Ok(id) =>
                && FindInvoice(database.Contents(), tenant, id).Some?
                && database.invoices[id].bill.enrollment == Some(enrollmentId)
                && Stands(database.catalog, start, run, database.World(), pid,
                          Ensure(database.Contents(), tenant, id, Continue(enrollmentId, doc, period)))
              case Err(_) => Stands(database.catalog, start, run, database.World(), pid, None)
    {
      hide Advance, Run, Stands, CreateDraft, BillFor, Ensure;
      ghost var c, world, p := database.catalog, database.World(), BillFind(tenant, enrollmentId, doc, period);
      var hit := invoices.FindByEnrollmentPeriod(enrollmentId, period.start);
      if hit.Some? {
        BillHitEffect(c, world.db, world.now, p, hit.value);
        run := Take(c, start, done, world, database.World(), pid, p, hit);
        return Ok(hit.value), run;
      }
      BillMissEffect(c, world.db, world.now, p);
      run := Take(c, start, done, world, database.World(), pid, p, None);
      var bill := BillFor(database.catalog, database.catalog.plans[doc.plan], doc.member, Some(enrollmentId), Some(period));
      if bill.None? {
        return Err(NotFound("vatRate", doc.plan)), run;
      }

      p := BillCreate(tenant, enrollmentId, doc, period, bill.value);
      run := Pause(start, run, pid, p);
      world := database.World();
      var id, error := invoices.Create(bill.value);
      CreateEffect(c, world.db, world.now, p, id);
      run := Take(c, start, run, world, database.World(), pid, p, Some(id));
      if error.None? {
        CreatedIsDraft(world.db, tenant, id, bill.value, Continue(enrollmentId, doc, period));
        return Ok(id), run;
      }

      p := BillRefind(tenant, enrollmentId, doc, period);
      run := Pause(start, run, pid, p);
      world := database.World();
      hit := invoices.FindByEnrollmentPeriod(enrollmentId, period.start);
      if hit.None? {
        BillMissEffect(c, world.db, world.now, p);
        run := Take(c, start, run, world, database.World(), pid, p, None);
        return Err(Refused(error.value)), run;
      }
      BillHitEffect(c, world.db, world.now, p, hit.value);
      run := Take(c, start, run, world, database.World(), pid, p, hit);
      return Ok(hit.value), run;
    }

    /** Bill the next due period of an enrollment, once, and move its cursor. */
    method BillRecurringForEnrollment(pid: nat, enrollmentId: Id) returns (r: Result<Option<Invoice>, BillingError>, ghost run: seq<Action>)
      requires Valid() && pid !in database.calls
      modifies database
      ensures Stands(database.catalog, old(database.WithCall(pid, Some(BillEnrollment(tenant, enrollmentId)))), run, database.World(), pid, None)
      ensures r.Ok? && r.value.Some? ==> r.value.value.status != Draft
      ensures (var found := old(FindEnrollment(database.Contents(), tenant, enrollmentId));
               if found.None? then r == Err(NotFound("enrollment", enrollmentId)) && database.World() == old(database.World())
               else found.value.status != Active ==> r == Ok(None) && database.World() == old(database.World()))
      ensures r.Ok? && r.value.Some? && old(Inv(database.catalog, database.World())) ==>
                StoredFor(database.Contents(), enrollmentId, r.value.value)
                && Priced(database.catalog, database.Contents(), r.value.value.bill)
    {
      hide Advance, Run, Stands, Inv, ProcInv, FindEnrollment, FindInvoice, ComputeBillingPeriod, SetCurrentPeriod, Ensure, AsOf, StoredFor, Priced, OwnSteps;
      ghost var c, world := database.catalog, database.World();
      ghost var start := database.WithCall(pid, Some(BillEnrollment(tenant, enrollmentId)));
      if Inv(c, world) {
        BillingStartOk(c, world, tenant, enrollmentId);
        CallIsLawful(c, world, pid, BillEnrollment(tenant, enrollmentId));
      }
      Begin(c, world, pid, BillEnrollment(tenant, enrollmentId));

      var enrollment := enrollments.FindById(enrollmentId);
      BillEnrollmentEffect(c, world.db, world.now, tenant, enrollmentId);
      run := Take(c, start, [], world, database.World(), pid, BillEnrollment(tenant, enrollmentId), None);
      if enrollment.None? {
        return Err(NotFound("enrollment", enrollmentId)), run;
      }
      var doc := enrollment.value;
      if doc.status != Active {
        return Ok(None), run;
      }
      if doc.plan !in database.catalog.plans {
        return Err(NotFound("plan", doc.plan)), run;
      }
      var plan := database.catalog.plans[doc.plan];

      run := Pause(start, run, pid, BillClock(tenant, enrollmentId, doc));
      world := database.World();
      var due := ComputeBillingPeriod(plan.months, doc.startDate, doc.currentPeriod, AsOf(database.now));
      BillClockEffect(c, world.db, world.now, tenant, enrollmentId, doc);
      run := Take(c, start, run, world, database.World(), pid, BillClock(tenant, enrollmentId, doc), None);
      if due.None? {
        return Ok(None), run;
      }
      var period := due.value;

      run := Pause(start, run, pid, BillFind(tenant, enrollmentId, doc, period));
      var found;
      found, run := FindOrCreate(pid, enrollmentId, doc, period, start, run);
      if found.Err? {
        return Err(found.error), run;
      }
      var id := found.value;
      var invoice := invoices.FindById(id);

      ghost var k, foundRun := Continue(enrollmentId, doc, period), run;
      ghost var more;
      ghost var mid := database.WithCall(pid, Ensure(database.Contents(), tenant, id, k));
      StandsHere(c, start, run, database.World(), pid, Ensure(database.Contents(), tenant, id, k));
      var issued;
      issued, more := EnsureIssued(pid, id, invoice.value, k);
      Chain(c, start, run, mid, more, database.World(), pid, if issued.Ok? then Success(tenant, k) else None);
      run := run + more;
      if issued.Err? {
        return Err(issued.error), run;
      }
      ghost var issuedRun := run;
      StandsHere(c, start, run, database.World(), pid, Success(tenant, k));

      run := Pause(start, run, pid, AdvanceCursor(tenant, enrollmentId, doc.currentPeriod, period));
      world := database.World();
      if doc.currentPeriod.None? || Before(doc.currentPeriod.value.end, period.end) {
        enrollments.SetPeriod(enrollmentId, period);
      }
      CursorEffect(c, world.db, world.now, tenant, enrollmentId, doc.currentPeriod, period);
      run := Take(c, start, run, world, database.World(), pid, AdvanceCursor(tenant, enrollmentId, doc.currentPeriod, period), None);
      StandsHere(c, start, run, database.World(), pid, None);
      if Inv(c, start) {
        ReturnedIsStored(c, start, foundRun, issuedRun, run, tenant, enrollmentId, id, issued.value);
      }
      return Ok(Some(issued.value)), run;
    }

    /** One rung for an invoice the sweep listed at `listed`; the winner of the last rung freezes the
        enrollment the invoice bills. `climbed` says that this call won the rung. */
    method AdvanceDunning(pid: nat, id: Id, ghost listed: nat)
      returns (r: Result<Invoice, BillingError>, ghost climbed: bool, ghost run: seq<Action>)
      requires Valid() && pid !in database.calls
      modifies database
      ensures Stands(database.catalog, old(database.WithCall(pid, Some(DunFind(tenant, id, listed)))), run, database.World(), pid, None)
      ensures r.Ok? ==> r.value.tenant == tenant
      ensures climbed ==>
                && r.Ok? && 0 < r.value.dunningStage
                && if r.value.dunningStage >= 4 then r.value.status == Uncollectible && r.value.nextRetryAt.None?
                   else r.value.status == Open && r.value.nextRetryAt.Some? && r.value.nextRetryAt.value >= old(database.now) + 3 * DAY
      ensures climbed && r.value.dunningStage >= 4 && r.value.bill.enrollment.Some?
              && old(Inv(database.catalog, database.WithCall(pid, Some(DunFind(tenant, id, listed))))) ==>
                IsFrozen(database.Contents(), tenant, r.value.bill.enrollment.value)
    {
      hide Advance, Run, Stands, Inv, AdvanceDunningStep, Freeze, FindInvoice, FindEnrollment, IsFrozen, DbInv, ProcInv;
      climbed := false;
      ghost var c, world := database.catalog, database.World();
      ghost var start := database.WithCall(pid, Some(DunFind(tenant, id, listed)));
      Begin(c, world, pid, DunFind(tenant, id, listed));

      var found := invoices.FindById(id);
      DunFindEffect(c, world.db, world.now, tenant, id, listed);
      run := Take(c, start, [], world, database.World(), pid, DunFind(tenant, id, listed), None);
      if found.None? {
        return Err(NotFound("invoice", id)), false, run;
      }
      var invoice := found.value;
      FoundTenant(world.db, tenant, id);
      StandsHere(c, start, run, database.World(), pid, Some(DunClock(tenant, id, invoice)));
      ghost var foundRun := run;

      var at := database.now;
      DunClockEffect(c, world.db, world.now, tenant, id, invoice);
      run := Take(c, start, run, world, database.World(), pid, DunClock(tenant, id, invoice), None);
      if invoice.status != Open {
        return Ok(invoice), false, run;
      }
      if invoice.nextRetryAt.Some? && at < invoice.nextRetryAt.value {
        return Ok(invoice), false, run;
      }

      var enrollment: Option<Id> := None;
      if invoice.bill.enrollment.Some? {
        run := Pause(start, run, pid, DunEnrollment(tenant, id, invoice, at));
        StandsHere(c, start, run, database.World(), pid, Some(DunEnrollment(tenant, id, invoice, at)));
        if Inv(c, start) {
          InvoiceKept(c, start, foundRun, run, tenant, id);
          BilledExists(c, start, run, tenant, id);
        }
        world := database.World();
        var doc := enrollments.FindById(invoice.bill.enrollment.value);
        DunEnrollmentEffect(c, world.db, world.now, tenant, id, invoice, at);
        run := Take(c, start, run, world, database.World(), pid, DunEnrollment(tenant, id, invoice, at), None);
        if doc.Some? && doc.value.member != invoice.bill.member {
          return Err(WrongMember), false, run;
        }
        if doc.Some? {
          enrollment := invoice.bill.enrollment;
        }
      }

      var after;
      StandsHere(c, start, run, database.World(), pid, Some(DunStep(tenant, id, invoice, at, enrollment)));
      after, climbed, run := Climb(pid, id, invoice, at, enrollment, start, foundRun, run);
      return Ok(after), climbed, run;
    }

    /** The compare-and-swap on the stage, and the freeze that follows the last rung. */
    method Climb(pid: nat, id: Id, invoice: Invoice, at: nat, enrollment: Option<Id>, ghost start: State, ghost foundRun: seq<Action>, ghost done: seq<Action>)
      returns (after: Invoice, ghost climbed: bool, ghost run: seq<Action>)
      requires Valid() && Stands(database.catalog, start, done, database.World(), pid, Some(DunStep(tenant, id, invoice, at, enrollment)))
      requires foundRun <= done && FindInvoice(Run(database.catalog, start, foundRun).db, tenant, id) == Some(invoice) && invoice.tenant == tenant
      requires enrollment.Some? ==> FindEnrollment(database.Contents(), tenant, enrollment.value).Some?
      modifies database
      ensures Stands(database.catalog, start, run, database.World(), pid, None) && after.tenant == tenant
      ensures climbed ==>
                && after.dunningStage == invoice.dunningStage + 1
                && if after.dunningStage >= 4 then after.status == Uncollectible && after.nextRetryAt.None?
                   else after.status == Open && after.nextRetryAt == Some(at + 3 * DAY)
      ensures climbed && after.dunningStage >= 4 && enrollment.Some? && Inv(database.catalog, start) ==>
                IsFrozen(database.Contents(), tenant, enrollment.value)
      ensures climbed && Inv(database.catalog, start) ==> after.bill == invoice.bill
    {
      hide Advance, Run, Stands, Inv, AdvanceDunningStep, Freeze, FindInvoice, FindEnrollment, DbInv, ProcInv;
      ghost var c := database.catalog;
      StandsHere(c, start, done, database.World(), pid, Some(DunStep(tenant, id, invoice, at, enrollment)));
      run := Pause(start, done, pid, DunStep(tenant, id, invoice, at, enrollment));
      StandsHere(c, start, run, database.World(), pid, Some(DunStep(tenant, id, invoice, at, enrollment)));
      if Inv(c, start) { InvoiceKept(c, start, foundRun, run, tenant, id); }
      ghost var world := database.World();
      var stepped := invoices.AdvanceStep(id, invoice.dunningStage, at);
      StepKeepsTenant(world.db, tenant, id, invoice.dunningStage, at);
      RungClimbs(world.db, tenant, id, invoice.dunningStage, at);
      DunStepEffect(c, world.db, world.now, tenant, id, invoice, at, enrollment);
      if stepped.Some? {
        database.log := database.log + [Rung(id, invoice.dunningStage, at)];
        assert database.burnt + {} == database.burnt;
      }
      run := Take(c, start, run, world, database.World(), pid, DunStep(tenant, id, invoice, at, enrollment), None);
      if stepped.None? {
        var current := invoices.FindById(id);
        FoundTenant(database.Contents(), tenant, id);
        return if current.Some? then current.value else invoice, false, run;
      }

      if invoice.dunningStage + 1 >= SUSPEND_STAGE && enrollment.Some? {
        run := Suspend(pid, id, at, enrollment.value, start, done, run);
      }
      return stepped.value, true, run;
    }

    method Suspend(pid: nat, id: Id, at: nat, enrollment: Id, ghost start: State, ghost earlier: seq<Action>, ghost done: seq<Action>) returns (ghost run: seq<Action>)
      requires Valid() && Stands(database.catalog, start, done, database.World(), pid, Some(DunFreeze(tenant, id, at, enrollment)))
      requires earlier <= done && FindEnrollment(Run(database.catalog, start, earlier).db, tenant, enrollment).Some?
      modifies database
      ensures Stands(database.catalog, start, run, database.World(), pid, None)
      ensures Inv(database.catalog, start) ==> IsFrozen(database.Contents(), tenant, enrollment)
    {
      hide Advance, Run, Stands, Inv, Freeze, FindEnrollment;
      ghost var c := database.catalog;
      run := Pause(start, done, pid, DunFreeze(tenant, id, at, enrollment));
      StandsHere(c, start, run, database.World(), pid, Some(DunFreeze(tenant, id, at, enrollment)));
      if Inv(c, start) {
        EnrollmentKept(c, start, earlier, run, tenant, enrollment);
        FreezeFreezes(database.Contents(), tenant, enrollment);
      }
      ghost var world := database.World();
      enrollments.SetFrozen(enrollment);
      DunFreezeEffect(c, world.db, world.now, tenant, id, at, enrollment);
      database.log := database.log + [Froze(enrollment, id, at)];
      assert database.burnt + {} == database.burnt;
      run := Take(c, start, run, world, database.World(), pid, DunFreeze(tenant, id, at, enrollment), None);
    }

    /** Record a payment attempt once per idempotency key, and mark the invoice paid when it succeeded.
        `recorded` says that this call stored the attempt; a replayed key stores nothing and returns the
        attempt stored before. */
    method RecordPaymentResult(pid: nat, id: Id, result: Payment, key: string)
      returns (r: Result<Payment, BillingError>, ghost recorded: bool, ghost run: seq<Action>)
      requires Valid() && pid !in database.calls && result.invoice == id
      modifies database
      ensures Stands(database.catalog, old(database.WithCall(pid, Some(PayFind(tenant, id, result, key)))), run, database.World(), pid, None)
      ensures r.Ok? ==> r.value.invoice == id && (recorded ==> r.value == result)
      ensures (var found := old(FindInvoice(database.Contents(), tenant, id));
               if found.None? then r == Err(NotFound("invoice", id)) && database.World() == old(database.World())
               else if found.value.bill.totals.total.currency != result.amount.currency then r == Err(WrongCurrency) && database.World() == old(database.World())
               else r.Ok? || (r == Err(Refused(DuplicatePaymentKey)) && (tenant, key) in database.payments))
      ensures old(Inv(database.catalog, database.World())) ==>
                && (r.Ok? ==> (tenant, key) in database.payments && database.payments[(tenant, key)] == r.value)
                && (r.Ok? && recorded && result.status == Succeeded ==> PaidNow(database.Contents(), tenant, id, database.now))
                && (old((tenant, key) in database.payments) ==> !recorded)
    {
      hide Advance, Run, Stands, Inv, ProcInv, MarkPaid, DbEvolves, FindInvoice;
      recorded := false;
      ghost var c, world := database.catalog, database.World();
      ghost var start := database.WithCall(pid, Some(PayFind(tenant, id, result, key)));
      if Inv(c, world) {
        PaymentStartOk(c, world, tenant, id, result, key);
        CallIsLawful(c, world, pid, PayFind(tenant, id, result, key));
      }
      Begin(c, world, pid, PayFind(tenant, id, result, key));
      StandsHere(c, start, [], world, pid, Some(PayFind(tenant, id, result, key)));

      var invoice := invoices.FindById(id);
      PayFindEffect(c, world.db, world.now, tenant, id, result, key);
      run := Take(c, start, [], world, database.World(), pid, PayFind(tenant, id, result, key), None);
      if invoice.None? {
        return Err(NotFound("invoice", id)), false, run;
      }
      if result.amount.currency != invoice.value.bill.totals.total.currency {
        return Err(WrongCurrency), false, run;
      }
      StandsHere(c, start, run, database.World(), pid, Some(PayList(tenant, id, result, key)));
      ghost var foundRun := run;

      run := Pause(start, run, pid, PayList(tenant, id, result, key));
      world := database.World();
      var duplicate := payments.FindDuplicate(id, key);
      PayListEffect(c, world.db, world.now, tenant, id, result, key);
      run := Take(c, start, run, world, database.World(), pid, PayList(tenant, id, result, key), None);
      if duplicate.Some? {
        return Ok(duplicate.value), false, run;
      }

      run := Pause(start, run, pid, PayCreate(tenant, id, result, key));
      StandsHere(c, start, run, database.World(), pid, Some(PayCreate(tenant, id, result, key)));
      if Inv(c, start) { PaymentKept(c, start, [], run, tenant, key); }
      world := database.World();
      var error := payments.Create(key, result);
      PayCreateEffect(c, world.db, world.now, tenant, id, result, key);
      run := Take(c, start, run, world, database.World(), pid, PayCreate(tenant, id, result, key), None);
      if error.Some? {
        return Err(Refused(error.value)), false, run;
      }
      recorded := true;

      if result.status == Succeeded {
        run := MarkSucceeded(pid, id, result, key, start, foundRun, run);
      }
      return Ok(result), recorded, run;
    }

    /** The invoice of a recorded success is marked paid. */
    method MarkSucceeded(pid: nat, id: Id, ghost result: Payment, ghost key: string, ghost start: State, ghost foundRun: seq<Action>, ghost done: seq<Action>)
      returns (ghost run: seq<Action>)
      requires Valid() && Stands(database.catalog, start, done, database.World(), pid, Some(PayMark(tenant, id)))
      requires foundRun <= done && FindInvoice(Run(database.catalog, start, foundRun).db, tenant, id).Some?
      requires (tenant, key) in database.payments && database.payments[(tenant, key)] == result
      modifies database
      ensures Stands(database.catalog, start, run, database.World(), pid, None)
      ensures Inv(database.catalog, start) ==>
                && (tenant, key) in database.payments && database.payments[(tenant, key)] == result
                && PaidNow(database.Contents(), tenant, id, database.now)
    {
      hide Advance, Run, Stands, Inv, ProcInv, MarkPaid, DbEvolves, FindInvoice;
      ghost var c := database.catalog;
      StandsHere(c, start, done, database.World(), pid, Some(PayMark(tenant, id)));
      run := Pause(start, done, pid, PayMark(tenant, id));
      StandsHere(c, start, run, database.World(), pid, Some(PayMark(tenant, id)));
      if Inv(c, start) {
        PaymentKept(c, start, done, run, tenant, key);
        InvoiceKept(c, start, foundRun, run, tenant, id);
      }
      ghost var world := database.World();
      invoices.SetPaid(id, database.now);
      PayMarkEffect(c, world.db, world.now, tenant, id);
      MarkedPaid(world.db, tenant, id, world.now);
      run := Take(c, start, run, world, database.World(), pid, PayMark(tenant, id), None);
    }
  }
}
