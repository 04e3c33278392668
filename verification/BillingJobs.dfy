/** The billing sweep of one tenant: list the enrollments that may be due, and bill each of them once,
    whatever fails. */
module BillingJobs {
  import opened Outcomes
  import opened Calendar
  import opened BillingStore
  import opened BillingMachine
  import opened BillingInvariant
  import opened BillingRuns
  import opened BillingDatabase
  import opened BillingCalls
  import opened BillingService

  /** The listing's filter, in the database's own terms. */
  predicate Listed(doc: Enrollment, asOf: Date) {
    && doc.status == Active
    && !Before(asOf, doc.startDate)
    && (doc.currentPeriod.None? || !Before(asOf, doc.currentPeriod.value.end))
  }

  /** The coarse filter misses nothing and lists nothing in vain: on a chain, an active enrollment is
      listed exactly when the billing call would find a period to bill. */
  lemma ListedIffDue(c: Catalog, db: Db, now: nat, e: Id, asOf: Date)
    requires DbInv(c, db, now) && e in db.enrollments && HasChain(c, db.enrollments[e]) && Valid(asOf)
    ensures var doc := db.enrollments[e];
            Listed(doc, asOf) <==>
              doc.status == Active
              && ComputeBillingPeriod(c.plans[doc.plan].months, doc.startDate, doc.currentPeriod, asOf).Some?
  {
    var doc := db.enrollments[e];
    assert EnrollmentOk(c, db, e);
    var j: nat :| OnChain(c, db, e, doc.currentPeriod, j);
    hide DbInv, Boundary;
    if j > 0 {
      BoundaryIncreases(doc.startDate, c.plans[doc.plan].months, 0, j);
      assert Boundary(doc.startDate, c.plans[doc.plan].months, 0) == doc.startDate by { FirstBoundary(doc.startDate, c.plans[doc.plan].months); }
    }
  }

  lemma FirstBoundary(start: Date, months: nat)
    requires Valid(start)
    ensures Boundary(start, months, 0) == start
  {
  }

  /** The tenant's enrollments that pass the filter, each once, the earliest start date first. */
  ghost predicate ExactlyListed(db: Db, tenant: Id, asOf: Date, due: seq<Id>) {
    && (forall id :: id in due <==> id in db.enrollments && db.enrollments[id].tenant == tenant && Listed(db.enrollments[id], asOf))
    && (forall i, j :: 0 <= i < j < |due| ==> due[i] != due[j])
    && InOrder(db.enrollments, due)
  }

  predicate NotLater(enrollments: map<Id, Enrollment>, a: Id, b: Id) {
    a in enrollments && b in enrollments && !Before(enrollments[b].startDate, enrollments[a].startDate)
  }

  predicate InOrder(enrollments: map<Id, Enrollment>, ids: seq<Id>) {
    forall i, j :: 0 <= i < j < |ids| ==> NotLater(enrollments, ids[i], ids[j])
  }

  predicate AllNotLater(enrollments: map<Id, Enrollment>, ids: seq<Id>, o: Id) {
    forall i :: 0 <= i < |ids| ==> NotLater(enrollments, ids[i], o)
  }

  /** No other of the ids starts before this one. */
  predicate StartsFirst(enrollments: map<Id, Enrollment>, ids: set<Id>, id: Id) {
    id in ids && forall o :: o in ids ==> NotLater(enrollments, id, o)
  }

  lemma {:induction false} SomeEarliest(enrollments: map<Id, Enrollment>, ids: set<Id>) returns (id: Id)
    requires ids != {} && ids <= enrollments.Keys
    ensures StartsFirst(enrollments, ids, id)
  {
    id :| id in ids;
    if ids != {id} {
      var rest := SomeEarliest(enrollments, ids - {id});
      var chosen := if Before(enrollments[id].startDate, enrollments[rest].startDate) then id else rest;
      forall o | o in ids ensures NotLater(enrollments, chosen, o) {
        if o != id { assert NotLater(enrollments, rest, o); }
      }
      id := chosen;
    }
  }

  lemma InOrderMore(enrollments: map<Id, Enrollment>, ids: seq<Id>, id: Id)
    requires InOrder(enrollments, ids) && AllNotLater(enrollments, ids, id)
    ensures InOrder(enrollments, ids + [id])
  {
    hide NotLater;
  }

  lemma FirstIsNotLater(enrollments: map<Id, Enrollment>, ids: set<Id>, id: Id, o: Id)
    requires StartsFirst(enrollments, ids, id) && o in ids
    ensures NotLater(enrollments, id, o)
  {
  }

  lemma NotLaterMore(enrollments: map<Id, Enrollment>, ids: seq<Id>, id: Id, o: Id)
    requires AllNotLater(enrollments, ids, o) && NotLater(enrollments, id, o)
    ensures AllNotLater(enrollments, ids + [id], o)
  {
    hide NotLater;
  }

  method ListDueForBilling(database: Database, tenant: Id, asOf: Date) returns (due: seq<Id>)
    ensures ExactlyListed(database.Contents(), tenant, asOf, due)
  {
    due := [];
    var rest := set id | id in database.enrollments && database.enrollments[id].tenant == tenant && Listed(database.enrollments[id], asOf);
    ghost var listed := rest;
    while rest != {}
      invariant rest <= listed && forall id :: id in due <==> id in listed && id !in rest
      invariant forall i, j :: 0 <= i < j < |due| ==> due[i] != due[j]
      invariant InOrder(database.enrollments, due)
      invariant forall o :: o in rest ==> AllNotLater(database.enrollments, due, o)
      decreases |rest|
    {
      ghost var first := SomeEarliest(database.enrollments, rest);
      var id :| id in rest && StartsFirst(database.enrollments, rest, id);
      InOrderMore(database.enrollments, due, id);
      forall o | o in rest && o != id ensures AllNotLater(database.enrollments, due + [id], o) {
        FirstIsNotLater(database.enrollments, rest, id, o);
        NotLaterMore(database.enrollments, due, id, o);
      }
      rest := rest - {id};
      due := due + [id];
    }
  }

  /** Each of the first n due enrollments was given its billing call, and none of the calls crashed. */
  predicate AllTried(pid: nat, tenant: Id, due: seq<Id>, n: nat, run: seq<Action>)
    requires n <= |due|
  {
    Crash(pid) !in run && forall i :: 0 <= i < n ==> StartBilling(pid, tenant, due[i]) in run
  }

  lemma TriedOneMore(pid: nat, tenant: Id, due: seq<Id>, n: nat, run: seq<Action>, more: seq<Action>)
    requires n < |due| && AllTried(pid, tenant, due, n, run) && StartBilling(pid, tenant, due[n]) in more && Crash(pid) !in more
    ensures AllTried(pid, tenant, due, n + 1, run + more)
  {
  }

  type Outcome = Result<Option<Invoice>, BillingError>

  /** How many of the calls returned an invoice, and how many threw. */
  function Issues(outcomes: seq<Outcome>): nat {
    if outcomes == [] then 0
    else Issues(outcomes[..|outcomes| - 1]) + (if outcomes[|outcomes| - 1].Ok? && outcomes[|outcomes| - 1].value.Some? then 1 else 0)
  }

  function Failures(outcomes: seq<Outcome>): nat {
    if outcomes == [] then 0
    else Failures(outcomes[..|outcomes| - 1]) + (if outcomes[|outcomes| - 1].Err? then 1 else 0)
  }

  /** The calls that returned no invoice because nothing was due. */
  function Idle(outcomes: seq<Outcome>): nat {
    if outcomes == [] then 0
    else Idle(outcomes[..|outcomes| - 1]) + (if outcomes[|outcomes| - 1].Ok? && outcomes[|outcomes| - 1].value.None? then 1 else 0)
  }

  lemma {:induction false} OutcomesAddUp(outcomes: seq<Outcome>)
    ensures Issues(outcomes) + Failures(outcomes) + Idle(outcomes) == |outcomes|
  {
    if outcomes != [] { OutcomesAddUp(outcomes[..|outcomes| - 1]); }
  }

  lemma OneOutcomeMore(outcomes: seq<Outcome>, x: Outcome)
    ensures Issues(outcomes + [x]) == Issues(outcomes) + if x.Ok? && x.value.Some? then 1 else 0
    ensures Failures(outcomes + [x]) == Failures(outcomes) + if x.Err? then 1 else 0
  {
    assert (outcomes + [x])[..|outcomes|] == outcomes;
  }

  /** Each returned invoice is issued, and is, but for what happened since, the stored invoice of its
      enrollment. */
  ghost predicate AllStored(db: Db, due: seq<Id>, outcomes: seq<Outcome>) {
    |outcomes| <= |due| && forall i :: 0 <= i < |outcomes| && outcomes[i].Ok? && outcomes[i].value.Some? ==>
      outcomes[i].value.value.status != Draft && StoredFor(db, due[i], outcomes[i].value.value)
  }

  lemma StoredStays(a: Db, b: Db, e: Id, returned: Invoice)
    requires DbEvolves(a, b) && StoredFor(a, e, returned)
    ensures StoredFor(b, e, returned)
  {
    var id :| id in a.invoices && InvoiceEvolves(returned, a.invoices[id]);
    InvoiceEvolvesTransitive(returned, a.invoices[id], b.invoices[id]);
  }

  lemma AllStoredMore(a: Db, b: Db, due: seq<Id>, outcomes: seq<Outcome>, x: Outcome)
    requires AllStored(a, due, outcomes) && DbEvolves(a, b) && |outcomes| < |due|
    requires x.Ok? && x.value.Some? ==> x.value.value.status != Draft && StoredFor(b, due[|outcomes|], x.value.value)
    ensures AllStored(b, due, outcomes + [x])
  {
    hide StoredFor, DbEvolves;
    forall i | 0 <= i < |outcomes| && outcomes[i].Ok? && outcomes[i].value.Some? ensures StoredFor(b, due[i], outcomes[i].value.value) {
      StoredStays(a, b, due[i], outcomes[i].value.value);
    }
  }

  lemma LawfulSoFar(c: Catalog, start: State, run: seq<Action>, more: seq<Action>)
    requires Inv(c, start)
    ensures Inv(c, Run(c, start, run)) && DbEvolves(Run(c, start, run).db, Run(c, start, run + more).db)
  {
    hide Run, Inv, DbEvolves;
    RunKeeps(c, start, run);
    RunAppend(c, start, run, more);
    RunKeeps(c, Run(c, start, run), more);
  }

  /** The sweep bills every listed enrollment's next period at most once and no failure stops it. It is a
      run of the step machine, so it keeps all that runs keep. Its counters are those of its calls. */
  method RunBillingForTenant(service: BillingService, pid: nat)
    returns (considered: nat, issued: nat, failed: nat, due: seq<Id>, ghost outcomes: seq<Outcome>, ghost run: seq<Action>)
    requires service.Valid() && pid !in service.database.calls
    modifies service.database
    ensures ExactlyListed(old(service.database.Contents()), service.tenant, AsOf(old(service.database.now)), due)
    ensures considered == |due| == |outcomes| && issued == Issues(outcomes) && failed == Failures(outcomes)
    ensures considered == issued + failed + Idle(outcomes)
    ensures AllTried(pid, service.tenant, due, |due|, run)
    ensures service.database.World() == Run(service.database.catalog, old(service.database.World()), run)
    ensures old(Inv(service.database.catalog, service.database.World())) ==>
              && Inv(service.database.catalog, service.database.World()) && Evolves(old(service.database.World()), service.database.World())
              && AllStored(service.database.Contents(), due, outcomes)
  {
    hide Run, Stands, Listed, AsOf, Inv, Evolves, Step, DbEvolves, StoredFor, AllStored, Issues, Failures, Idle;
    ghost var c, start := service.database.catalog, service.database.World();
    due := ListDueForBilling(service.database, service.tenant, AsOf(service.database.now));
    issued, failed := 0, 0;
    run, outcomes := [], [];
    EmptyRun(c, start);
    NothingYet(start.db, due);
    for i := 0 to |due|
      invariant pid !in service.database.calls && |outcomes| == i && issued == Issues(outcomes) && failed == Failures(outcomes)
      invariant Inv(c, start) ==> AllStored(service.database.Contents(), due, outcomes)
      invariant service.database.World() == Run(c, start, run)
      invariant AllTried(pid, service.tenant, due, i, run)
    {
      ghost var world := service.database.World();
      ghost var others := service.database.Await(pid, None);
      AwaitedIdle(c, start, run, world, service.database.World(), others, pid);
      world := service.database.World();
      if Inv(c, start) { LawfulSoFar(c, start, run + others, []); assert run + others + [] == run + others; }
      var outcome;
      ghost var call;
      outcome, call := service.BillRecurringForEnrollment(pid, due[i]);
      BillingStarts(c, world, pid, service.tenant, due[i]);
      ghost var whole := Finished(c, world, StartBilling(pid, service.tenant, due[i]), call, service.database.World(), pid,
                                  BillEnrollment(service.tenant, due[i]));
      RunAppend(c, start, run + others, whole);
      assert Crash(pid) !in others;
      assert StartBilling(pid, service.tenant, due[i]) in others + whole;
      TriedOneMore(pid, service.tenant, due, i, run, others + whole);
      assert run + others + whole == run + (others + whole);
      OneOutcomeMore(outcomes, outcome);
      if Inv(c, start) {
        LawfulSoFar(c, start, run, others + whole);
        AllStoredMore(Run(c, start, run).db, service.database.Contents(), due, outcomes, outcome);
      }
      outcomes := outcomes + [outcome];
      run := run + others + whole;
      if outcome.Err? {
        failed := failed + 1;
      } else if outcome.value.Some? {
        issued := issued + 1;
      }
    }
    considered := |due|;
    OutcomesAddUp(outcomes);
    if Inv(c, start) { RunKeeps(c, start, run); }
  }

  lemma BillingStarts(c: Catalog, s: State, pid: nat, t: Id, e: Id)
    requires pid !in s.procs
    ensures Step(c, s, StartBilling(pid, t, e)) == s.(procs := s.procs[pid := BillEnrollment(t, e)])
  {
  }

  lemma NothingYet(db: Db, due: seq<Id>)
    ensures AllStored(db, due, []) && Issues([]) == 0 && Failures([]) == 0
  {
  }

  lemma EmptyRun(c: Catalog, s: State)
    ensures Run(c, s, []) == s
  {
  }

  lemma AwaitedIdle(c: Catalog, start: State, run: seq<Action>, world: State, after: State, others: seq<Action>, pid: nat)
    requires world == Run(c, start, run) && pid !in world.procs && pid !in after.procs
    requires after.(procs := Settle(after.procs, pid, None)) == Run(c, world.(procs := Settle(world.procs, pid, None)), others)
    ensures after == Run(c, start, run + others)
  {
    RunAppend(c, start, run, others);
    assert Settle(after.procs, pid, None) == after.procs && Settle(world.procs, pid, None) == world.procs;
  }
}
