/** Whole runs of the billing protocol: any number of processes, any interleaving, any crashes. */
module BillingRuns {
  import opened Outcomes
  import opened Calendar
  import opened BillingStore
  import opened BillingMachine
  import opened BillingInvariant
  import opened BillingSteps

  ghost predicate Inv(c: Catalog, s: State) {
    && DbInv(c, s.db, s.now)
    && forall pid :: pid in s.procs ==> ProcInv(c, s.db, s.now, s.log, s.procs[pid])
  }

  /** What no run undoes: documents evolve lawfully, time and the history only grow. */
  predicate Evolves(a: State, b: State) {
    DbEvolves(a.db, b.db) && a.now <= b.now && a.log <= b.log
  }

  lemma ProcsStable(c: Catalog, s: State, db: Db, now: nat, log: seq<Event>)
    requires Inv(c, s) && DbEvolves(s.db, db) && s.now <= now && s.log <= log
    ensures forall pid :: pid in s.procs ==> ProcInv(c, db, now, log, s.procs[pid])
  {
    hide DbInv, ProcInv, DbEvolves;
    forall pid | pid in s.procs ensures ProcInv(c, db, now, log, s.procs[pid]) {
      ProcStable(c, s.db, db, s.now, now, s.log, log, s.procs[pid]);
    }
  }

  lemma ApplyKeeps(c: Catalog, s: State, pid: nat, e: Effect)
    requires Inv(c, s) && pid in s.procs && KeepsDb(c, s.db, s.now, e)
    requires e.next.Some? ==> ProcInv(c, e.db, s.now, s.log + e.events, e.next.value)
    ensures Inv(c, Apply(s, pid, e)) && Evolves(s, Apply(s, pid, e))
  {
    hide DbInv, ProcInv, DbEvolves;
    ProcsStable(c, s, e.db, s.now, s.log + e.events);
  }

  lemma StartedKeeps(c: Catalog, s: State, pid: nat, p: Proc)
    requires Inv(c, s) && ProcInv(c, s.db, s.now, s.log, p)
    ensures Inv(c, Started(s, pid, p)) && Evolves(s, Started(s, pid, p))
  {
    hide DbInv, ProcInv, DbEvolves;
    EvolvesReflexive(s.db);
  }

  lemma ListedOk(c: Catalog, s: State, t: Id, id: Id, listed: nat)
    requires Inv(c, s) && listed <= s.now && FindInvoice(s.db, t, id).Some? && Dunnable(s.db.invoices[id], listed)
    ensures ProcInv(c, s.db, s.now, s.log, DunFind(t, id, listed))
  {
  }

  /** Every step of every process, every start, crash, tick and new enrollment. */
  lemma StepKeeps(c: Catalog, s: State, a: Action)
    requires Inv(c, s)
    ensures Inv(c, Step(c, s, a)) && Evolves(s, Step(c, s, a))
  {
    hide DbInv, DbEvolves, IssueInv, BillingInv, DunningInv, Advance;
    EvolvesReflexive(s.db);
    match a
    case StartIssue(pid, t, id) => IssueStartOk(c, s, t, id); StartedKeeps(c, s, pid, IssueFind(t, id, Done));
    case StartAdHoc(pid, t, e) => StartedKeeps(c, s, pid, AdHocEnrollment(t, e));
    case StartBilling(pid, t, e) => BillingStartOk(c, s, t, e); StartedKeeps(c, s, pid, BillEnrollment(t, e));
    case StartDunning(pid, t, id, listed) =>
      if listed <= s.now && FindInvoice(s.db, t, id).Some? && Dunnable(s.db.invoices[id], listed) {
        ListedOk(c, s, t, id, listed);
        StartedKeeps(c, s, pid, DunFind(t, id, listed));
      }
    case StartPayment(pid, t, id, payment, key) => StartedKeeps(c, s, pid, PayFind(t, id, payment.(invoice := id), key));
    case Next(pid, pick) =>
      if pid in s.procs {
        AdvanceKeeps(c, s.db, s.now, s.log, s.procs[pid], pick);
        ApplyKeeps(c, s, pid, Advance(c, s.db, s.now, s.procs[pid], pick));
      }
    case Crash(pid) =>
      if pid in s.procs { ApplyKeeps(c, s, pid, Effect(s.db, None, HeldBy(s.procs[pid]), [])); }
    case Tick(to) =>
      if s.now <= to {
        LaterIsFine(c, s.db, s.now, to);
        ProcsStable(c, s, s.db, to, s.log);
      }
    case NewEnrollment(id, doc) =>
      if id !in s.db.enrollments && Valid(doc.startDate) && doc.currentPeriod.None? {
        NewEnrollmentKeeps(c, s.db, s.now, id, doc);
        ProcsStable(c, s, s.db.(enrollments := s.db.enrollments[id := doc]), s.now, s.log);
      }
  }

  lemma IssueStartOk(c: Catalog, s: State, t: Id, id: Id)
    ensures ProcInv(c, s.db, s.now, s.log, IssueFind(t, id, Done))
  {
  }

  lemma BillingStartOk(c: Catalog, s: State, t: Id, e: Id)
    ensures ProcInv(c, s.db, s.now, s.log, BillEnrollment(t, e))
  {
  }

  /** The invariant holds throughout every run, and nothing the run has settled is undone later. */
  lemma {:induction false} RunKeeps(c: Catalog, s: State, actions: seq<Action>)
    requires Inv(c, s)
    ensures Inv(c, Run(c, s, actions)) && Evolves(s, Run(c, s, actions))
  {
    hide Inv, DbEvolves, Step;
    if actions == [] {
      EvolvesReflexive(s.db);
    } else {
      var before := Run(c, s, actions[..|actions| - 1]);
      RunKeeps(c, s, actions[..|actions| - 1]);
      StepKeeps(c, before, actions[|actions| - 1]);
      DbEvolvesTransitive(s.db, before.db, Run(c, s, actions).db);
    }
  }

  lemma InitialInv(c: Catalog)
    ensures Inv(c, INITIAL)
  {
  }

  lemma Reachable(c: Catalog, actions: seq<Action>)
    ensures Inv(c, Run(c, INITIAL, actions))
  {
    InitialInv(c);
    RunKeeps(c, INITIAL, actions);
  }

  lemma {:induction false} RunAppend(c: Catalog, s: State, a: seq<Action>, b: seq<Action>)
    ensures Run(c, s, a + b) == Run(c, Run(c, s, a), b)
    decreases |b|
  {
    if b == [] {
      assert a + b == a;
    } else {
      RunAppend(c, s, a, b[..|b| - 1]);
      assert (a + b)[..|a + b| - 1] == a + b[..|b| - 1];
    }
  }

  // ---- Tiling: no gap, no overlap, no double billing ----

  function InvoicesOf(db: Db, e: Id): set<Id> {
    set id | id in db.invoices && db.invoices[id].bill.enrollment == Some(e)
  }

  /** The invoices of enrollment e are exactly one for each of the first n periods of its chain. */
  ghost predicate Tiles(c: Catalog, db: Db, e: Id, n: nat) {
    && (forall k: nat :: PeriodBilled(c, db, e, k) <==> k < n)
    && (forall id :: id in InvoicesOf(db, e) ==> exists k: nat :: k < n && Covers(c, db, e, k, id))
    && (forall k: nat, a, b :: Covers(c, db, e, k, a) && Covers(c, db, e, k, b) ==> a == b)
  }

  /** An invoice bills one period only. */
  lemma CoversOnePeriod(c: Catalog, db: Db, e: Id, j: nat, k: nat, id: Id)
    requires Covers(c, db, e, j, id) && Covers(c, db, e, k, id)
    ensures j == k
  {
    BoundaryInjective(db.enrollments[e].startDate, c.plans[db.enrollments[e].plan].months, j, k);
  }

  lemma {:induction false} DistinctInvoices(c: Catalog, db: Db, e: Id, m: nat) returns (picked: set<Id>)
    requires forall k: nat :: k < m ==> PeriodBilled(c, db, e, k)
    ensures |picked| == m && picked <= InvoicesOf(db, e)
    ensures forall id :: id in picked ==> exists k: nat :: k < m && Covers(c, db, e, k, id)
  {
    if m == 0 {
      picked := {};
    } else {
      var rest := DistinctInvoices(c, db, e, m - 1);
      assert PeriodBilled(c, db, e, m - 1);
      var id :| Covers(c, db, e, m - 1, id);
      if id in rest {
        var k: nat :| k < m - 1 && Covers(c, db, e, k, id);
        CoversOnePeriod(c, db, e, k, m - 1, id);
      }
      picked := rest + {id};
    }
  }

  lemma {:induction false} FirstUnbilled(c: Catalog, db: Db, e: Id, m: nat) returns (n: nat)
    requires forall k: nat :: k < m ==> PeriodBilled(c, db, e, k)
    ensures m <= n && !PeriodBilled(c, db, e, n) && forall k: nat :: k < n ==> PeriodBilled(c, db, e, k)
    decreases |InvoicesOf(db, e)| + 1 - m
  {
    var picked := DistinctInvoices(c, db, e, m);
    SubsetSize(picked, InvoicesOf(db, e));
    if PeriodBilled(c, db, e, m) {
      var more := DistinctInvoices(c, db, e, m + 1);
      SubsetSize(more, InvoicesOf(db, e));
      n := FirstUnbilled(c, db, e, m + 1);
    } else {
      n := m;
    }
  }

  lemma SubsetSize<T>(a: set<T>, b: set<T>)
    requires a <= b
    ensures |a| <= |b|
  {
    assert b == a + (b - a);
  }

  /** For every run: the recurring invoices of an enrollment are exactly the first n periods of its
      chain, one invoice each, and its cursor is on the chain with everything before it issued. */
  lemma Tiling(c: Catalog, actions: seq<Action>, e: Id) returns (n: nat, j: nat)
    requires var db := Run(c, INITIAL, actions).db; e in db.enrollments && HasChain(c, db.enrollments[e])
    ensures var db := Run(c, INITIAL, actions).db;
            Tiles(c, db, e, n) && j <= n && OnChain(c, db, e, db.enrollments[e].currentPeriod, j)
  {
    var s := Run(c, INITIAL, actions);
    Reachable(c, actions);
    n := FirstUnbilled(c, s.db, e, 0);
    forall k: nat | PeriodBilled(c, s.db, e, k) ensures k < n {
      assert n < k ==> PeriodBilled(c, s.db, e, n);
    }
    forall id | id in InvoicesOf(s.db, e) ensures exists k: nat :: k < n && Covers(c, s.db, e, k, id) {
      assert Linked(c, s.db, id);
      var k: nat :| Covers(c, s.db, e, k, id);
      assert PeriodBilled(c, s.db, e, k);
    }
    assert EnrollmentOk(c, s.db, e);
    j :| OnChain(c, s.db, e, s.db.enrollments[e].currentPeriod, j);
    assert n < j ==> PeriodIssued(c, s.db, e, n);
  }

  /** Read off the dates: two different invoices of one enrollment never cover a common day, and an
      enrollment without a billing chain has none. */
  lemma NoDoubleBilling(c: Catalog, actions: seq<Action>, a: Id, b: Id)
    requires var db := Run(c, INITIAL, actions).db;
             a in db.invoices && b in db.invoices && a != b
             && db.invoices[a].bill.enrollment.Some? && db.invoices[a].bill.enrollment == db.invoices[b].bill.enrollment
    ensures var db := Run(c, INITIAL, actions).db;
            db.invoices[a].bill.period.Some? && db.invoices[b].bill.period.Some?
            && var p, q := db.invoices[a].bill.period.value, db.invoices[b].bill.period.value;
               Before(p.start, p.end) && Before(q.start, q.end)
               && (!Before(q.start, p.end) || !Before(p.start, q.end))
  {
    var s := Run(c, INITIAL, actions);
    Reachable(c, actions);
    var e := s.db.invoices[a].bill.enrollment.value;
    assert Linked(c, s.db, a) && Linked(c, s.db, b);
    var i: nat :| Covers(c, s.db, e, i, a);
    var k: nat :| Covers(c, s.db, e, k, b);
    assert i != k;
    hide Boundary, Run, Inv;
    PeriodsApart(c, s.db.enrollments[e], i, k);
  }

  lemma PeriodsApart(c: Catalog, doc: Enrollment, i: nat, k: nat)
    requires HasChain(c, doc) && i != k
    ensures var p, q := PeriodAt(c, doc, i), PeriodAt(c, doc, k);
            Before(p.start, p.end) && Before(q.start, q.end)
            && (!Before(q.start, p.end) || !Before(p.start, q.end))
  {
    hide Boundary;
    var start, months := doc.startDate, c.plans[doc.plan].months;
    BoundaryInjective(start, months, i, i + 1);
    BoundaryInjective(start, months, k, k + 1);
    BoundaryInjective(start, months, k, i + 1);
    BoundaryInjective(start, months, i, k + 1);
  }

  /** A settled period stays settled: what a run has issued below its cursor no later run unissues. */
  lemma IssuedForGood(c: Catalog, actions: seq<Action>, more: seq<Action>, e: Id, k: nat)
    requires PeriodIssued(c, Run(c, INITIAL, actions).db, e, k)
    ensures PeriodIssued(c, Run(c, INITIAL, actions + more).db, e, k)
  {
    Reachable(c, actions);
    RunAppend(c, INITIAL, actions, more);
    RunKeeps(c, Run(c, INITIAL, actions), more);
    IssuedStable(c, Run(c, INITIAL, actions).db, Run(c, INITIAL, actions + more).db, e, k);
  }

  // ---- What is billed ----

  /** In every run, every invoice of an enrollment bills its member one unit of the enrollment's plan: one line
      at the plan's own price, with VAT at the rate of the plan's rate document. Every other invoice bills one
      unit of some plan. */
  lemma BilledAtPlanPrice(c: Catalog, actions: seq<Action>, id: Id)
    requires id in Run(c, INITIAL, actions).db.invoices
    ensures var db := Run(c, INITIAL, actions).db;
            match db.invoices[id].bill.enrollment
            case Some(e) =>
              && e in db.enrollments && db.invoices[id].bill.member == db.enrollments[e].member
              && db.enrollments[e].plan in c.plans && UnitBill(c, c.plans[db.enrollments[e].plan], db.invoices[id].bill)
            case None => exists plan :: plan in c.plans && UnitBill(c, c.plans[plan], db.invoices[id].bill)
  {
    hide Run, UnitBill;
    Reachable(c, actions);
    assert Linked(c, Run(c, INITIAL, actions).db, id);
  }

  // ---- The life of an invoice ----

  /** In every run, at any two moments: an invoice keeps its bill, never returns to draft, never changes
      its number once it has one; a paid invoice stays paid and dunning leaves it alone; an open
      invoice is numbered and on a rung below the last; an uncollectible one has climbed all four. */
  lemma InvoiceLife(c: Catalog, actions: seq<Action>, more: seq<Action>, id: Id)
    requires id in Run(c, INITIAL, actions).db.invoices
    ensures id in Run(c, INITIAL, actions + more).db.invoices
    ensures var x, y := Run(c, INITIAL, actions).db.invoices[id], Run(c, INITIAL, actions + more).db.invoices[id];
            && y.bill == x.bill
            && (y.status == Draft ==> x.status == Draft)
            && (x.number.Some? ==> y.number == x.number)
            && (x.status == Paid ==> y == x.(paidAt := y.paidAt))
            && (y.status == Open ==> y.number.Some? && 0 <= y.dunningStage < SUSPEND_STAGE)
            && (y.status == Uncollectible ==> y.number.Some? && y.dunningStage == SUSPEND_STAGE)
            && y.status != Void
  {
    Reachable(c, actions);
    RunAppend(c, INITIAL, actions, more);
    RunKeeps(c, Run(c, INITIAL, actions), more);
    assert Lifecycle(Run(c, INITIAL, actions + more).db.invoices[id], Run(c, INITIAL, actions + more).now);
  }

  // ---- The cursor write ----

  /** When a billing run writes the cursor, it sets it just after the period it worked on, wherever the
      cursor is by then. So the write moves the stored cursor back exactly when the stored cursor has
      advanced by two periods or more since this run read it. */
  lemma CursorWriteDirection(c: Catalog, s: State, p: Proc, i: nat, j: nat)
    requires Inv(c, s) && p.AdvanceCursor? && ProcInv(c, s.db, s.now, s.log, p)
    requires OnChain(c, s.db, p.enrollment, p.seen, j)
    requires OnChain(c, s.db, p.enrollment, s.db.enrollments[p.enrollment].currentPeriod, i)
    ensures p.enrollment in AdvanceBilling(c, s.db, s.now, p, None).db.enrollments
    ensures var after := AdvanceBilling(c, s.db, s.now, p, None).db.enrollments[p.enrollment].currentPeriod;
            && after == Some(PeriodAt(c, s.db.enrollments[p.enrollment], j))
            && var was := s.db.enrollments[p.enrollment].currentPeriod;
               (was.Some? && Before(after.value.end, was.value.end)) <==> i > j + 1
  {
    hide Boundary, AdvanceBilling, Inv, DbInv, IssuedBelow, Valid, Before, NextPeriod;
    CursorWriteLands(c, s.db, s.now, p, j);
    hide ProcInv, BillingInv, HasChain;
    var doc := s.db.enrollments[p.enrollment];
    if i > 0 { BoundaryInjective(doc.startDate, c.plans[doc.plan].months, j + 1, i); }
  }

  lemma CursorWriteLands(c: Catalog, db: Db, now: nat, p: Proc, j: nat)
    requires p.AdvanceCursor? && BillingInv(c, db, p) && OnChain(c, db, p.enrollment, p.seen, j)
    ensures AdvanceBilling(c, db, now, p, None)
         == Quiet(SetCurrentPeriod(db, p.tenant, p.enrollment, PeriodAt(c, db.enrollments[p.enrollment], j)), None)
    ensures FindEnrollment(db, p.tenant, p.enrollment).Some?
  {
    hide Boundary, IssuedBelow;
    var k: nat :| NextPeriod(c, db, p.enrollment, p.seen, p.period, k) && PeriodIssued(c, db, p.enrollment, k);
    OneCursorIndex(c, db, p.enrollment, p.seen, j, k);
    var doc := db.enrollments[p.enrollment];
    BoundaryInjective(doc.startDate, c.plans[doc.plan].months, j, j + 1);
  }

  lemma OneCursorIndex(c: Catalog, db: Db, e: Id, cur: Option<Period>, j: nat, k: nat)
    requires OnChain(c, db, e, cur, j) && OnChain(c, db, e, cur, k)
    ensures j == k
  {
    var doc := db.enrollments[e];
    if j > 0 && k > 0 { BoundaryInjective(doc.startDate, c.plans[doc.plan].months, j - 1, k - 1); }
  }
}
