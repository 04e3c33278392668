/** The shared database as one object: its collections, the clock, and the other calls in progress, which
    may run whenever a call awaits the store. */
module BillingDatabase {
  import opened Outcomes
  import opened BillingStore
  import opened BillingMachine

  /** The action is not one of the call pid. */
  predicate Apart(pid: nat, a: Action) {
    a.Tick? || a.NewEnrollment? || a.pid != pid
  }

  predicate AllApart(pid: nat, actions: seq<Action>) {
    forall i :: 0 <= i < |actions| ==> Apart(pid, actions[i])
  }

  /** The other calls, and the call pid at point p when it is in progress. */
  function Joined(procs: map<nat, Proc>, pid: nat, p: Option<Proc>): map<nat, Proc> {
    if p.Some? then procs[pid := p.value] else procs
  }

  /** The state s seen with the call pid at point p, after an earlier history. */
  function Embed(s: State, pid: nat, p: Option<Proc>, burnt: set<Slot>, log: seq<Event>): State {
    State(s.db, s.now, Joined(s.procs, pid, p), burnt + s.burnt, log + s.log)
  }

  lemma SettleApart(procs: map<nat, Proc>, pid: nat, p: Option<Proc>, other: nat, next: Option<Proc>)
    requires other != pid && pid !in procs
    ensures Settle(Joined(procs, pid, p), other, next) == Joined(Settle(procs, other, next), pid, p)
    ensures pid !in Settle(procs, other, next)
  {
  }

  lemma StartedEmbeds(s: State, pid: nat, p: Option<Proc>, burnt: set<Slot>, log: seq<Event>, other: nat, q: Proc)
    requires pid !in s.procs && other != pid
    ensures pid !in Started(s, other, q).procs
    ensures Started(Embed(s, pid, p, burnt, log), other, q) == Embed(Started(s, other, q), pid, p, burnt, log)
  {
    assert other in Joined(s.procs, pid, p) <==> other in s.procs;
    assert Joined(s.procs, pid, p)[other := q] == Joined(s.procs[other := q], pid, p);
  }

  lemma ApplyEmbeds(s: State, pid: nat, p: Option<Proc>, burnt: set<Slot>, log: seq<Event>, other: nat, e: Effect)
    requires pid !in s.procs && other != pid
    ensures pid !in Apply(s, other, e).procs
    ensures Apply(Embed(s, pid, p, burnt, log), other, e) == Embed(Apply(s, other, e), pid, p, burnt, log)
  {
    hide Settle;
    SettleApart(s.procs, pid, p, other, e.next);
  }

  lemma StepEmbeds(c: Catalog, s: State, pid: nat, p: Option<Proc>, burnt: set<Slot>, log: seq<Event>, a: Action)
    requires pid !in s.procs && Apart(pid, a)
    ensures pid !in Step(c, s, a).procs
    ensures Step(c, Embed(s, pid, p, burnt, log), a) == Embed(Step(c, s, a), pid, p, burnt, log)
  {
    hide Advance, Apply, Started, HeldBy;
    match a
    case StartIssue(other, t, id) => StartedEmbeds(s, pid, p, burnt, log, other, IssueFind(t, id, Done));
    case StartAdHoc(other, t, e) => StartedEmbeds(s, pid, p, burnt, log, other, AdHocEnrollment(t, e));
    case StartBilling(other, t, e) => StartedEmbeds(s, pid, p, burnt, log, other, BillEnrollment(t, e));
    case StartDunning(other, t, id, listed) => StartedEmbeds(s, pid, p, burnt, log, other, DunFind(t, id, listed));
    case StartPayment(other, t, id, payment, key) =>
      StartedEmbeds(s, pid, p, burnt, log, other, PayFind(t, id, payment.(invoice := id), key));
    case Next(other, pick) =>
      if other in s.procs { ApplyEmbeds(s, pid, p, burnt, log, other, Advance(c, s.db, s.now, s.procs[other], pick)); }
    case Crash(other) =>
      if other in s.procs { ApplyEmbeds(s, pid, p, burnt, log, other, Effect(s.db, None, HeldBy(s.procs[other]), [])); }
    case Tick(_) =>
    case NewEnrollment(_, _) =>
  }

  /** What the others do does not depend on the call that waits, nor on the recorded history. */
  lemma {:induction false} RunEmbeds(c: Catalog, s: State, pid: nat, p: Option<Proc>, burnt: set<Slot>, log: seq<Event>, actions: seq<Action>)
    requires pid !in s.procs && AllApart(pid, actions)
    ensures pid !in Run(c, s, actions).procs
    ensures Run(c, Embed(s, pid, p, burnt, log), actions) == Embed(Run(c, s, actions), pid, p, burnt, log)
  {
    hide Step, Embed;
    if actions != [] {
      RunEmbeds(c, s, pid, p, burnt, log, actions[..|actions| - 1]);
      StepEmbeds(c, Run(c, s, actions[..|actions| - 1]), pid, p, burnt, log, actions[|actions| - 1]);
    }
  }

  class Database {
    const catalog: Catalog

    var enrollments: map<Id, Enrollment>
    var invoices: map<Id, Invoice>
    var counters: map<(Id, nat), nat>
    var payments: map<(Id, string), Payment>
    var now: nat

    /** The other calls in progress, each at its program point. */
    var calls: map<nat, Proc>

    ghost var burnt: set<Slot>
    ghost var log: seq<Event>

    constructor (catalog: Catalog)
      ensures this.catalog == catalog && World() == INITIAL
    {
      this.catalog := catalog;
      enrollments, invoices, counters, payments := map[], map[], map[], map[];
      now, calls := 0, map[];
      burnt, log := {}, [];
    }

    function Contents(): Db
      reads this
    {
      Db(enrollments, invoices, counters, payments)
    }

    ghost function World(): State
      reads this
    {
      State(Contents(), now, calls, burnt, log)
    }

    /** The system with the call pid at the program point p, or finished. */
    ghost function WithCall(pid: nat, p: Option<Proc>): State
      reads this
    {
      State(Contents(), now, Settle(calls, pid, p), burnt, log)
    }

    /** The call pid, which stands at p or is not in progress, gives way: any schedule of steps, starts and crashes of the
        others, and of the clock. */
    method Await(pid: nat, ghost p: Option<Proc>) returns (ghost others: seq<Action>)
      requires pid !in calls
      modifies this
      ensures pid !in calls && AllApart(pid, others)
      ensures WithCall(pid, p) == Run(catalog, old(WithCall(pid, p)), others)
    {
      var schedule: seq<Action> := *;
      if !AllApart(pid, schedule) {
        schedule := [];
      }
      others := schedule;
      var before := State(Contents(), now, calls, {}, []);
      RunEmbeds(catalog, before, pid, p, burnt, log, schedule);
      var after := Run(catalog, before, schedule);
      assert Embed(before, pid, p, burnt, log) == WithCall(pid, p);
      enrollments, invoices, counters, payments := after.db.enrollments, after.db.invoices, after.db.counters, after.db.payments;
      now, calls := after.now, after.procs;
      burnt, log := burnt + after.burnt, log + after.log;
    }
  }
}
