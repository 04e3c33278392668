/** The dunning ladder over whole runs, read off the history of rungs climbed and enrollments frozen. */
module BillingLadder {
  import opened Outcomes
  import opened Calendar
  import opened BillingStore
  import opened BillingMachine
  import opened BillingInvariant
  import opened BillingSteps
  import opened BillingRuns

  /** What one recorded event says about the documents. */
  predicate EventOk(db: Db, now: nat, log: seq<Event>, ev: Event) {
    match ev
    case Rung(id, stage, at) =>
      && id in db.invoices && db.invoices[id].status != Draft && db.invoices[id].issuedAt.Some?
      && stage < SUSPEND_STAGE && at <= now
      && Earliest(db.invoices[id].issuedAt.value, stage) < at
      && (db.invoices[id].status == Open ==>
            stage < db.invoices[id].dunningStage
            && db.invoices[id].nextRetryAt.Some? && at + RETRY_DAYS * DAY <= db.invoices[id].nextRetryAt.value)
    case Froze(e, id, at) =>
      && id in db.invoices && db.invoices[id].bill.enrollment == Some(e)
      && Rung(id, SUSPEND_STAGE - 1, at) in log
  }

  /** Rungs of one invoice: in order, never twice, three days apart. */
  predicate Spaced(x: Event, y: Event) {
    x.Rung? && y.Rung? && x.invoice == y.invoice ==> x.fromStage < y.fromStage && x.at + RETRY_DAYS * DAY <= y.at
  }

  predicate LogInv(s: State) {
    && (forall i :: 0 <= i < |s.log| ==> EventOk(s.db, s.now, s.log, s.log[i]))
    && (forall i, j :: 0 <= i < j < |s.log| ==> Spaced(s.log[i], s.log[j]))
  }

  lemma EventStable(a: Db, b: Db, now: nat, later: nat, log: seq<Event>, longer: seq<Event>, ev: Event)
    requires DbEvolves(a, b) && now <= later && log <= longer && EventOk(a, now, log, ev)
    ensures EventOk(b, later, longer, ev)
  {
    if ev.Froze? { assert forall x :: x in log ==> x in longer; }
  }

  lemma LogStable(s: State, s': State)
    requires LogInv(s) && Evolves(s, s')
    ensures forall i :: 0 <= i < |s.log| ==> EventOk(s'.db, s'.now, s'.log, s.log[i])
  {
    forall i | 0 <= i < |s.log| ensures EventOk(s'.db, s'.now, s'.log, s.log[i]) {
      EventStable(s.db, s'.db, s.now, s'.now, s.log, s'.log, s.log[i]);
    }
  }

  lemma QuietKeeps(s: State, s': State)
    requires LogInv(s) && Evolves(s, s') && s'.log == s.log
    ensures LogInv(s')
  {
    LogStable(s, s');
  }

  /** The winner of a rung finds every earlier rung of the invoice at least three days back. */
  lemma RungIsSpaced(c: Catalog, s: State, p: Proc, i: nat)
    requires DbInv(c, s.db, s.now) && LogInv(s) && p.DunStep? && DunningInv(s.db, s.now, s.log, p) && Wins(s.db, p)
    requires i < |s.log|
    ensures Spaced(s.log[i], Rung(p.invoice, p.snap.dunningStage, p.at))
  {
    RungLawful(s.db.invoices[p.invoice], p.snap, p.at, s.now);
    assert EventOk(s.db, s.now, s.log, s.log[i]);
  }

  lemma RungRecorded(c: Catalog, s: State, p: Proc)
    requires DbInv(c, s.db, s.now) && p.DunStep? && DunningInv(s.db, s.now, s.log, p) && Wins(s.db, p)
    ensures var e := AdvanceDunning(s.db, s.now, p);
            e.events == [Rung(p.invoice, p.snap.dunningStage, p.at)]
            && EventOk(e.db, s.now, s.log + e.events, Rung(p.invoice, p.snap.dunningStage, p.at))
  {
    RungLawful(s.db.invoices[p.invoice], p.snap, p.at, s.now);
  }

  lemma RungKeepsLog(c: Catalog, s: State, pid: nat)
    requires Inv(c, s) && LogInv(s) && pid in s.procs && s.procs[pid].DunStep? && Wins(s.db, s.procs[pid])
    ensures LogInv(Apply(s, pid, AdvanceDunning(s.db, s.now, s.procs[pid])))
  {
    var p := s.procs[pid];
    var e := AdvanceDunning(s.db, s.now, p);
    var s' := Apply(s, pid, e);
    RungRecorded(c, s, p);
    RungWon(c, s.db, s.now, s.log, p);
    hide Inv, DbInv, DbEvolves, EventOk, Spaced, DunningInv, Wins, AdvanceDunning, AdvanceDunningStep, LogInv;
    forall i: nat | i < |s.log| ensures Spaced(s.log[i], Rung(p.invoice, p.snap.dunningStage, p.at)) {
      RungIsSpacedIn(c, s, pid, i);
    }
    ExtendLog(s, s', Rung(p.invoice, p.snap.dunningStage, p.at));
  }

  lemma ExtendLog(s: State, s': State, ev: Event)
    requires LogInv(s) && Evolves(s, s') && s'.log == s.log + [ev]
    requires EventOk(s'.db, s'.now, s'.log, ev)
    requires forall i :: 0 <= i < |s.log| ==> Spaced(s.log[i], ev)
    ensures LogInv(s')
  {
    hide DbEvolves, EventOk, Spaced;
    LogStable(s, s');
  }

  lemma RungIsSpacedIn(c: Catalog, s: State, pid: nat, i: nat)
    requires Inv(c, s) && LogInv(s) && pid in s.procs && s.procs[pid].DunStep? && Wins(s.db, s.procs[pid])
    requires i < |s.log|
    ensures Spaced(s.log[i], Rung(s.procs[pid].invoice, s.procs[pid].snap.dunningStage, s.procs[pid].at))
  {
    RungIsSpaced(c, s, s.procs[pid], i);
  }

  lemma FreezeKeepsLog(c: Catalog, s: State, pid: nat)
    requires Inv(c, s) && LogInv(s) && pid in s.procs && s.procs[pid].DunFreeze?
    ensures LogInv(Apply(s, pid, AdvanceDunning(s.db, s.now, s.procs[pid])))
  {
    var p := s.procs[pid];
    var s' := Apply(s, pid, AdvanceDunning(s.db, s.now, p));
    assert DunningInv(s.db, s.now, s.log, p);
    FreezeEvolves(s.db, p.tenant, p.target);
    FreezeKeepsInvoices(s.db, p.tenant, p.target);
    hide Inv, DbEvolves, Freeze, LogInv;
    assert forall x :: x in s.log ==> x in s'.log;
    ExtendLog(s, s', Froze(p.target, p.invoice, p.at));
  }

  lemma FreezeKeepsInvoices(db: Db, t: Id, e: Id)
    ensures Freeze(db, t, e).invoices == db.invoices
  {
  }

  /** Only the winner of a rung, and the freeze it entails, write the history. */
  lemma SilentSteps(c: Catalog, s: State, pid: nat, pick: Option<Id>)
    requires pid in s.procs
    requires !(s.procs[pid].DunStep? && Wins(s.db, s.procs[pid])) && !s.procs[pid].DunFreeze?
    ensures Advance(c, s.db, s.now, s.procs[pid], pick).events == []
  {
    hide BillFor, CreateDraft, ComputeBillingPeriod, PeriodAnswer, ClaimForIssue;
  }

  lemma QuietStep(c: Catalog, s: State, a: Action)
    requires !(a.Next? && a.pid in s.procs && (s.procs[a.pid].DunFreeze? || (s.procs[a.pid].DunStep? && Wins(s.db, s.procs[a.pid]))))
    ensures Step(c, s, a).log == s.log
  {
    hide Advance, Wins, Dunnable, FindInvoice, HeldBy, Settle;
    if a.Next? && a.pid in s.procs { SilentSteps(c, s, a.pid, a.pick); }
    assert s.log + [] == s.log;
  }

  lemma DunningStep(c: Catalog, s: State, a: Action)
    requires a.Next? && a.pid in s.procs && (s.procs[a.pid].DunStep? || s.procs[a.pid].DunFreeze?)
    ensures Step(c, s, a) == Apply(s, a.pid, AdvanceDunning(s.db, s.now, s.procs[a.pid]))
  {
    hide AdvanceDunning, Apply;
  }

  lemma StepKeepsLog(c: Catalog, s: State, a: Action)
    requires Inv(c, s) && LogInv(s)
    ensures LogInv(Step(c, s, a))
  {
    hide Inv, LogInv, Evolves, Wins, Step, Apply, AdvanceDunning;
    StepKeeps(c, s, a);
    if a.Next? && a.pid in s.procs && (s.procs[a.pid].DunStep? || s.procs[a.pid].DunFreeze?) { DunningStep(c, s, a); }
    if a.Next? && a.pid in s.procs && s.procs[a.pid].DunStep? && Wins(s.db, s.procs[a.pid]) {
      RungKeepsLog(c, s, a.pid);
    } else if a.Next? && a.pid in s.procs && s.procs[a.pid].DunFreeze? {
      FreezeKeepsLog(c, s, a.pid);
    } else {
      QuietStep(c, s, a);
      QuietKeeps(s, Step(c, s, a));
    }
  }

  lemma {:induction false} LogHolds(c: Catalog, actions: seq<Action>)
    ensures LogInv(Run(c, INITIAL, actions))
  {
    hide LogInv, Inv, Step;
    if actions == [] {
      assert LogInv(INITIAL) by { NoHistory(); }
    } else {
      LogHolds(c, actions[..|actions| - 1]);
      Reachable(c, actions[..|actions| - 1]);
      StepKeepsLog(c, Run(c, INITIAL, actions[..|actions| - 1]), actions[|actions| - 1]);
    }
  }

  lemma NoHistory()
    ensures LogInv(INITIAL)
  {
  }

  // ---- What it means ----

  /** Every rung ever climbed is one of the four, and is climbed only after the 14 days of payment terms and
      three more days for each rung below it. */
  lemma RungNotBefore(c: Catalog, actions: seq<Action>, i: nat)
    requires var s := Run(c, INITIAL, actions); i < |s.log| && s.log[i].Rung?
    ensures var s := Run(c, INITIAL, actions);
            var id := s.log[i].invoice;
            && id in s.db.invoices && s.db.invoices[id].issuedAt.Some?
            && s.log[i].fromStage < 4
            && s.db.invoices[id].issuedAt.value + (14 + 3 * s.log[i].fromStage) * DAY < s.log[i].at <= s.now
  {
    var s := Run(c, INITIAL, actions);
    LogHolds(c, actions);
    hide Run;
    assert EventOk(s.db, s.now, s.log, s.log[i]);
  }

  /** With any number of concurrent or re-delivered sweeps, an invoice climbs a rung at most once, in
      order, and at least three days after any rung it climbed before. */
  lemma RungsInTime(c: Catalog, actions: seq<Action>, i: nat, j: nat)
    requires var s := Run(c, INITIAL, actions);
             i < j < |s.log| && s.log[i].Rung? && s.log[j].Rung? && s.log[i].invoice == s.log[j].invoice
    ensures var s := Run(c, INITIAL, actions);
            && s.log[i].fromStage < s.log[j].fromStage
            && s.log[i].at + 3 * DAY <= s.log[j].at
  {
    var s := Run(c, INITIAL, actions);
    LogHolds(c, actions);
    hide Run;
    assert Spaced(s.log[i], s.log[j]);
  }

  /** A freeze caused by dunning never comes before 14 + 9 days after the invoice was issued, and the
      invoice is one of the frozen enrollment and has climbed its last rung. */
  lemma FreezeNotBefore(c: Catalog, actions: seq<Action>, i: nat)
    requires var s := Run(c, INITIAL, actions); i < |s.log| && s.log[i].Froze?
    ensures var s := Run(c, INITIAL, actions);
            var id := s.log[i].byInvoice;
            && id in s.db.invoices && s.db.invoices[id].issuedAt.Some?
            && s.db.invoices[id].bill.enrollment == Some(s.log[i].enrollment)
            && s.db.invoices[id].issuedAt.value + (14 + 9) * DAY < s.log[i].climbedAt <= s.now
            && Rung(id, 3, s.log[i].climbedAt) in s.log
  {
    var s := Run(c, INITIAL, actions);
    LogHolds(c, actions);
    hide Run;
    assert EventOk(s.db, s.now, s.log, s.log[i]);
    var k :| 0 <= k < |s.log| && s.log[k] == Rung(s.log[i].byInvoice, SUSPEND_STAGE - 1, s.log[i].climbedAt);
    assert EventOk(s.db, s.now, s.log, s.log[k]);
  }

  function StatusOf(db: Db, e: Id): Option<EnrollmentStatus> {
    if e in db.enrollments then Some(db.enrollments[e].status) else None
  }

  /** A step changes an existing enrollment's status only by freezing it, and then it is the freeze that
      follows a final rung won before; in particular no cursor write thaws an enrollment. */
  lemma OnlyFinalRungFreezes(c: Catalog, s: State, a: Action, e: Id)
    requires Inv(c, s) && e in s.db.enrollments
    requires StatusOf(Step(c, s, a).db, e) != StatusOf(s.db, e)
    ensures StatusOf(Step(c, s, a).db, e) == Some(Frozen)
    ensures a.Next? && a.pid in s.procs && s.procs[a.pid].DunFreeze? && s.procs[a.pid].target == e
    ensures Rung(s.procs[a.pid].invoice, 3, s.procs[a.pid].at) in s.log
  {
    if a.Next? && a.pid in s.procs {
      var p := s.procs[a.pid];
      if p.DunFreeze? {
        assert DunningInv(s.db, s.now, s.log, p);
        hide Inv, DbInv;
      } else {
        StatusKept(c, s.db, s.now, p, a.pick, e);
        hide Inv, AdvanceIssue, AdvanceAdHoc, AdvanceBilling, AdvanceDunning, AdvancePayment;
      }
    }
  }

  lemma StatusKept(c: Catalog, db: Db, now: nat, p: Proc, pick: Option<Id>, e: Id)
    requires !p.DunFreeze? && e in db.enrollments
    ensures StatusOf(Advance(c, db, now, p, pick).db, e) == StatusOf(db, e)
  {
    hide BillFor, ComputeBillingPeriod, PeriodAnswer, IsIssued, NumberTaken, PeriodTaken, Issued, Stepped, Success, YearOf, Before;
  }
}
