/** When a number is lost, and when the numbering has no gap. */
module BillingGapless {
  import opened Outcomes
  import opened BillingStore
  import opened BillingMachine
  import opened BillingNumbers

  /** The call is past its check that the invoice is a draft and has not claimed it yet. */
  predicate Claiming(p: Proc) {
    p.IssueClock? || p.IssueAllocate? || p.IssueClaim?
  }

  /** The invoice of the call is still a draft. */
  predicate DraftWaits(db: Db, p: Proc)
    requires Claiming(p)
  {
    FindInvoice(db, p.tenant, p.invoice).Some? && db.invoices[p.invoice].status == Draft
  }

  /** The step crashes a call that holds a number, or is the claim of one whose invoice is no draft any more. */
  predicate LosesNumber(s: State, a: Action) {
    && (a.Crash? || a.Next?)
    && a.pid in s.procs && s.procs[a.pid].IssueClaim?
    && (a.Next? ==> !DraftWaits(s.db, s.procs[a.pid]))
  }

  lemma OthersLoseNothing(c: Catalog, s: State, a: Action)
    requires !((a.Crash? || a.Next?) && a.pid in s.procs && s.procs[a.pid].IssueClaim?)
    ensures Step(c, s, a).burnt == s.burnt
  {
    hide FindInvoice, BillFor, CreateDraft, ComputeBillingPeriod, PeriodAnswer, AdvanceDunningStep, Allocate;
  }

  lemma ClaimLoses(c: Catalog, s: State, pid: nat, pick: Option<Id>)
    requires NumInv(s) && pid in s.procs && s.procs[pid].IssueClaim?
    ensures Step(c, s, Next(pid, pick)).burnt
         == s.burnt + if DraftWaits(s.db, s.procs[pid]) then {} else HeldBy(s.procs[pid])
  {
    hide NumInv, NumberTaken;
    IndexNeverFires(s, pid);
    ClaimStep(s.db, s.now, s.procs[pid]);
  }

  /** A step loses a number exactly when it crashes its holder, or is the claim of a holder that comes too
      late; and then it loses exactly the held one, which was not lost before. */
  lemma StepLosesExactly(c: Catalog, s: State, a: Action)
    requires NumInv(s)
    ensures Step(c, s, a).burnt == s.burnt + if LosesNumber(s, a) then HeldBy(s.procs[a.pid]) else {}
    ensures Step(c, s, a).burnt != s.burnt <==> LosesNumber(s, a)
  {
    hide NumInv, AdvanceIssue, AdvanceAdHoc, AdvanceBilling, AdvanceDunning, AdvancePayment, DraftWaits;
    if (a.Crash? || a.Next?) && a.pid in s.procs && s.procs[a.pid].IssueClaim? {
      var x := HeldIsNotLost(s, a.pid);
      if a.Next? { ClaimLoses(c, s, a.pid, a.pick); }
      assert x in Step(c, s, a).burnt <==> LosesNumber(s, a);
    } else {
      OthersLoseNothing(c, s, a);
    }
  }

  lemma HeldIsNotLost(s: State, pid: nat) returns (x: Slot)
    requires NumInv(s) && pid in s.procs && s.procs[pid].IssueClaim?
    ensures HeldBy(s.procs[pid]) == {x} && x !in s.burnt
  {
    var p := s.procs[pid];
    x := (p.tenant, YearOf(p.at), p.sequence);
    assert OneOwner(s, x) && Owns(s, OfProcess(pid), x);
    assert x in s.burnt ==> Owns(s, Nobody, x);
  }

  /** The k-th step of the run loses the number x. */
  predicate LosesAt(c: Catalog, actions: seq<Action>, k: nat, x: Slot)
    requires k < |actions|
  {
    var s := Run(c, INITIAL, actions[..k]);
    LosesNumber(s, actions[k]) && x in HeldBy(s.procs[actions[k].pid])
  }

  ghost predicate Lost(c: Catalog, actions: seq<Action>, x: Slot) {
    exists k: nat :: k < |actions| && LosesAt(c, actions, k, x)
  }

  lemma LostNext(c: Catalog, actions: seq<Action>, x: Slot)
    requires actions != []
    ensures var n := |actions| - 1; Lost(c, actions, x) <==> Lost(c, actions[..n], x) || LosesAt(c, actions, n, x)
  {
    var n := |actions| - 1;
    forall k: nat | k < n ensures LosesAt(c, actions[..n], k, x) <==> LosesAt(c, actions, k, x) {
      assert actions[..n][..k] == actions[..k];
    }
    if Lost(c, actions[..n], x) {
      var k: nat :| k < n && LosesAt(c, actions[..n], k, x);
      assert LosesAt(c, actions, k, x);
    }
    hide LosesAt;
  }

  lemma {:induction false} BurntIsLost(c: Catalog, actions: seq<Action>, x: Slot)
    ensures x in Run(c, INITIAL, actions).burnt <==> Lost(c, actions, x)
  {
    hide Lost, Step, NumInv, LosesNumber, HeldBy;
    if actions == [] {
      assert !Lost(c, actions, x) by { NothingLostYet(c, x); }
    } else {
      var n := |actions| - 1;
      BurntIsLost(c, actions[..n], x);
      LostNext(c, actions, x);
      NumbersHold(c, actions[..n]);
      StepLosesExactly(c, Run(c, INITIAL, actions[..n]), actions[n]);
    }
  }

  lemma NothingLostYet(c: Catalog, x: Slot)
    ensures !Lost(c, [], x)
  {
  }

  /** In every run the numbers of a tenant and year have no gap exactly when no call holds one and no step
      so far has lost one. */
  lemma GaplessExactlyWhen(c: Catalog, actions: seq<Action>, t: Id, year: nat)
    ensures var s := Run(c, INITIAL, actions);
            Gapless(s, t, year) <==> Holders(s, t, year) == {} && forall x: Slot :: x.0 == t && x.1 == year ==> !Lost(c, actions, x)
  {
    hide Run, Gapless, Holders, Lost;
    var s := Run(c, INITIAL, actions);
    NumbersConserved(c, actions, t, year);
    forall x: Slot ensures x in s.burnt <==> Lost(c, actions, x) { BurntIsLost(c, actions, x); }
    NoneBurnt(s, t, year);
  }

  lemma NoneBurnt(s: State, t: Id, year: nat)
    ensures Burnt(s, t, year) == {} <==> forall x: Slot :: x in s.burnt ==> !(x.0 == t && x.1 == year)
  {
    if Burnt(s, t, year) != {} {
      var x :| x in Burnt(s, t, year);
      assert x in s.burnt;
    } else {
      forall x: Slot | x in s.burnt ensures !(x.0 == t && x.1 == year) { assert x !in Burnt(s, t, year); }
    }
  }

  // ---- Sequential runs ----

  /** At most one call is in progress. */
  predicate Alone(s: State) {
    forall p, q :: p in s.procs && q in s.procs ==> p == q
  }

  /** No call crashes, and no two calls overlap. */
  ghost predicate Sequential(c: Catalog, actions: seq<Action>) {
    && (forall i :: 0 <= i < |actions| ==> !actions[i].Crash?)
    && (forall k: nat :: k <= |actions| ==> Alone(Run(c, INITIAL, actions[..k])))
  }

  predicate DraftsWait(s: State) {
    forall pid :: pid in s.procs && Claiming(s.procs[pid]) ==> DraftWaits(s.db, s.procs[pid])
  }

  /** What the call that was alone finds next is what it has left. */
  lemma AloneStep(c: Catalog, s: State, a: Action)
    requires Alone(s) && DraftsWait(s)
    ensures DraftsWait(Step(c, s, a))
  {
    if a.Next? && a.pid in s.procs {
      AloneAdvance(c, s.db, s.now, s.procs[a.pid], a.pick);
      hide Advance, DraftWaits;
    } else {
      hide Advance;
    }
  }

  lemma AloneAdvance(c: Catalog, db: Db, now: nat, p: Proc, pick: Option<Id>)
    requires Claiming(p) ==> DraftWaits(db, p)
    ensures var e := Advance(c, db, now, p, pick);
            e.next.Some? && Claiming(e.next.value) ==> DraftWaits(e.db, e.next.value)
  {
    hide AdvanceIssue, BillFor, CreateDraft, ComputeBillingPeriod, PeriodAnswer, AdvanceDunningStep, IsIssued, FindInvoice, DraftWaits;
    if InIssue(p) { AloneIssue(db, now, p); }
  }

  lemma AloneIssue(db: Db, now: nat, p: Proc)
    requires InIssue(p) && (Claiming(p) ==> DraftWaits(db, p))
    ensures var e := AdvanceIssue(db, now, p);
            e.next.Some? && Claiming(e.next.value) ==> DraftWaits(e.db, e.next.value)
  {
    hide IsIssued, ClaimForIssue;
  }

  lemma SequentialPrefix(c: Catalog, actions: seq<Action>)
    requires Sequential(c, actions) && actions != []
    ensures Sequential(c, actions[..|actions| - 1]) && Alone(Run(c, INITIAL, actions[..|actions| - 1]))
  {
    hide Run, Alone;
    var n := |actions| - 1;
    forall k: nat | k <= n ensures Alone(Run(c, INITIAL, actions[..n][..k])) { assert actions[..n][..k] == actions[..k]; }
  }

  lemma {:induction false} NothingIsLost(c: Catalog, actions: seq<Action>)
    requires Sequential(c, actions)
    ensures DraftsWait(Run(c, INITIAL, actions)) && Run(c, INITIAL, actions).burnt == {}
  {
    hide Alone, Step, DraftsWait, NumInv;
    if actions == [] {
      assert DraftsWait(INITIAL) by { NoneClaims(); }
    } else {
      var n := |actions| - 1;
      var s := Run(c, INITIAL, actions[..n]);
      SequentialPrefix(c, actions);
      NothingIsLost(c, actions[..n]);
      AloneStep(c, s, actions[n]);
      NumbersHold(c, actions[..n]);
      StepLosesExactly(c, s, actions[n]);
      ClaimInTime(s, actions[n]);
    }
  }

  lemma NoneClaims()
    ensures DraftsWait(INITIAL)
  {
  }

  lemma ClaimInTime(s: State, a: Action)
    requires DraftsWait(s) && !a.Crash?
    ensures !LosesNumber(s, a)
  {
    hide DraftWaits;
  }

  /** Calls one after the other, none of which crashes: no number is ever lost, and between two calls the
      invoices of a tenant and year carry exactly the numbers 1 to n, each once. */
  lemma SequentialNumbering(c: Catalog, actions: seq<Action>, t: Id, year: nat)
    requires Sequential(c, actions) && Run(c, INITIAL, actions).procs == map[]
    ensures var s := Run(c, INITIAL, actions);
            var n := CounterOf(s.db, t, year);
            && s.burnt == {}
            && (forall q: nat :: Carried(s, (t, year, q)) <==> 1 <= q <= n)
            && |Carriers(s, t, year)| == n
  {
    var s := Run(c, INITIAL, actions);
    NothingIsLost(c, actions);
    NumbersConserved(c, actions, t, year);
    NumbersHold(c, actions);
    hide Run;
    assert Holders(s, t, year) == {} && Burnt(s, t, year) == {};
    forall q: nat ensures Carried(s, (t, year, q)) <==> 1 <= q <= CounterOf(s.db, t, year) {
      var x := (t, year, q);
      assert OneOwner(s, x);
      assert HandedOut(s, x) ==> Carried(s, x);
    }
  }
}
