/** A billing run left alone bills the next due period, whatever state the others left behind, and
    repeating it at a fixed date ends with exactly the started periods billed. */
module BillingCatchUp {
  import opened Outcomes
  import opened Calendar
  import opened BillingStore
  import opened FreshNames
  import opened BillingMachine
  import opened BillingInvariant
  import opened BillingSteps
  import opened BillingRuns
  import opened BillingNumbers
  import opened BillingInAdvance

  // ---- One run, step by step ----

  /** All that any reachable state satisfies. */
  ghost predicate Sound(c: Catalog, s: State) {
    Inv(c, s) && NumInv(s) && AllBegun(s)
  }

  lemma SoundStep(c: Catalog, s: State, a: Action)
    requires Sound(c, s)
    ensures Sound(c, Step(c, s, a)) && Evolves(s, Step(c, s, a))
  {
    hide Inv, NumInv, AllBegun, Step, Evolves;
    StepKeeps(c, s, a);
    StepKeepsNumbers(c, s, a);
    StepBegun(c, s, a);
  }

  lemma {:induction false} SoundRun(c: Catalog, s: State, actions: seq<Action>)
    requires Sound(c, s)
    ensures Sound(c, Run(c, s, actions)) && Evolves(s, Run(c, s, actions))
  {
    hide Sound, DbEvolves, Step;
    if actions == [] {
      EvolvesReflexive(s.db);
    } else {
      var before := Run(c, s, actions[..|actions| - 1]);
      SoundRun(c, s, actions[..|actions| - 1]);
      SoundStep(c, before, actions[|actions| - 1]);
      DbEvolvesTransitive(s.db, before.db, Run(c, s, actions).db);
    }
  }

  lemma SoundReachable(c: Catalog, actions: seq<Action>)
    ensures Sound(c, Run(c, INITIAL, actions))
  {
    Reachable(c, actions);
    NumbersHold(c, actions);
    NoPeriodBilledEarly(c, actions);
  }

  lemma OneAction(c: Catalog, s: State, a: Action)
    ensures Run(c, s, [a]) == Step(c, s, a)
  {
    assert [a][..0] == [];
    assert Run(c, s, []) == s;
  }

  /** Only the process `pid` acts. */
  predicate ByOnly(pid: nat, actions: seq<Action>) {
    forall i :: 0 <= i < |actions| ==> (actions[i].Next? || actions[i].StartBilling?) && actions[i].pid == pid
  }

  /** A state that differs from s only in the documents and in what the process pid is doing; the
      enrollments are as they were. */
  predicate Elsewhere(s: State, s': State, pid: nat, next: Option<Proc>) {
    && s'.now == s.now
    && s'.procs == Settle(s.procs, pid, next)
    && s'.db.enrollments == s.db.enrollments
    && (forall id :: id in s.db.invoices ==> id in s'.db.invoices)
  }

  /** One more step of pid, recording nothing. */
  lemma NextStep(c: Catalog, s: State, pid: nat, pick: Option<Id>, db': Db, next: Option<Proc>)
    requires pid in s.procs && Advance(c, s.db, s.now, s.procs[pid], pick) == Quiet(db', next)
    ensures Run(c, s, [Next(pid, pick)]) == s.(procs := Settle(s.procs, pid, next), db := db')
  {
    hide Advance;
    OneAction(c, s, Next(pid, pick));
  }

  lemma Chained(c: Catalog, s: State, a: seq<Action>, b: seq<Action>, pid: nat)
    requires ByOnly(pid, a) && ByOnly(pid, b)
    ensures ByOnly(pid, a + b) && Run(c, s, a + b) == Run(c, Run(c, s, a), b)
  {
    RunAppend(c, s, a, b);
  }

  lemma StartSteps(c: Catalog, db: Db, now: nat, t: Id, e: Id, j: nat)
    requires FindEnrollment(db, t, e).Some? && db.enrollments[e].status == Active
    requires OnChain(c, db, e, db.enrollments[e].currentPeriod, j)
    requires Begun(now, PeriodAt(c, db.enrollments[e], j).start)
    ensures var doc := db.enrollments[e];
            && Advance(c, db, now, BillEnrollment(t, e), None) == Quiet(db, Some(BillClock(t, e, doc)))
            && Advance(c, db, now, BillClock(t, e, doc), None) == Quiet(db, Some(BillFind(t, e, doc, PeriodAt(c, doc, j))))
  {
    hide Boundary, IssuedBelow;
    PeriodDue(c, db.enrollments[e], now, j);
    hide ComputeBillingPeriod, CursorAt, Begun;
  }

  lemma PeriodDue(c: Catalog, doc: Enrollment, now: nat, j: nat)
    requires HasChain(c, doc) && CursorAt(c, doc, doc.currentPeriod, j) && Begun(now, PeriodAt(c, doc, j).start)
    ensures ComputeBillingPeriod(c.plans[doc.plan].months, doc.startDate, doc.currentPeriod, AsOf(now)) == Some(PeriodAt(c, doc, j))
  {
  }

  /** From the start of the call to the lookup of the period. */
  lemma SoloStart(c: Catalog, s: State, pid: nat, t: Id, e: Id, j: nat) returns (actions: seq<Action>)
    requires pid !in s.procs
    requires FindEnrollment(s.db, t, e).Some? && s.db.enrollments[e].status == Active
    requires OnChain(c, s.db, e, s.db.enrollments[e].currentPeriod, j)
    requires Begun(s.now, PeriodAt(c, s.db.enrollments[e], j).start)
    ensures ByOnly(pid, actions)
    ensures var doc := s.db.enrollments[e];
            Run(c, s, actions) == s.(procs := s.procs[pid := BillFind(t, e, doc, PeriodAt(c, doc, j))])
  {
    var doc := s.db.enrollments[e];
    StartSteps(c, s.db, s.now, t, e, j);
    OneAction(c, s, StartBilling(pid, t, e));
    hide Advance, OnChain, Begun, PeriodAt;
    var s1 := s.(procs := s.procs[pid := BillEnrollment(t, e)]);
    assert Run(c, s, [StartBilling(pid, t, e)]) == s1;
    hide Run;
    NextStep(c, s1, pid, None, s.db, Some(BillClock(t, e, doc)));
    var s2 := s1.(procs := s1.procs[pid := BillClock(t, e, doc)]);
    NextStep(c, s2, pid, None, s.db, Some(BillFind(t, e, doc, PeriodAt(c, doc, j))));
    Chained(c, s, [StartBilling(pid, t, e)], [Next(pid, None)], pid);
    Chained(c, s, [StartBilling(pid, t, e)] + [Next(pid, None)], [Next(pid, None)], pid);
    actions := [StartBilling(pid, t, e)] + [Next(pid, None)] + [Next(pid, None)];
  }

  lemma DraftFound(c: Catalog, db: Db, now: nat, t: Id, id: Id, k: After)
    requires FindInvoice(db, t, id).Some? && db.invoices[id].status == Draft
    ensures Advance(c, db, now, IssueFind(t, id, k), None) == Quiet(db, Some(IssueClock(t, id, k)))
    ensures Advance(c, db, now, IssueClock(t, id, k), None) == Quiet(db, Some(IssueAllocate(t, id, now, k)))
    ensures Advance(c, db, now, IssueAllocate(t, id, now, k), None)
         == Quiet(Allocate(db, t, YearOf(now)).0, Some(IssueClaim(t, id, now, CounterOf(db, t, YearOf(now)) + 1, k)))
  {
  }

  lemma ClaimWon(c: Catalog, db: Db, now: nat, p: Proc)
    requires p.IssueClaim? && FindInvoice(db, p.tenant, p.invoice).Some? && db.invoices[p.invoice].status == Draft
    requires !NumberTaken(db, p.tenant, Number(YearOf(p.at), p.sequence))
    ensures var e := Advance(c, db, now, p, None);
            e == Quiet(e.db, Success(p.tenant, p.k))
            && e.db.enrollments == db.enrollments && e.db.invoices.Keys == db.invoices.Keys
  {
    hide NumberTaken;
  }

  /** Three steps to a held number. */
  lemma SoloNumber(c: Catalog, s: State, pid: nat, t: Id, id: Id, k: After) returns (actions: seq<Action>)
    requires pid in s.procs && s.procs[pid] == IssueFind(t, id, k)
    requires FindInvoice(s.db, t, id).Some? && s.db.invoices[id].status == Draft
    ensures ByOnly(pid, actions)
    ensures Run(c, s, actions)
         == s.(procs := s.procs[pid := IssueClaim(t, id, s.now, CounterOf(s.db, t, YearOf(s.now)) + 1, k)],
               db := Allocate(s.db, t, YearOf(s.now)).0)
  {
    DraftFound(c, s.db, s.now, t, id, k);
    hide Advance, Allocate, CounterOf, Run;
    NextStep(c, s, pid, None, s.db, Some(IssueClock(t, id, k)));
    var s1 := s.(procs := s.procs[pid := IssueClock(t, id, k)]);
    NextStep(c, s1, pid, None, s.db, Some(IssueAllocate(t, id, s.now, k)));
    var s2 := s.(procs := s.procs[pid := IssueAllocate(t, id, s.now, k)]);
    var claim := IssueClaim(t, id, s.now, CounterOf(s.db, t, YearOf(s.now)) + 1, k);
    NextStep(c, s2, pid, None, Allocate(s.db, t, YearOf(s.now)).0, Some(claim));
    Chained(c, s, [Next(pid, None)], [Next(pid, None)], pid);
    Chained(c, s, [Next(pid, None)] + [Next(pid, None)], [Next(pid, None)], pid);
    actions := [Next(pid, None)] + [Next(pid, None)] + [Next(pid, None)];
  }

  /** Alone, the claim finds the draft still a draft and its number on no invoice. */
  lemma ClaimAlone(c: Catalog, s: State, pid: nat) returns (db': Db)
    requires Sound(c, s) && pid in s.procs && s.procs[pid].IssueClaim?
    requires var p := s.procs[pid]; FindInvoice(s.db, p.tenant, p.invoice).Some? && s.db.invoices[p.invoice].status == Draft
    ensures Run(c, s, [Next(pid, None)])
         == s.(procs := Settle(s.procs, pid, Success(s.procs[pid].tenant, s.procs[pid].k)), db := db')
    ensures db'.enrollments == s.db.enrollments && db'.invoices.Keys == s.db.invoices.Keys
  {
    IndexNeverFires(s, pid);
    ClaimWon(c, s.db, s.now, s.procs[pid]);
    hide Sound, Advance, Run;
    db' := Advance(c, s.db, s.now, s.procs[pid], None).db;
    NextStep(c, s, pid, None, db', Success(s.procs[pid].tenant, s.procs[pid].k));
  }

  /** From a draft to the cursor write: alone, the claim wins and no index fires. */
  lemma SoloIssue(c: Catalog, s: State, pid: nat, t: Id, id: Id, k: After) returns (actions: seq<Action>)
    requires Sound(c, s) && pid in s.procs && s.procs[pid] == IssueFind(t, id, k) && k.ThenAdvance?
    requires FindInvoice(s.db, t, id).Some? && s.db.invoices[id].status == Draft
    ensures ByOnly(pid, actions)
    ensures Elsewhere(s, Run(c, s, actions), pid, Some(AdvanceCursor(t, k.enrollment, k.seen, k.period)))
  {
    hide Sound, Run, Evolves;
    var three := SoloNumber(c, s, pid, t, id, k);
    SoundRun(c, s, three);
    var db' := ClaimAlone(c, Run(c, s, three), pid);
    Chained(c, s, three, [Next(pid, None)], pid);
    actions := three + [Next(pid, None)];
  }

  lemma LookupHit(c: Catalog, db: Db, now: nat, t: Id, e: Id, doc: Enrollment, period: Period, id: Id)
    requires MatchesPeriod(db, t, e, period.start, id)
    ensures Advance(c, db, now, BillFind(t, e, doc, period), Some(id)) == Quiet(db, Ensure(db, t, id, Continue(e, doc, period)))
    ensures FindInvoice(db, t, id).Some?
  {
  }

  lemma LookupMiss(c: Catalog, db: Db, now: nat, t: Id, e: Id, doc: Enrollment, period: Period, bill: Bill)
    requires PeriodAnswer(db, t, e, period.start, None) && doc.plan in c.plans
    requires BillFor(c, c.plans[doc.plan], doc.member, Some(e), Some(period)) == Some(bill)
    ensures Advance(c, db, now, BillFind(t, e, doc, period), None) == Quiet(db, Some(BillCreate(t, e, doc, period, bill)))
  {
    hide PeriodAnswer, BillFor;
  }

  /** From the lookup to the cursor write, when the period has an issued invoice. */
  lemma SoloPass(c: Catalog, s: State, pid: nat, t: Id, e: Id, doc: Enrollment, period: Period, id: Id) returns (actions: seq<Action>)
    requires pid in s.procs && s.procs[pid] == BillFind(t, e, doc, period)
    requires MatchesPeriod(s.db, t, e, period.start, id) && IsIssued(s.db, t, id)
    ensures ByOnly(pid, actions)
    ensures Elsewhere(s, Run(c, s, actions), pid, Some(AdvanceCursor(t, e, doc.currentPeriod, period)))
  {
    LookupHit(c, s.db, s.now, t, e, doc, period, id);
    hide Advance, Run, MatchesPeriod, IsIssued;
    NextStep(c, s, pid, Some(id), s.db, Some(AdvanceCursor(t, e, doc.currentPeriod, period)));
    actions := [Next(pid, Some(id))];
  }

  lemma HitDraft(c: Catalog, s: State, pid: nat, t: Id, e: Id, doc: Enrollment, period: Period, id: Id)
    requires pid in s.procs && s.procs[pid] == BillFind(t, e, doc, period)
    requires MatchesPeriod(s.db, t, e, period.start, id) && !IsIssued(s.db, t, id)
    ensures Run(c, s, [Next(pid, Some(id))]) == s.(procs := s.procs[pid := IssueFind(t, id, Continue(e, doc, period))])
    ensures FindInvoice(s.db, t, id).Some? && s.db.invoices[id].status == Draft
  {
    LookupHit(c, s.db, s.now, t, e, doc, period, id);
    hide Advance, Run, MatchesPeriod;
    NextStep(c, s, pid, Some(id), s.db, Some(IssueFind(t, id, Continue(e, doc, period))));
  }

  /** The same when a crashed run left a draft behind. */
  lemma SoloResume(c: Catalog, s: State, pid: nat, t: Id, e: Id, doc: Enrollment, period: Period, id: Id) returns (actions: seq<Action>)
    requires Sound(c, s) && pid in s.procs && s.procs[pid] == BillFind(t, e, doc, period)
    requires MatchesPeriod(s.db, t, e, period.start, id) && !IsIssued(s.db, t, id)
    ensures ByOnly(pid, actions)
    ensures Elsewhere(s, Run(c, s, actions), pid, Some(AdvanceCursor(t, e, doc.currentPeriod, period)))
  {
    hide Sound, Run, Evolves, MatchesPeriod, IsIssued;
    var first := [Next(pid, Some(id))];
    HitDraft(c, s, pid, t, e, doc, period, id);
    SoundRun(c, s, first);
    var rest := SoloIssue(c, Run(c, s, first), pid, t, id, Continue(e, doc, period));
    Chained(c, s, first, rest, pid);
    actions := first + rest;
  }

  lemma CreateStep(c: Catalog, db: Db, now: nat, t: Id, e: Id, doc: Enrollment, period: Period, bill: Bill, id: Id)
    requires id !in db.invoices && !PeriodTaken(db, t, bill)
    ensures Advance(c, db, now, BillCreate(t, e, doc, period, bill), Some(id))
         == Quiet(db.(invoices := db.invoices[id := DraftOf(t, bill)]), Some(IssueFind(t, id, Continue(e, doc, period))))
  {
    hide PeriodTaken;
  }

  /** A known VAT rate is all a bill needs. */
  lemma BillExists(c: Catalog, plan: Plan, member: Id, enrollment: Option<Id>, period: Option<Period>)
    requires VatPercent(c, plan).Some?
    ensures BillFor(c, plan, member, enrollment, period).Some?
  {
  }

  lemma NotTaken(db: Db, t: Id, e: Id, period: Period, bill: Bill)
    requires PeriodAnswer(db, t, e, period.start, None)
    requires bill.enrollment == Some(e) && bill.period == Some(period)
    ensures !PeriodTaken(db, t, bill)
  {
    assert forall id :: id in db.invoices && SamePeriodKey(t, bill, db.invoices[id]) ==> MatchesPeriod(db, t, e, period.start, id);
  }

  /** From the lookup to a fresh draft, when the period has no invoice. */
  lemma SoloDraft(c: Catalog, s: State, pid: nat, t: Id, e: Id, doc: Enrollment, period: Period)
    returns (actions: seq<Action>, id: Id, bill: Bill)
    requires pid in s.procs && s.procs[pid] == BillFind(t, e, doc, period)
    requires doc.plan in c.plans && VatPercent(c, c.plans[doc.plan]).Some?
    requires PeriodAnswer(s.db, t, e, period.start, None)
    ensures ByOnly(pid, actions) && id !in s.db.invoices
    ensures Run(c, s, actions)
         == s.(procs := s.procs[pid := IssueFind(t, id, Continue(e, doc, period))],
               db := s.db.(invoices := s.db.invoices[id := DraftOf(t, bill)]))
  {
    BillExists(c, c.plans[doc.plan], doc.member, Some(e), Some(period));
    bill := BillFor(c, c.plans[doc.plan], doc.member, Some(e), Some(period)).value;
    NotTaken(s.db, t, e, period, bill);
    LookupMiss(c, s.db, s.now, t, e, doc, period, bill);
    id := FreshId(s.db.invoices.Keys);
    CreateStep(c, s.db, s.now, t, e, doc, period, bill, id);
    hide Advance, Run, PeriodAnswer, PeriodTaken, BillFor, VatPercent;
    NextStep(c, s, pid, None, s.db, Some(BillCreate(t, e, doc, period, bill)));
    var s1 := s.(procs := s.procs[pid := BillCreate(t, e, doc, period, bill)]);
    NextStep(c, s1, pid, Some(id), s.db.(invoices := s.db.invoices[id := DraftOf(t, bill)]), Some(IssueFind(t, id, Continue(e, doc, period))));
    Chained(c, s, [Next(pid, None)], [Next(pid, Some(id))], pid);
    actions := [Next(pid, None)] + [Next(pid, Some(id))];
  }

  lemma SoloCreate(c: Catalog, s: State, pid: nat, t: Id, e: Id, doc: Enrollment, period: Period) returns (actions: seq<Action>)
    requires Sound(c, s) && pid in s.procs && s.procs[pid] == BillFind(t, e, doc, period)
    requires doc.plan in c.plans && VatPercent(c, c.plans[doc.plan]).Some?
    requires PeriodAnswer(s.db, t, e, period.start, None)
    ensures ByOnly(pid, actions)
    ensures Elsewhere(s, Run(c, s, actions), pid, Some(AdvanceCursor(t, e, doc.currentPeriod, period)))
  {
    hide Sound, Run, Evolves, PeriodAnswer, VatPercent;
    var two, id, bill := SoloDraft(c, s, pid, t, e, doc, period);
    SoundRun(c, s, two);
    var rest := SoloIssue(c, Run(c, s, two), pid, t, id, Continue(e, doc, period));
    Chained(c, s, two, rest, pid);
    actions := two + rest;
  }

  lemma SoloInvoice(c: Catalog, s: State, pid: nat, t: Id, e: Id, doc: Enrollment, period: Period) returns (actions: seq<Action>)
    requires Sound(c, s) && pid in s.procs && s.procs[pid] == BillFind(t, e, doc, period)
    requires doc.plan in c.plans && VatPercent(c, c.plans[doc.plan]).Some?
    ensures ByOnly(pid, actions)
    ensures Elsewhere(s, Run(c, s, actions), pid, Some(AdvanceCursor(t, e, doc.currentPeriod, period)))
  {
    hide Sound, Run, VatPercent, Elsewhere, IsIssued;
    if id :| MatchesPeriod(s.db, t, e, period.start, id) {
      if IsIssued(s.db, t, id) {
        actions := SoloPass(c, s, pid, t, e, doc, period, id);
      } else {
        actions := SoloResume(c, s, pid, t, e, doc, period, id);
      }
    } else {
      actions := SoloCreate(c, s, pid, t, e, doc, period);
    }
  }

  /** From the start of the call to the cursor write. */
  lemma SoloToCursor(c: Catalog, s: State, pid: nat, t: Id, e: Id, j: nat) returns (actions: seq<Action>)
    requires Sound(c, s) && pid !in s.procs
    requires FindEnrollment(s.db, t, e).Some? && s.db.enrollments[e].status == Active
    requires OnChain(c, s.db, e, s.db.enrollments[e].currentPeriod, j)
    requires Begun(s.now, PeriodAt(c, s.db.enrollments[e], j).start)
    requires VatPercent(c, c.plans[s.db.enrollments[e].plan]).Some?
    ensures ByOnly(pid, actions)
    ensures Elsewhere(s, Run(c, s, actions), pid,
                      Some(AdvanceCursor(t, e, s.db.enrollments[e].currentPeriod, PeriodAt(c, s.db.enrollments[e], j))))
  {
    hide Sound, Run, Evolves, VatPercent, PeriodAt, Begun, FindEnrollment, IssuedBelow, CursorAt;
    var doc := s.db.enrollments[e];
    var period := PeriodAt(c, doc, j);
    var a := SoloStart(c, s, pid, t, e, j);
    SoundRun(c, s, a);
    var b := SoloInvoice(c, Run(c, s, a), pid, t, e, doc, period);
    Chained(c, s, a, b, pid);
    actions := a + b;
  }

  /** The run moved the cursor of e over the j-th period, which is issued, and touched nothing else of
      the enrollments. */
  ghost predicate Advanced(c: Catalog, s: State, s': State, e: Id, j: nat) {
    && e in s.db.enrollments && HasChain(c, s.db.enrollments[e])
    && s'.now == s.now && s'.procs == s.procs
    && s'.db.enrollments == s.db.enrollments[e := s.db.enrollments[e].(currentPeriod := Some(PeriodAt(c, s.db.enrollments[e], j)))]
    && OnChain(c, s'.db, e, s'.db.enrollments[e].currentPeriod, j + 1)
  }

  /** A whole billing run, alone: it moves the cursor over the next due period, having issued it. */
  lemma SoloBilling(c: Catalog, s: State, pid: nat, t: Id, e: Id, j: nat) returns (actions: seq<Action>)
    requires Sound(c, s) && pid !in s.procs
    requires FindEnrollment(s.db, t, e).Some? && s.db.enrollments[e].status == Active
    requires OnChain(c, s.db, e, s.db.enrollments[e].currentPeriod, j)
    requires Begun(s.now, PeriodAt(c, s.db.enrollments[e], j).start)
    requires VatPercent(c, c.plans[s.db.enrollments[e].plan]).Some?
    ensures ByOnly(pid, actions)
    ensures Advanced(c, s, Run(c, s, actions), e, j) && Sound(c, Run(c, s, actions))
  {
    hide Sound, Run, DbEvolves, VatPercent, OnChain, PeriodAt, Begun, Advanced;
    var a := SoloToCursor(c, s, pid, t, e, j);
    SoundRun(c, s, a);
    LastWrite(c, s, Run(c, s, a), pid, t, e, j);
    Chained(c, s, a, [Next(pid, None)], pid);
    actions := a + [Next(pid, None)];
    SoundRun(c, s, actions);
  }

  lemma LastWrite(c: Catalog, s: State, s2: State, pid: nat, t: Id, e: Id, j: nat)
    requires pid !in s.procs && FindEnrollment(s.db, t, e).Some?
    requires OnChain(c, s.db, e, s.db.enrollments[e].currentPeriod, j)
    requires Sound(c, s2) && Evolves(s, s2)
    requires Elsewhere(s, s2, pid, Some(AdvanceCursor(t, e, s.db.enrollments[e].currentPeriod, PeriodAt(c, s.db.enrollments[e], j))))
    ensures Advanced(c, s, Run(c, s2, [Next(pid, None)]), e, j)
  {
    hide Sound, DbEvolves, BillingInv, Run, IssuedBelow, Boundary, CursorAt, Advance, PeriodIssued;
    var doc := s.db.enrollments[e];
    var p := AdvanceCursor(t, e, doc.currentPeriod, PeriodAt(c, doc, j));
    AwakeCursor(c, s2, pid, p);
    OnChainStable(c, s.db, s2.db, e, doc.currentPeriod, j);
    WrittenChain(c, s2.db, s2.now, p, j);
    NextStep(c, s2, pid, None, SetCurrentPeriod(s2.db, t, e, p.period), None);
    assert Without(s.procs[pid := p], pid) == s.procs;
  }

  lemma WrittenChain(c: Catalog, db: Db, now: nat, p: Proc, j: nat)
    requires p.AdvanceCursor? && BillingInv(c, db, p) && OnChain(c, db, p.enrollment, p.seen, j)
    requires p.period == PeriodAt(c, db.enrollments[p.enrollment], j)
    ensures FindEnrollment(db, p.tenant, p.enrollment).Some?
    ensures Advance(c, db, now, p, None) == Quiet(SetCurrentPeriod(db, p.tenant, p.enrollment, p.period), None)
    ensures OnChain(c, SetCurrentPeriod(db, p.tenant, p.enrollment, p.period), p.enrollment, Some(p.period), j + 1)
  {
    AwakeIssued(c, db, p, j);
    CursorStep(c, db, now, p, j);
    CursorWriteOnChain(c, db, p.tenant, p.enrollment, p.seen, p.period, j);
    hide OnChain, NextPeriod, Advance, SetCurrentPeriod, PeriodIssued;
  }

  lemma CursorStep(c: Catalog, db: Db, now: nat, p: Proc, j: nat)
    requires p.AdvanceCursor? && BillingInv(c, db, p) && OnChain(c, db, p.enrollment, p.seen, j)
    requires p.period == PeriodAt(c, db.enrollments[p.enrollment], j)
    ensures Advance(c, db, now, p, None) == Quiet(SetCurrentPeriod(db, p.tenant, p.enrollment, p.period), None)
  {
    hide BillingInv, SetCurrentPeriod;
    CursorWriteLands(c, db, now, p, j);
  }

  lemma AwakeCursor(c: Catalog, s: State, pid: nat, p: Proc)
    requires Sound(c, s) && pid in s.procs && s.procs[pid] == p && p.AdvanceCursor?
    ensures BillingInv(c, s.db, p)
  {
    assert ProcInv(c, s.db, s.now, s.log, s.procs[pid]);
  }

  lemma AwakeIssued(c: Catalog, db: Db, p: Proc, j: nat)
    requires p.AdvanceCursor? && BillingInv(c, db, p) && OnChain(c, db, p.enrollment, p.seen, j)
    ensures NextPeriod(c, db, p.enrollment, p.seen, p.period, j) && PeriodIssued(c, db, p.enrollment, j)
  {
    hide PeriodIssued, IssuedBelow;
    var k: nat :| NextPeriod(c, db, p.enrollment, p.seen, p.period, k) && PeriodIssued(c, db, p.enrollment, k);
    OneCursorIndex(c, db, p.enrollment, p.seen, j, k);
  }

  // ---- Repeating it ----

  lemma LaterMonth(a: Date, b: Date)
    requires Valid(a) && Valid(b) && !Before(a, b)
    ensures MonthIndex(b) <= MonthIndex(a)
  {
  }

  lemma AtLeastFactor(m: nat, j: nat)
    requires m > 0
    ensures m * j >= j
  {
  }

  lemma BegunIsBounded(c: Catalog, doc: Enrollment, now: nat, j: nat)
    requires HasChain(c, doc) && Begun(now, PeriodAt(c, doc, j).start)
    ensures j <= MonthIndex(AsOf(now)) - MonthIndex(doc.startDate)
  {
    var months := c.plans[doc.plan].months;
    BoundaryMonthIndex(doc.startDate, months, j);
    AtLeastFactor(months, j);
    hide AsOf, Boundary, Valid, MonthIndex;
    LaterMonth(AsOf(now), Boundary(doc.startDate, months, j));
  }

  /** Exactly the first n periods have started, exactly they are billed, all of them issued, and the
      cursor is past the last of them. */
  ghost predicate CaughtUp(c: Catalog, s: State, e: Id, n: nat) {
    && e in s.db.enrollments && HasChain(c, s.db.enrollments[e])
    && OnChain(c, s.db, e, s.db.enrollments[e].currentPeriod, n)
    && (forall k: nat :: PeriodBilled(c, s.db, e, k) <==> k < n)
    && (forall k: nat :: Begun(s.now, PeriodAt(c, s.db.enrollments[e], k).start) <==> k < n)
  }

  /** Repeating the run while a period is due ends, and then exactly the periods that have started by
      that date are billed, each of them issued, and the cursor is past the last of them. */
  lemma {:induction false} CatchUp(c: Catalog, s: State, pid: nat, t: Id, e: Id, j: nat)
    returns (actions: seq<Action>, n: nat)
    requires Sound(c, s) && pid !in s.procs
    requires FindEnrollment(s.db, t, e).Some? && s.db.enrollments[e].status == Active
    requires OnChain(c, s.db, e, s.db.enrollments[e].currentPeriod, j)
    requires VatPercent(c, c.plans[s.db.enrollments[e].plan]).Some?
    ensures ByOnly(pid, actions)
    ensures CaughtUp(c, Run(c, s, actions), e, n) && Run(c, s, actions).now == s.now
    decreases MonthIndex(AsOf(s.now)) - MonthIndex(s.db.enrollments[e].startDate) + 1 - j
  {
    var doc := s.db.enrollments[e];
    if Begun(s.now, PeriodAt(c, doc, j).start) {
      hide Sound, Run, VatPercent, Begun, CaughtUp, Boundary, IssuedBelow;
      BegunIsBounded(c, doc, s.now, j);
      var first := SoloBilling(c, s, pid, t, e, j);
      var s1 := Run(c, s, first);
      var rest;
      rest, n := CatchUp(c, s1, pid, t, e, j + 1);
      Chained(c, s, first, rest, pid);
      actions := first + rest;
    } else {
      actions := [];
      n := j;
      NothingDue(c, s, e, j);
    }
  }

  lemma NothingDue(c: Catalog, s: State, e: Id, j: nat)
    requires AllBegun(s) && e in s.db.enrollments && OnChain(c, s.db, e, s.db.enrollments[e].currentPeriod, j)
    requires !Begun(s.now, PeriodAt(c, s.db.enrollments[e], j).start)
    ensures CaughtUp(c, s, e, j)
  {
    hide AllBegun, Begun, Boundary, PeriodBilled;
    forall k: nat ensures Begun(s.now, PeriodAt(c, s.db.enrollments[e], k).start) <==> k < j {
      BegunBelow(c, s, e, j, k);
    }
    forall k: nat ensures PeriodBilled(c, s.db, e, k) <==> k < j {
      BilledBelow(c, s, e, j, k);
    }
  }

  lemma BilledHasBegun(c: Catalog, s: State, e: Id, k: nat)
    requires AllBegun(s) && PeriodBilled(c, s.db, e, k)
    ensures Begun(s.now, PeriodAt(c, s.db.enrollments[e], k).start)
  {
    var id :| Covers(c, s.db, e, k, id);
    assert BillBegun(s.now, s.db.invoices[id].bill);
  }

  /** Boundaries increase, so a period after one that has not begun has not begun either. */
  lemma BegunDownward(c: Catalog, doc: Enrollment, now: nat, i: nat, k: nat)
    requires HasChain(c, doc) && i <= k && Begun(now, PeriodAt(c, doc, k).start)
    ensures Begun(now, PeriodAt(c, doc, i).start)
  {
    hide Boundary;
    if i < k {
      var a, b := PeriodAt(c, doc, i).start, PeriodAt(c, doc, k).start;
      BoundaryInjective(doc.startDate, c.plans[doc.plan].months, i, k);
      DayNumberOrders(a, b);
      DayNumberOrders(AsOf(now), a);
      DayNumberOrders(AsOf(now), b);
    }
  }

  lemma BegunBelow(c: Catalog, s: State, e: Id, j: nat, k: nat)
    requires AllBegun(s) && e in s.db.enrollments && HasChain(c, s.db.enrollments[e]) && IssuedBelow(c, s.db, e, j)
    requires !Begun(s.now, PeriodAt(c, s.db.enrollments[e], j).start)
    ensures Begun(s.now, PeriodAt(c, s.db.enrollments[e], k).start) <==> k < j
  {
    if k < j {
      assert PeriodIssued(c, s.db, e, k);
      assert PeriodBilled(c, s.db, e, k);
      BilledHasBegun(c, s, e, k);
    } else if Begun(s.now, PeriodAt(c, s.db.enrollments[e], k).start) {
      BegunDownward(c, s.db.enrollments[e], s.now, j, k);
    }
  }

  lemma BilledBelow(c: Catalog, s: State, e: Id, j: nat, k: nat)
    requires AllBegun(s) && e in s.db.enrollments && HasChain(c, s.db.enrollments[e]) && IssuedBelow(c, s.db, e, j)
    requires !Begun(s.now, PeriodAt(c, s.db.enrollments[e], j).start)
    ensures PeriodBilled(c, s.db, e, k) <==> k < j
  {
    BegunBelow(c, s, e, j, k);
    if k < j {
      assert PeriodIssued(c, s.db, e, k);
    } else if PeriodBilled(c, s.db, e, k) {
      BilledHasBegun(c, s, e, k);
    }
  }
}
