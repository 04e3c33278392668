/** What one call does when nobody interferes: a dunning call, a payment, and an ad-hoc invoice, each from any
    state the others may have left behind. */
module BillingAlone {
  import opened Outcomes
  import opened Calendar
  import opened Money
  import opened BillingStore
  import opened FreshNames
  import opened BillingMachine
  import opened BillingInvariant
  import opened BillingRuns
  import opened BillingNumbers

  /** The call begins with `start` and takes its steps one by one; nobody else acts. */
  predicate Lone(pid: nat, start: Action, actions: seq<Action>) {
    |actions| > 0 && actions[0] == start && forall i :: 0 < i < |actions| ==> actions[i].Next? && actions[i].pid == pid
  }

  lemma Started1(c: Catalog, s: State, start: Action)
    ensures Run(c, s, [start]) == Step(c, s, start)
  {
    assert [start][..0] == [];
    assert Run(c, s, []) == s;
  }

  /** One more step of the call, which stands at p. */
  lemma Took(c: Catalog, s: State, start: Action, actions: seq<Action>, pid: nat, pick: Option<Id>, e: Effect) returns (longer: seq<Action>)
    requires Lone(pid, start, actions) && pid in Run(c, s, actions).procs
    requires var s' := Run(c, s, actions); Advance(c, s'.db, s'.now, s'.procs[pid], pick) == e
    ensures Lone(pid, start, longer) && Run(c, s, longer) == Apply(Run(c, s, actions), pid, e)
  {
    hide Advance;
    longer := actions + [Next(pid, pick)];
    assert longer[..|actions|] == actions;
  }

  /** The state s with the documents, the call and the history as given. */
  function At(s: State, db: Db, pid: nat, p: Option<Proc>, log: seq<Event>): State {
    State(db, s.now, Settle(s.procs, pid, p), s.burnt, log)
  }

  lemma AppliedAt(s: State, db: Db, pid: nat, p: Option<Proc>, log: seq<Event>, e: Effect)
    requires pid !in s.procs && e.burnt == {}
    ensures Apply(At(s, db, pid, p, log), pid, e) == At(s, e.db, pid, e.next, log + e.events)
  {
    assert s.burnt + {} == s.burnt;
    assert Settle(Settle(s.procs, pid, p), pid, e.next) == Settle(s.procs, pid, e.next);
  }

  /** The call moves from p by the step e. */
  lemma Moves(c: Catalog, s: State, start: Action, actions: seq<Action>, db: Db, pid: nat, p: Proc, log: seq<Event>, pick: Option<Id>, e: Effect)
    returns (longer: seq<Action>)
    requires pid !in s.procs && Lone(pid, start, actions) && Run(c, s, actions) == At(s, db, pid, Some(p), log)
    requires Advance(c, db, s.now, p, pick) == e && e.burnt == {}
    ensures Lone(pid, start, longer) && Run(c, s, longer) == At(s, e.db, pid, e.next, log + e.events)
  {
    hide Advance, Run;
    longer := Took(c, s, start, actions, pid, pick, e);
    AppliedAt(s, db, pid, Some(p), log, e);
  }

  lemma Ended(s: State, db: Db, pid: nat, log: seq<Event>)
    requires pid !in s.procs
    ensures At(s, db, pid, None, log) == State(db, s.now, s.procs, s.burnt, log)
  {
    assert Without(s.procs, pid) == s.procs;
  }

  // ---- Dunning ----

  /** Open, past its due date, and past its retry time if it has one. */
  predicate PastDue(inv: Invoice, now: nat) {
    && inv.status == Open && inv.dueAt.Some? && inv.dueAt.value < now
    && (inv.nextRetryAt.Some? ==> inv.nextRetryAt.value <= now)
  }

  /** The invoice one rung higher. */
  function Climbed(x: Invoice, now: nat): Invoice {
    if x.dunningStage == 3 then x.(status := Uncollectible, dunningStage := 4, nextRetryAt := None)
    else x.(dunningStage := x.dunningStage + 1, nextRetryAt := Some(now + 3 * DAY))
  }

  /** The enrollments after the rung: the last one suspends the enrollment the invoice bills. */
  predicate Suspends(x: Invoice, before: map<Id, Enrollment>, after: map<Id, Enrollment>) {
    if x.dunningStage == 3 && x.bill.enrollment.Some?
    then var e := x.bill.enrollment.value;
         e in before && after == before[e := before[e].(status := EnrollmentStatus.Frozen)]
    else after == before
  }

  lemma BilledEnrollment(c: Catalog, s: State, id: Id)
    requires Inv(c, s) && id in s.db.invoices && s.db.invoices[id].status == Open
    ensures s.db.invoices[id].dunningStage < 4
    ensures var x := s.db.invoices[id];
            x.bill.enrollment.Some? ==>
              FindEnrollment(s.db, x.tenant, x.bill.enrollment.value).Some? && s.db.enrollments[x.bill.enrollment.value].member == x.bill.member
  {
    var x := s.db.invoices[id];
    assert Lifecycle(x, s.now) && Linked(c, s.db, id);
    if x.bill.enrollment.Some? {
      var k: nat :| Covers(c, s.db, x.bill.enrollment.value, k, id);
    }
  }

  lemma DunningBegins(c: Catalog, s: State, pid: nat, t: Id, id: Id)
    requires pid !in s.procs && FindInvoice(s.db, t, id).Some? && PastDue(s.db.invoices[id], s.now)
    ensures Step(c, s, StartDunning(pid, t, id, s.now)) == At(s, s.db, pid, Some(DunFind(t, id, s.now)), s.log)
  {
  }

  /** The reads of a dunning call that will climb, and the instant it has read. */
  lemma DunningReads(c: Catalog, db: Db, now: nat, t: Id, id: Id)
    requires FindInvoice(db, t, id).Some? && PastDue(db.invoices[id], now)
    requires var x := db.invoices[id];
             x.bill.enrollment.Some? ==>
               FindEnrollment(db, t, x.bill.enrollment.value).Some? && db.enrollments[x.bill.enrollment.value].member == x.bill.member
    ensures var x := db.invoices[id];
            && Advance(c, db, now, DunFind(t, id, now), None) == Quiet(db, Some(DunClock(t, id, x)))
            && Advance(c, db, now, DunClock(t, id, x), None)
               == Quiet(db, Some(if x.bill.enrollment.Some? then DunEnrollment(t, id, x, now) else DunStep(t, id, x, now, None)))
            && (x.bill.enrollment.Some? ==>
                  Advance(c, db, now, DunEnrollment(t, id, x, now), None) == Quiet(db, Some(DunStep(t, id, x, now, x.bill.enrollment))))
  {
  }

  lemma DunningClimbs(c: Catalog, db: Db, now: nat, t: Id, id: Id)
    requires FindInvoice(db, t, id).Some? && db.invoices[id].status == Open && db.invoices[id].dunningStage < 4
    ensures var x := db.invoices[id];
            Advance(c, db, now, DunStep(t, id, x, now, x.bill.enrollment), None)
            == Effect(db.(invoices := db.invoices[id := Climbed(x, now)]),
                      if x.dunningStage == 3 && x.bill.enrollment.Some? then Some(DunFreeze(t, id, now, x.bill.enrollment.value)) else None,
                      {}, [Rung(id, x.dunningStage, now)])
  {
  }

  lemma DunningFreezes(c: Catalog, db: Db, now: nat, t: Id, id: Id, e: Id)
    requires FindEnrollment(db, t, e).Some?
    ensures Advance(c, db, now, DunFreeze(t, id, now, e), None)
         == Effect(db.(enrollments := db.enrollments[e := db.enrollments[e].(status := EnrollmentStatus.Frozen)]), None, {}, [Froze(e, id, now)])
  {
  }

  /** A dunning call left alone on an open invoice that is past due and past its retry time, whatever state
      the others have left: it climbs exactly one rung, to be retried in three days; the fourth makes the
      invoice uncollectible and freezes the enrollment it bills. Nothing else changes. */
  lemma SoloDunning(c: Catalog, s: State, pid: nat, t: Id, id: Id) returns (actions: seq<Action>)
    requires Inv(c, s) && pid !in s.procs && FindInvoice(s.db, t, id).Some? && PastDue(s.db.invoices[id], s.now)
    ensures Lone(pid, StartDunning(pid, t, id, s.now), actions)
    ensures var x, s' := s.db.invoices[id], Run(c, s, actions);
            && s'.procs == s.procs && s'.now == s.now
            && s'.db.invoices == s.db.invoices[id := Climbed(x, s.now)]
            && Suspends(x, s.db.enrollments, s'.db.enrollments)
            && s'.db.counters == s.db.counters && s'.db.payments == s.db.payments
  {
    hide Inv, Advance, Run, Step, PastDue, FindInvoice, Climbed;
    OpenPastDue(s.db, t, id, s.now);
    var x, start := s.db.invoices[id], StartDunning(pid, t, id, s.now);
    BilledEnrollment(c, s, id);
    DunningBegins(c, s, pid, t, id);
    Started1(c, s, start);
    DunningReads(c, s.db, s.now, t, id);
    DunningClimbs(c, s.db, s.now, t, id);
    actions := [start];
    actions := Moves(c, s, start, actions, s.db, pid, DunFind(t, id, s.now), s.log, None, Quiet(s.db, Some(DunClock(t, id, x))));
    assert s.log + [] == s.log;
    var third := if x.bill.enrollment.Some? then DunEnrollment(t, id, x, s.now) else DunStep(t, id, x, s.now, None);
    actions := Moves(c, s, start, actions, s.db, pid, DunClock(t, id, x), s.log, None, Quiet(s.db, Some(third)));
    if x.bill.enrollment.Some? {
      actions := Moves(c, s, start, actions, s.db, pid, third, s.log, None, Quiet(s.db, Some(DunStep(t, id, x, s.now, x.bill.enrollment))));
    }
    var rung := Advance(c, s.db, s.now, DunStep(t, id, x, s.now, x.bill.enrollment), None);
    actions := Moves(c, s, start, actions, s.db, pid, DunStep(t, id, x, s.now, x.bill.enrollment), s.log, None, rung);
    if x.dunningStage == 3 && x.bill.enrollment.Some? {
      var e := x.bill.enrollment.value;
      DunningFreezes(c, rung.db, s.now, t, id, e);
      var frozen := Advance(c, rung.db, s.now, DunFreeze(t, id, s.now, e), None);
      actions := Moves(c, s, start, actions, rung.db, pid, DunFreeze(t, id, s.now, e), s.log + rung.events, None, frozen);
      Ended(s, frozen.db, pid, s.log + rung.events + frozen.events);
    } else {
      Ended(s, rung.db, pid, s.log + rung.events);
    }
  }

  lemma OpenPastDue(db: Db, t: Id, id: Id, now: nat)
    requires FindInvoice(db, t, id).Some? && PastDue(db.invoices[id], now)
    ensures id in db.invoices && db.invoices[id].status == Open && db.invoices[id].tenant == t
  {
  }

  // ---- Payments ----

  /** The same payment, for the invoice it is presented for. */
  function For(payment: Payment, id: Id): Payment {
    payment.(invoice := id)
  }

  function PaidAt(x: Invoice, now: nat): Invoice {
    x.(status := Paid, paidAt := Some(now), dunningStage := 0, nextRetryAt := None)
  }

  lemma PaymentBegins(c: Catalog, s: State, pid: nat, t: Id, id: Id, payment: Payment, key: string)
    requires pid !in s.procs
    ensures Step(c, s, StartPayment(pid, t, id, payment, key)) == At(s, s.db, pid, Some(PayFind(t, id, For(payment, id), key)), s.log)
  {
  }

  lemma PaymentReads(c: Catalog, db: Db, now: nat, t: Id, id: Id, payment: Payment, key: string)
    requires FindInvoice(db, t, id).Some? && payment.invoice == id
    ensures Advance(c, db, now, PayFind(t, id, payment, key), None)
         == Quiet(db, if payment.amount.currency == db.invoices[id].bill.totals.total.currency then Some(PayList(t, id, payment, key)) else None)
    ensures Advance(c, db, now, PayList(t, id, payment, key), None)
         == Quiet(db, if (t, key) in db.payments && db.payments[(t, key)].invoice == id then None else Some(PayCreate(t, id, payment, key)))
  {
  }

  lemma PaymentWrites(c: Catalog, db: Db, now: nat, t: Id, id: Id, payment: Payment, key: string)
    requires FindInvoice(db, t, id).Some? && (t, key) !in db.payments
    ensures var recorded := db.(payments := db.payments[(t, key) := payment]);
            && Advance(c, db, now, PayCreate(t, id, payment, key), None)
               == Quiet(recorded, if payment.status == Succeeded then Some(PayMark(t, id)) else None)
            && Advance(c, recorded, now, PayMark(t, id), None)
               == Quiet(recorded.(invoices := db.invoices[id := PaidAt(db.invoices[id], now)]), None)
  {
  }

  /** A payment result in the invoice's currency, under a key not used before, is recorded; a success pays the
      invoice at that instant, whatever its status, and nothing else marks it. */
  lemma SoloPayment(c: Catalog, s: State, pid: nat, t: Id, id: Id, payment: Payment, key: string) returns (actions: seq<Action>)
    requires pid !in s.procs && FindInvoice(s.db, t, id).Some? && (t, key) !in s.db.payments
    requires payment.amount.currency == s.db.invoices[id].bill.totals.total.currency
    ensures Lone(pid, StartPayment(pid, t, id, payment, key), actions)
    ensures var s' := Run(c, s, actions);
            && s'.procs == s.procs && s'.now == s.now && s'.log == s.log
            && s'.db.payments == s.db.payments[(t, key) := For(payment, id)]
            && s'.db.invoices == (if payment.status == Succeeded then s.db.invoices[id := PaidAt(s.db.invoices[id], s.now)] else s.db.invoices)
            && s'.db.enrollments == s.db.enrollments && s'.db.counters == s.db.counters
  {
    var paid, start := For(payment, id), StartPayment(pid, t, id, payment, key);
    PaymentReads(c, s.db, s.now, t, id, paid, key);
    PaymentWrites(c, s.db, s.now, t, id, paid, key);
    var db := s.db.(payments := s.db.payments[(t, key) := paid]);
    hide Advance, Run, Step;
    PaymentBegins(c, s, pid, t, id, payment, key);
    Started1(c, s, start);
    assert s.log + [] == s.log;
    actions := [start];
    actions := Moves(c, s, start, actions, s.db, pid, PayFind(t, id, paid, key), s.log, None, Quiet(s.db, Some(PayList(t, id, paid, key))));
    actions := Moves(c, s, start, actions, s.db, pid, PayList(t, id, paid, key), s.log, None, Quiet(s.db, Some(PayCreate(t, id, paid, key))));
    var next := if paid.status == Succeeded then Some(PayMark(t, id)) else None;
    actions := Moves(c, s, start, actions, s.db, pid, PayCreate(t, id, paid, key), s.log, None, Quiet(db, next));
    if paid.status == Succeeded {
      var marked := db.(invoices := db.invoices[id := PaidAt(db.invoices[id], s.now)]);
      actions := Moves(c, s, start, actions, db, pid, PayMark(t, id), s.log, None, Quiet(marked, None));
      Ended(s, marked, pid, s.log);
    } else {
      Ended(s, db, pid, s.log);
    }
  }

  /** A payment in another currency, and the replay of a key recorded for the invoice, change nothing. */
  lemma SoloPaymentIgnored(c: Catalog, s: State, pid: nat, t: Id, id: Id, payment: Payment, key: string) returns (actions: seq<Action>)
    requires pid !in s.procs && FindInvoice(s.db, t, id).Some?
    requires payment.amount.currency != s.db.invoices[id].bill.totals.total.currency
             || ((t, key) in s.db.payments && s.db.payments[(t, key)].invoice == id)
    ensures Lone(pid, StartPayment(pid, t, id, payment, key), actions) && Run(c, s, actions) == s
  {
    var paid, start := For(payment, id), StartPayment(pid, t, id, payment, key);
    PaymentReads(c, s.db, s.now, t, id, paid, key);
    hide Advance, Run, Step;
    PaymentBegins(c, s, pid, t, id, payment, key);
    Started1(c, s, start);
    assert s.log + [] == s.log;
    actions := [start];
    var sameCurrency := payment.amount.currency == s.db.invoices[id].bill.totals.total.currency;
    var next := if sameCurrency then Some(PayList(t, id, paid, key)) else None;
    actions := Moves(c, s, start, actions, s.db, pid, PayFind(t, id, paid, key), s.log, None, Quiet(s.db, next));
    if sameCurrency {
      actions := Moves(c, s, start, actions, s.db, pid, PayList(t, id, paid, key), s.log, None, Quiet(s.db, None));
    }
    Ended(s, s.db, pid, s.log);
  }

  // ---- An ad-hoc invoice ----

  /** An invoice issued at `now` under the given number: payable in 14 days, not yet dunned. */
  function IssuedInvoice(t: Id, bill: Bill, now: nat, number: Number): Invoice {
    Invoice(t, bill, Open, Some(number), Some(now), Some(now + 14 * DAY), None, 0, None)
  }

  /** The documents after one invoice more was issued under the next number of the year. */
  ghost predicate OneIssued(db: Db, db': Db, t: Id, id: Id, bill: Bill, now: nat) {
    var year := YearOf(now);
    var sequence := CounterOf(db, t, year) + 1;
    && id !in db.invoices
    && db'.invoices == db.invoices[id := IssuedInvoice(t, bill, now, Number(year, sequence))]
    && db'.counters == db.counters[(t, year) := sequence]
    && db'.enrollments == db.enrollments && db'.payments == db.payments
  }

  lemma AdHocBegins(c: Catalog, s: State, pid: nat, t: Id, e: Id)
    requires pid !in s.procs
    ensures Step(c, s, StartAdHoc(pid, t, e)) == At(s, s.db, pid, Some(AdHocEnrollment(t, e)), s.log)
  {
  }

  lemma AdHocReads(c: Catalog, db: Db, now: nat, t: Id, e: Id) returns (bill: Bill)
    requires FindEnrollment(db, t, e).Some? && db.enrollments[e].plan in c.plans
    requires var plan := c.plans[db.enrollments[e].plan]; plan.vatRate.Some? ==> plan.vatRate.value in c.vatRates
    ensures UnitBill(c, c.plans[db.enrollments[e].plan], bill)
    ensures bill.member == db.enrollments[e].member && bill.enrollment.None? && bill.period.None?
    ensures Advance(c, db, now, AdHocEnrollment(t, e), None) == Quiet(db, Some(AdHocCreate(t, bill)))
  {
    hide UnitBill, BillFor;
    BillForExactly(c, c.plans[db.enrollments[e].plan], db.enrollments[e].member, None, None);
    bill := BillFor(c, c.plans[db.enrollments[e].plan], db.enrollments[e].member, None, None).value;
  }

  lemma AdHocCreates(c: Catalog, db: Db, now: nat, t: Id, id: Id, bill: Bill)
    requires id !in db.invoices && bill.enrollment.None?
    ensures Advance(c, db, now, AdHocCreate(t, bill), Some(id))
         == Quiet(db.(invoices := db.invoices[id := DraftOf(t, bill)]), Some(IssueFind(t, id, Done)))
  {
  }

  lemma IssueSteps(c: Catalog, db: Db, now: nat, t: Id, id: Id, bill: Bill)
    requires id in db.invoices && db.invoices[id] == DraftOf(t, bill)
    ensures Advance(c, db, now, IssueFind(t, id, Done), None) == Quiet(db, Some(IssueClock(t, id, Done)))
    ensures Advance(c, db, now, IssueClock(t, id, Done), None) == Quiet(db, Some(IssueAllocate(t, id, now, Done)))
    ensures var year := YearOf(now);
            var sequence := CounterOf(db, t, year) + 1;
            Advance(c, db, now, IssueAllocate(t, id, now, Done), None)
            == Quiet(db.(counters := db.counters[(t, year) := sequence]), Some(IssueClaim(t, id, now, sequence, Done)))
  {
  }

  lemma IssueClaims(c: Catalog, db: Db, now: nat, t: Id, id: Id, bill: Bill, sequence: nat)
    requires id in db.invoices && db.invoices[id] == DraftOf(t, bill) && !NumberTaken(db, t, Number(YearOf(now), sequence))
    ensures Advance(c, db, now, IssueClaim(t, id, now, sequence, Done), None)
         == Quiet(db.(invoices := db.invoices[id := IssuedInvoice(t, bill, now, Number(YearOf(now), sequence))]), None)
  {
    hide NumberTaken;
  }

  lemma CountedApart(a: Db, b: Db, t: Id, number: Number)
    requires a.invoices == b.invoices
    ensures NumberTaken(a, t, number) <==> NumberTaken(b, t, number)
  {
  }

  lemma NextNumberFree(s: State, t: Id, year: nat)
    requires NumInv(s)
    ensures !NumberTaken(s.db, t, Number(year, CounterOf(s.db, t, year) + 1))
  {
    var x := (t, year, CounterOf(s.db, t, year) + 1);
    assert OneOwner(s, x);
    assert forall id :: id in s.db.invoices && s.db.invoices[id].tenant == t && s.db.invoices[id].number == Some(Number(x.1, x.2)) ==> Owns(s, OfInvoice(id), x);
  }

  /** Issuing a draft, alone: it becomes the next numbered invoice of the year, payable in 14 days. */
  lemma IssueFromDraft(c: Catalog, s: State, start: Action, so: seq<Action>, db: Db, pid: nat, t: Id, id: Id, bill: Bill) returns (actions: seq<Action>)
    requires pid !in s.procs && Lone(pid, start, so) && Run(c, s, so) == At(s, db, pid, Some(IssueFind(t, id, Done)), s.log)
    requires id in db.invoices && db.invoices[id] == DraftOf(t, bill)
    requires !NumberTaken(db, t, Number(YearOf(s.now), CounterOf(db, t, YearOf(s.now)) + 1))
    ensures Lone(pid, start, actions)
    ensures var year, sequence := YearOf(s.now), CounterOf(db, t, YearOf(s.now)) + 1;
            Run(c, s, actions)
            == State(db.(counters := db.counters[(t, year) := sequence],
                         invoices := db.invoices[id := IssuedInvoice(t, bill, s.now, Number(year, sequence))]),
                     s.now, s.procs, s.burnt, s.log)
  {
    hide Advance, Run, NumberTaken, YearOf, CounterOf, DraftOf, IssuedInvoice;
    IssueSteps(c, db, s.now, t, id, bill);
    var year, sequence := YearOf(s.now), CounterOf(db, t, YearOf(s.now)) + 1;
    var counted := db.(counters := db.counters[(t, year) := sequence]);
    CountedApart(db, counted, t, Number(year, sequence));
    IssueClaims(c, counted, s.now, t, id, bill, sequence);
    assert s.log + [] == s.log;
    actions := Moves(c, s, start, so, db, pid, IssueFind(t, id, Done), s.log, None, Quiet(db, Some(IssueClock(t, id, Done))));
    actions := Moves(c, s, start, actions, db, pid, IssueClock(t, id, Done), s.log, None, Quiet(db, Some(IssueAllocate(t, id, s.now, Done))));
    actions := Moves(c, s, start, actions, db, pid, IssueAllocate(t, id, s.now, Done), s.log, None,
                     Quiet(counted, Some(IssueClaim(t, id, s.now, sequence, Done))));
    var issued := counted.(invoices := counted.invoices[id := IssuedInvoice(t, bill, s.now, Number(year, sequence))]);
    actions := Moves(c, s, start, actions, counted, pid, IssueClaim(t, id, s.now, sequence, Done), s.log, None, Quiet(issued, None));
    Ended(s, issued, pid, s.log);
  }

  /** From the start of the call to its draft. */
  lemma AdHocDraft(c: Catalog, s: State, pid: nat, t: Id, e: Id, id: Id, bill: Bill) returns (actions: seq<Action>)
    requires pid !in s.procs && id !in s.db.invoices && bill.enrollment.None?
    requires Advance(c, s.db, s.now, AdHocEnrollment(t, e), None) == Quiet(s.db, Some(AdHocCreate(t, bill)))
    ensures Lone(pid, StartAdHoc(pid, t, e), actions)
    ensures Run(c, s, actions)
         == At(s, s.db.(invoices := s.db.invoices[id := DraftOf(t, bill)]), pid, Some(IssueFind(t, id, Done)), s.log)
  {
    hide Advance, Run, Step, DraftOf;
    var start := StartAdHoc(pid, t, e);
    AdHocCreates(c, s.db, s.now, t, id, bill);
    AdHocBegins(c, s, pid, t, e);
    Started1(c, s, start);
    assert s.log + [] == s.log;
    actions := [start];
    actions := Moves(c, s, start, actions, s.db, pid, AdHocEnrollment(t, e), s.log, None, Quiet(s.db, Some(AdHocCreate(t, bill))));
    actions := Moves(c, s, start, actions, s.db, pid, AdHocCreate(t, bill), s.log, Some(id),
                     Quiet(s.db.(invoices := s.db.invoices[id := DraftOf(t, bill)]), Some(IssueFind(t, id, Done))));
  }

  lemma NewDraftKeepsNumberFree(db: Db, t: Id, id: Id, bill: Bill, number: Number)
    requires id !in db.invoices && !NumberTaken(db, t, number)
    ensures !NumberTaken(db.(invoices := db.invoices[id := DraftOf(t, bill)]), t, number)
  {
  }

  /** An ad-hoc call left alone, for an enrollment whose plan and rate exist: it issues one invoice more, for
      one unit of the plan, under the next number of the year. Nothing else changes. */
  lemma SoloAdHoc(c: Catalog, s: State, pid: nat, t: Id, e: Id) returns (actions: seq<Action>, id: Id, bill: Bill)
    requires NumInv(s) && pid !in s.procs
    requires FindEnrollment(s.db, t, e).Some? && s.db.enrollments[e].plan in c.plans
    requires var plan := c.plans[s.db.enrollments[e].plan]; plan.vatRate.Some? ==> plan.vatRate.value in c.vatRates
    ensures Lone(pid, StartAdHoc(pid, t, e), actions)
    ensures UnitBill(c, c.plans[s.db.enrollments[e].plan], bill)
    ensures bill.member == s.db.enrollments[e].member && bill.enrollment.None? && bill.period.None?
    ensures var s' := Run(c, s, actions);
            s'.procs == s.procs && s'.now == s.now && s'.log == s.log && OneIssued(s.db, s'.db, t, id, bill, s.now)
  {
    hide Advance, Run, Step, UnitBill, NumInv, YearOf, NumberTaken, DraftOf, IssuedInvoice, At;
    bill := AdHocReads(c, s.db, s.now, t, e);
    id := FreshId(s.db.invoices.Keys);
    actions := AdHocDraft(c, s, pid, t, e, id, bill);
    NextNumberFree(s, t, YearOf(s.now));
    NewDraftKeepsNumberFree(s.db, t, id, bill, Number(YearOf(s.now), CounterOf(s.db, t, YearOf(s.now)) + 1));
    actions := IssueFromDraft(c, s, StartAdHoc(pid, t, e), actions, s.db.(invoices := s.db.invoices[id := DraftOf(t, bill)]), pid, t, id, bill);
  }
}
