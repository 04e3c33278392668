/** One call of the billing service, told as a run of the step machine: the call takes its steps one by
    one while the others do what they like. */
module BillingCalls {
  import opened Outcomes
  import opened Calendar
  import opened BillingStore
  import opened BillingMachine
  import opened BillingInvariant
  import opened BillingRuns
  import opened BillingDatabase

  /** The call pid only ever takes its next step: it is not started again and it does not crash. */
  predicate OwnSteps(pid: nat, run: seq<Action>) {
    forall i :: 0 <= i < |run| ==> Apart(pid, run[i]) || (run[i].Next? && run[i].pid == pid)
  }

  /** The run, in which the call pid takes its steps one by one and the others do what they like, leads
      from `start` to the system s with the call at p, or finished. */
  ghost predicate Stands(c: Catalog, start: State, run: seq<Action>, s: State, pid: nat, p: Option<Proc>) {
    OwnSteps(pid, run) && pid !in s.procs && Run(c, start, run) == s.(procs := Settle(s.procs, pid, p))
  }

  /** The store call just made is the machine's step of the call pid from p. */
  lemma Take(c: Catalog, start: State, run: seq<Action>, before: State, after: State, pid: nat, p: Proc, pick: Option<Id>)
    returns (longer: seq<Action>)
    requires Stands(c, start, run, before, pid, Some(p))
    requires var e := Advance(c, before.db, before.now, p, pick);
             after == State(e.db, before.now, before.procs, before.burnt + e.burnt, before.log + e.events)
             || (e.burnt == {} && e.events == [] && after == before.(db := e.db))
    ensures Stands(c, start, longer, after, pid, Advance(c, before.db, before.now, p, pick).next) && run <= longer
  {
    hide Advance;
    longer := run + [Next(pid, pick)];
    assert longer[..|run|] == run;
    SettleAgain(before.procs, pid, p, Advance(c, before.db, before.now, p, pick).next);
  }

  lemma SettleAgain(calls: map<nat, Proc>, pid: nat, p: Proc, next: Option<Proc>)
    requires pid !in calls
    ensures Settle(Settle(calls, pid, Some(p)), pid, next) == Settle(calls, pid, next)
  {
  }

  lemma StandsHere(c: Catalog, start: State, run: seq<Action>, s: State, pid: nat, p: Option<Proc>)
    requires Stands(c, start, run, s, pid, p)
    ensures OwnSteps(pid, run) && pid !in s.procs && Run(c, start, run) == s.(procs := Settle(s.procs, pid, p))
  {
  }

  /** What the documents went through between two points of one call. */
  lemma EvolvesAlong(c: Catalog, start: State, run: seq<Action>, longer: seq<Action>)
    requires Inv(c, start) && run <= longer
    ensures Inv(c, Run(c, start, run)) && Evolves(Run(c, start, run), Run(c, start, longer))
  {
    assert longer == run + longer[|run|..];
    RunAppend(c, start, run, longer[|run|..]);
    RunKeeps(c, start, run);
    RunKeeps(c, Run(c, start, run), longer[|run|..]);
  }

  /** A call may start where what it relies on at first holds. */
  lemma CallIsLawful(c: Catalog, s: State, pid: nat, p: Proc)
    requires Inv(c, s) && pid !in s.procs && ProcInv(c, s.db, s.now, s.log, p)
    ensures Inv(c, s.(procs := Settle(s.procs, pid, Some(p))))
  {
    hide DbInv, ProcInv;
    assert Started(s, pid, p) == s.(procs := s.procs[pid := p]);
    StartedKeeps(c, s, pid, p);
  }

  /** The invoice a call returned is, but for what happened since, the stored one that bills e. */
  ghost predicate StoredFor(db: Db, e: Id, returned: Invoice) {
    returned.bill.enrollment == Some(e) && exists id :: id in db.invoices && InvoiceEvolves(returned, db.invoices[id])
  }

  lemma ReturnedIsStored(c: Catalog, start: State, run: seq<Action>, atIssue: seq<Action>, longer: seq<Action>, t: Id, e: Id, id: Id, returned: Invoice)
    requires Inv(c, start) && run <= atIssue <= longer
    requires FindInvoice(Run(c, start, run).db, t, id).Some? && Run(c, start, run).db.invoices[id].bill.enrollment == Some(e)
    requires FindInvoice(Run(c, start, atIssue).db, t, id) == Some(returned)
    ensures StoredFor(Run(c, start, longer).db, e, returned) && Priced(c, Run(c, start, longer).db, returned.bill)
  {
    hide Run, Inv, UnitBill;
    EvolvesAlong(c, start, run, atIssue);
    EvolvesAlong(c, start, atIssue, longer);
    EvolvesAlong(c, start, longer, longer);
    StoredIsPriced(c, Run(c, start, longer), id);
    var last := Run(c, start, longer).db;
    assert id in last.invoices && InvoiceEvolves(returned, last.invoices[id]);
  }

  lemma StoredIsPriced(c: Catalog, s: State, id: Id)
    requires Inv(c, s) && id in s.db.invoices
    ensures Priced(c, s.db, s.db.invoices[id].bill)
  {
    assert Linked(c, s.db, id);
    hide DbInv;
  }

  /** A stored attempt stays stored … */
  lemma PaymentKept(c: Catalog, start: State, run: seq<Action>, longer: seq<Action>, t: Id, key: string)
    requires Inv(c, start) && run <= longer
    ensures var a, b := Run(c, start, run).db.payments, Run(c, start, longer).db.payments;
            (t, key) in a ==> (t, key) in b && b[(t, key)] == a[(t, key)]
  {
    hide Run, Inv;
    EvolvesAlong(c, start, run, longer);
  }

  /** … a found invoice stays with its tenant and keeps its bill … */
  lemma InvoiceKept(c: Catalog, start: State, run: seq<Action>, longer: seq<Action>, t: Id, id: Id)
    requires Inv(c, start) && run <= longer && FindInvoice(Run(c, start, run).db, t, id).Some?
    ensures FindInvoice(Run(c, start, longer).db, t, id).Some?
    ensures FindInvoice(Run(c, start, longer).db, t, id).value.bill == FindInvoice(Run(c, start, run).db, t, id).value.bill
  {
    hide Run, Inv;
    EvolvesAlong(c, start, run, longer);
  }

  /** … and a found enrollment stays, too. */
  lemma EnrollmentKept(c: Catalog, start: State, run: seq<Action>, longer: seq<Action>, t: Id, e: Id)
    requires Inv(c, start) && run <= longer && FindEnrollment(Run(c, start, run).db, t, e).Some?
    ensures FindEnrollment(Run(c, start, longer).db, t, e).Some?
  {
    hide Run, Inv;
    EvolvesAlong(c, start, run, longer);
  }

  /** The enrollment an invoice bills is one of its tenant, and of its member. */
  lemma BilledExists(c: Catalog, start: State, run: seq<Action>, t: Id, id: Id)
    requires Inv(c, start) && FindInvoice(Run(c, start, run).db, t, id).Some?
    ensures var db := Run(c, start, run).db;
            var bill := FindInvoice(db, t, id).value.bill;
            bill.enrollment.Some? ==>
              FindEnrollment(db, t, bill.enrollment.value).Some? && FindEnrollment(db, t, bill.enrollment.value).value.member == bill.member
  {
    RunKeeps(c, start, run);
    var s := Run(c, start, run);
    hide Run, UnitBill;
    assert Linked(c, s.db, id);
    if s.db.invoices[id].bill.enrollment.Some? {
      var k: nat :| Covers(c, s.db, s.db.invoices[id].bill.enrollment.value, k, id);
    }
  }

  /** The frozen enrollment is frozen, and everything else is as it was. */
  lemma FreezeFreezes(db: Db, t: Id, e: Id)
    requires FindEnrollment(db, t, e).Some?
    ensures FindEnrollment(Freeze(db, t, e), t, e) == Some(FindEnrollment(db, t, e).value.(status := Frozen))
  {
  }

  /** A won rung: the stage rises by one; the fourth rung ends the ladder, any other is to be retried in
      three days. */
  lemma RungClimbs(db: Db, t: Id, id: Id, fromStage: nat, at: nat)
    ensures var won := AdvanceDunningStep(db, t, id, fromStage, at).1;
            won.Some? ==>
              var x := FindInvoice(db, t, id);
              && x.Some? && x.value.status == Open && x.value.dunningStage == fromStage
              && won.value == if fromStage + 1 >= 4 then x.value.(status := Uncollectible, dunningStage := fromStage + 1, nextRetryAt := None)
                              else x.value.(dunningStage := fromStage + 1, nextRetryAt := Some(at + 3 * DAY))
  {
  }

  lemma MarkedPaid(db: Db, t: Id, id: Id, at: nat)
    ensures MarkPaid(db, t, id, at).payments == db.payments
    ensures FindInvoice(db, t, id).Some? ==>
              FindInvoice(MarkPaid(db, t, id, at), t, id)
              == Some(FindInvoice(db, t, id).value.(status := Paid, paidAt := Some(at), dunningStage := 0, nextRetryAt := None))
  {
  }

  lemma Begin(c: Catalog, s: State, pid: nat, p: Proc)
    requires pid !in s.procs
    ensures Stands(c, s.(procs := s.procs[pid := p]), [], s, pid, Some(p))
  {
  }

  lemma Chain(c: Catalog, start: State, run: seq<Action>, mid: State, more: seq<Action>, s: State, pid: nat, p: Option<Proc>)
    requires OwnSteps(pid, run) && Run(c, start, run) == mid && Stands(c, mid, more, s, pid, p)
    ensures Stands(c, start, run + more, s, pid, p)
  {
    RunAppend(c, start, run, more);
  }

  /** A finished call, seen from before it started. */
  lemma Finished(c: Catalog, before: State, start: Action, run: seq<Action>, s: State, pid: nat, p: Proc) returns (whole: seq<Action>)
    requires pid !in before.procs && Step(c, before, start) == before.(procs := before.procs[pid := p])
    requires Stands(c, before.(procs := before.procs[pid := p]), run, s, pid, None)
    ensures Run(c, before, whole) == s && start in whole && pid !in s.procs
    ensures !start.Crash? ==> Crash(pid) !in whole
  {
    hide Step;
    whole := [start] + run;
    assert [start][..0] == [];
    assert Run(c, before, [start]) == Step(c, Run(c, before, []), start);
    RunAppend(c, before, [start], run);
    assert Settle(s.procs, pid, None) == s.procs;
  }

  /** The returned invoice is stored under an id that was free before, and bills one unit of the plan to the
      member of the enrollment, for no period. */
  ghost predicate AdHocStored(c: Catalog, before: Db, after: Db, t: Id, e: Id, returned: Invoice) {
    && FindEnrollment(before, t, e).Some?
    && var doc := FindEnrollment(before, t, e).value;
       && doc.plan in c.plans && UnitBill(c, c.plans[doc.plan], returned.bill)
       && returned.bill.member == doc.member && returned.bill.enrollment.None? && returned.bill.period.None?
       && exists id :: id !in before.invoices && FindInvoice(after, t, id) == Some(returned)
  }

  lemma CreatedBillStays(c: Catalog, start: State, atCreate: seq<Action>, created: seq<Action>, longer: seq<Action>, t: Id, id: Id, bill: Bill, returned: Invoice)
    requires Inv(c, start) && atCreate <= created <= longer
    requires id !in Run(c, start, atCreate).db.invoices && FindInvoice(Run(c, start, created).db, t, id) == Some(DraftOf(t, bill))
    requires FindInvoice(Run(c, start, longer).db, t, id) == Some(returned)
    ensures id !in start.db.invoices && returned.bill == bill
  {
    assert Run(c, start, []) == start;
    hide Run, Inv;
    EvolvesAlong(c, start, [], atCreate);
    EvolvesAlong(c, start, created, longer);
  }

  lemma AdHocStartOk(c: Catalog, s: State, t: Id, e: Id)
    ensures ProcInv(c, s.db, s.now, s.log, AdHocEnrollment(t, e))
  {
  }

  lemma PaymentStartOk(c: Catalog, s: State, t: Id, id: Id, payment: Payment, key: string)
    ensures ProcInv(c, s.db, s.now, s.log, PayFind(t, id, payment, key))
  {
  }
}
