/** Invoice numbers over whole runs. Every number a counter has handed out has exactly one owner: the
    invoice that carries it, the process that holds it between the counter and the claim, or nobody any
    more, because the claim was lost or the process crashed. */
module BillingNumbers {
  import opened Outcomes
  import opened BillingStore
  import opened BillingMachine
  import opened BillingInvariant
  import opened BillingRuns
  import InvoiceNumber

  datatype Owner = OfInvoice(id: Id) | OfProcess(pid: nat) | Nobody

  predicate Owns(s: State, o: Owner, x: Slot) {
    match o
    case OfInvoice(id) => id in s.db.invoices && s.db.invoices[id].tenant == x.0 && s.db.invoices[id].number == Some(Number(x.1, x.2))
    case OfProcess(pid) => pid in s.procs && x in HeldBy(s.procs[pid])
    case Nobody => x in s.burnt
  }

  predicate HandedOut(s: State, x: Slot) {
    1 <= x.2 <= CounterOf(s.db, x.0, x.1)
  }

  ghost predicate OneOwner(s: State, x: Slot) {
    && (forall o :: Owns(s, o, x) ==> HandedOut(s, x))
    && (HandedOut(s, x) ==> exists o :: Owns(s, o, x))
    && (forall o, o' :: Owns(s, o, x) && Owns(s, o', x) ==> o == o')
  }

  ghost predicate NumInv(s: State) {
    forall x: Slot :: OneOwner(s, x)
  }

  /** Nothing changes hands. */
  ghost predicate SameOwners(s: State, s': State) {
    && (forall o, x: Slot :: Owns(s, o, x) <==> Owns(s', o, x))
    && (forall x: Slot :: HandedOut(s, x) <==> HandedOut(s', x))
  }

  /** Only the slot x0 changes hands; it ends with `o0`. */
  ghost predicate ChangesHands(s: State, s': State, x0: Slot, o0: Owner) {
    && (forall o, x: Slot :: x != x0 ==> (Owns(s, o, x) <==> Owns(s', o, x)))
    && (forall x: Slot :: x != x0 ==> (HandedOut(s, x) <==> HandedOut(s', x)))
    && HandedOut(s', x0)
    && (forall o :: Owns(s', o, x0) <==> o == o0)
  }

  lemma SameOwnersKeep(s: State, s': State)
    requires NumInv(s) && SameOwners(s, s')
    ensures NumInv(s')
  {
    forall x: Slot ensures OneOwner(s', x) {
      assert OneOwner(s, x);
      if HandedOut(s', x) {
        var o :| Owns(s, o, x);
        assert Owns(s', o, x);
      }
    }
  }

  lemma ChangeKeeps(s: State, s': State, x0: Slot, o0: Owner)
    requires NumInv(s) && ChangesHands(s, s', x0, o0)
    ensures NumInv(s')
  {
    forall x: Slot ensures OneOwner(s', x) {
      assert OneOwner(s, x);
      if x == x0 {
        assert Owns(s', o0, x0);
      } else if HandedOut(s', x) {
        var o :| Owns(s, o, x);
        assert Owns(s', o, x);
      }
    }
  }

  /** The unique index on (tenant, number) never fires: a held number is on no invoice. */
  lemma IndexNeverFires(s: State, pid: nat)
    requires NumInv(s) && pid in s.procs && s.procs[pid].IssueClaim?
    ensures var p := s.procs[pid]; !NumberTaken(s.db, p.tenant, Number(YearOf(p.at), p.sequence))
  {
    var p := s.procs[pid];
    var x := (p.tenant, YearOf(p.at), p.sequence);
    assert OneOwner(s, x) && Owns(s, OfProcess(pid), x);
    if NumberTaken(s.db, p.tenant, Number(x.1, x.2)) {
      var id :| id in s.db.invoices && s.db.invoices[id].tenant == p.tenant && s.db.invoices[id].number == Some(Number(x.1, x.2));
      assert Owns(s, OfInvoice(id), x);
    }
  }

  /** A step that writes no number, no counter and no claim moves nothing. */
  predicate NumbersUntouched(s: State, s': State) {
    && s'.burnt == s.burnt
    && s'.db.counters == s.db.counters
    && (forall id :: id in s.db.invoices ==>
          id in s'.db.invoices && s'.db.invoices[id].tenant == s.db.invoices[id].tenant
          && s'.db.invoices[id].number == s.db.invoices[id].number)
    && (forall id :: id in s'.db.invoices && id !in s.db.invoices ==> s'.db.invoices[id].number.None?)
    && (forall pid :: pid in s.procs && s.procs[pid].IssueClaim? ==> pid in s'.procs && s'.procs[pid] == s.procs[pid])
    && (forall pid :: pid in s'.procs && s'.procs[pid].IssueClaim? ==> pid in s.procs && s'.procs[pid] == s.procs[pid])
  }

  lemma UntouchedKeeps(s: State, s': State)
    requires NumInv(s) && NumbersUntouched(s, s')
    ensures NumInv(s')
  {
    hide NumInv;
    forall o, x: Slot ensures Owns(s, o, x) <==> Owns(s', o, x) {
    }
    SameOwnersKeep(s, s');
  }

  lemma AllocationKeeps(c: Catalog, s: State, pid: nat)
    requires NumInv(s) && pid in s.procs && s.procs[pid].IssueAllocate?
    ensures NumInv(Apply(s, pid, AdvanceIssue(s.db, s.now, s.procs[pid])))
  {
    var p := s.procs[pid];
    var s' := Apply(s, pid, AdvanceIssue(s.db, s.now, p));
    var x0 := (p.tenant, YearOf(p.at), CounterOf(s.db, p.tenant, YearOf(p.at)) + 1);
    assert OneOwner(s, x0) && !HandedOut(s, x0);
    forall o, x: Slot | x != x0 ensures Owns(s, o, x) <==> Owns(s', o, x) {
    }
    forall o ensures Owns(s', o, x0) <==> o == OfProcess(pid) {
      assert !Owns(s, o, x0);
    }
    ChangeKeeps(s, s', x0, OfProcess(pid));
  }

  /** A process gives up the number x0 it held: to an invoice that had none, or to nobody. */
  predicate GivenUp(s: State, s': State, pid: nat, x0: Slot, taker: Option<Id>)
    requires pid in s.procs
  {
    && s'.db.counters == s.db.counters
    && s'.procs == Settle(s.procs, pid, if pid in s'.procs then Some(s'.procs[pid]) else None)
    && HeldBy(s.procs[pid]) == {x0}
    && (pid in s'.procs ==> HeldBy(s'.procs[pid]) == {})
    && match taker
       case None => s'.db.invoices == s.db.invoices && s'.burnt == s.burnt + {x0}
       case Some(id) =>
         && id in s.db.invoices && s.db.invoices[id].tenant == x0.0 && s.db.invoices[id].number.None?
         && id in s'.db.invoices && s'.db.invoices == s.db.invoices[id := s'.db.invoices[id]]
         && s'.db.invoices[id].tenant == x0.0 && s'.db.invoices[id].number == Some(Number(x0.1, x0.2))
         && s'.burnt == s.burnt
  }

  lemma GivenUpKeeps(s: State, s': State, pid: nat, x0: Slot, taker: Option<Id>)
    requires NumInv(s) && pid in s.procs && GivenUp(s, s', pid, x0, taker)
    ensures NumInv(s')
  {
    var o0 := if taker.Some? then OfInvoice(taker.value) else Nobody;
    assert OneOwner(s, x0) && Owns(s, OfProcess(pid), x0);
    assert forall o :: Owns(s, o, x0) <==> o == OfProcess(pid);
    hide NumInv, OneOwner, HeldBy;
    forall o, x: Slot | x != x0 ensures Owns(s, o, x) <==> Owns(s', o, x) {
    }
    forall o ensures Owns(s', o, x0) <==> o == o0 {
      assert Owns(s, o, x0) <==> o == OfProcess(pid);
    }
    ChangeKeeps(s, s', x0, o0);
  }

  /** The claim gives the held number to the draft it finds. */
  lemma ClaimGivesUp(c: Catalog, s: State, pid: nat) returns (taker: Option<Id>)
    requires Inv(c, s) && NumInv(s) && pid in s.procs && s.procs[pid].IssueClaim?
    ensures var p := s.procs[pid];
            GivenUp(s, Apply(s, pid, AdvanceIssue(s.db, s.now, p)), pid, (p.tenant, YearOf(p.at), p.sequence), taker)
  {
    hide Inv, NumInv, NumberTaken, AdvanceIssue, Success, YearOf, GivenUp, Apply;
    var p := s.procs[pid];
    var number := Number(YearOf(p.at), p.sequence);
    IndexNeverFires(s, pid);
    ClaimStep(s.db, s.now, p);
    if FindInvoice(s.db, p.tenant, p.invoice).Some? && s.db.invoices[p.invoice].status == Draft {
      DraftUnnumbered(c, s, p.tenant, p.invoice);
      ClaimWon(s, pid, p.invoice, Issued(s.db.invoices[p.invoice], p.at, number));
      taker := Some(p.invoice);
    } else {
      ClaimLost(s, pid);
      taker := None;
    }
  }

  lemma ClaimWon(s: State, pid: nat, id: Id, issued: Invoice)
    requires pid in s.procs && s.procs[pid].IssueClaim? && s.procs[pid].invoice == id
    requires id in s.db.invoices && s.db.invoices[id].tenant == s.procs[pid].tenant == issued.tenant && s.db.invoices[id].number.None?
    requires issued.number == Some(Number(YearOf(s.procs[pid].at), s.procs[pid].sequence))
    ensures var p := s.procs[pid];
            GivenUp(s, Apply(s, pid, Quiet(s.db.(invoices := s.db.invoices[id := issued]), Success(p.tenant, p.k))), pid,
                    (p.tenant, YearOf(p.at), p.sequence), Some(id))
  {
    hide YearOf;
    assert s.burnt + {} == s.burnt;
  }

  lemma ClaimLost(s: State, pid: nat)
    requires pid in s.procs && s.procs[pid].IssueClaim?
    ensures var p := s.procs[pid];
            var x0 := (p.tenant, YearOf(p.at), p.sequence);
            GivenUp(s, Apply(s, pid, Effect(s.db, Some(IssueReread(p.tenant, p.invoice, p.k)), {x0}, [])), pid, x0, None)
  {
    hide YearOf;
  }

  /** The claim step when the number is free. */
  lemma ClaimStep(db: Db, now: nat, p: Proc)
    requires p.IssueClaim? && !NumberTaken(db, p.tenant, Number(YearOf(p.at), p.sequence))
    ensures AdvanceIssue(db, now, p)
         == if FindInvoice(db, p.tenant, p.invoice).Some? && db.invoices[p.invoice].status == Draft
            then Quiet(db.(invoices := db.invoices[p.invoice := Issued(db.invoices[p.invoice], p.at, Number(YearOf(p.at), p.sequence))]),
                       Success(p.tenant, p.k))
            else Effect(db, Some(IssueReread(p.tenant, p.invoice, p.k)), {(p.tenant, YearOf(p.at), p.sequence)}, [])
  {
    hide NumberTaken;
  }

  lemma DraftUnnumbered(c: Catalog, s: State, t: Id, id: Id)
    requires Inv(c, s) && FindInvoice(s.db, t, id).Some? && s.db.invoices[id].status == Draft
    ensures s.db.invoices[id].number.None? && s.db.invoices[id].tenant == t
  {
    assert Lifecycle(s.db.invoices[id], s.now);
  }

  lemma ClaimMoves(c: Catalog, s: State, pid: nat)
    requires Inv(c, s) && NumInv(s) && pid in s.procs && s.procs[pid].IssueClaim?
    ensures NumInv(Apply(s, pid, AdvanceIssue(s.db, s.now, s.procs[pid])))
  {
    hide Inv, NumInv, GivenUp, Apply, AdvanceIssue;
    var p := s.procs[pid];
    var taker := ClaimGivesUp(c, s, pid);
    GivenUpKeeps(s, Apply(s, pid, AdvanceIssue(s.db, s.now, p)), pid, (p.tenant, YearOf(p.at), p.sequence), taker);
  }

  lemma CrashKeeps(c: Catalog, s: State, pid: nat)
    requires NumInv(s) && pid in s.procs
    ensures NumInv(Step(c, s, Crash(pid)))
  {
    hide NumInv;
    var p := s.procs[pid];
    var s' := Step(c, s, Crash(pid));
    if p.IssueClaim? {
      GivenUpKeeps(s, s', pid, (p.tenant, YearOf(p.at), p.sequence), None);
    } else {
      UntouchedKeeps(s, s');
    }
  }

  lemma IssueReadsUntouched(s: State, pid: nat)
    requires pid in s.procs && InIssue(s.procs[pid]) && !s.procs[pid].IssueAllocate? && !s.procs[pid].IssueClaim?
    ensures NumbersUntouched(s, Apply(s, pid, AdvanceIssue(s.db, s.now, s.procs[pid])))
  {
  }

  lemma AdHocUntouched(c: Catalog, s: State, pid: nat, pick: Option<Id>)
    requires pid in s.procs && InAdHoc(s.procs[pid])
    ensures NumbersUntouched(s, Apply(s, pid, AdvanceAdHoc(c, s.db, s.procs[pid], pick)))
  {
    hide BillFor, CreateDraft;
    var p := s.procs[pid];
    if p.AdHocCreate? && pick.Some? && pick.value !in s.db.invoices {
      DraftHasNoNumber(s.db, p.tenant, pick.value, p.bill);
    }
  }

  lemma BillingUntouched(c: Catalog, s: State, pid: nat, pick: Option<Id>)
    requires pid in s.procs && InBilling(s.procs[pid])
    ensures NumbersUntouched(s, Apply(s, pid, AdvanceBilling(c, s.db, s.now, s.procs[pid], pick)))
  {
    hide BillFor, CreateDraft, ComputeBillingPeriod, PeriodAnswer, IsIssued;
    var p := s.procs[pid];
    if p.BillCreate? && pick.Some? && pick.value !in s.db.invoices {
      DraftHasNoNumber(s.db, p.tenant, pick.value, p.bill);
    }
  }

  lemma DunningUntouched(s: State, pid: nat)
    requires pid in s.procs && InDunning(s.procs[pid])
    ensures NumbersUntouched(s, Apply(s, pid, AdvanceDunning(s.db, s.now, s.procs[pid])))
  {
  }

  lemma PaymentUntouched(s: State, pid: nat)
    requires pid in s.procs && InPayment(s.procs[pid])
    ensures NumbersUntouched(s, Apply(s, pid, AdvancePayment(s.db, s.now, s.procs[pid])))
  {
  }

  lemma OthersUntouched(c: Catalog, s: State, pid: nat, pick: Option<Id>)
    requires pid in s.procs && !s.procs[pid].IssueAllocate? && !s.procs[pid].IssueClaim?
    ensures NumbersUntouched(s, Apply(s, pid, Advance(c, s.db, s.now, s.procs[pid], pick)))
  {
    hide NumbersUntouched, AdvanceIssue, AdvanceAdHoc, AdvanceBilling, AdvanceDunning, AdvancePayment;
    var p := s.procs[pid];
    if InIssue(p) { IssueReadsUntouched(s, pid); }
    else if InAdHoc(p) { AdHocUntouched(c, s, pid, pick); }
    else if InBilling(p) { BillingUntouched(c, s, pid, pick); }
    else if InDunning(p) { DunningUntouched(s, pid); }
    else { PaymentUntouched(s, pid); }
  }

  lemma DraftHasNoNumber(db: Db, t: Id, id: Id, bill: Bill)
    requires id !in db.invoices
    ensures CreateDraft(db, t, id, bill).Ok? ==>
              CreateDraft(db, t, id, bill).value == db.(invoices := db.invoices[id := DraftOf(t, bill)])
              && DraftOf(t, bill).number.None?
  {
  }

  lemma StepKeepsNumbers(c: Catalog, s: State, a: Action)
    requires Inv(c, s) && NumInv(s)
    ensures NumInv(Step(c, s, a))
  {
    hide NumInv, Inv, NumbersUntouched;
    if a.Next? && a.pid in s.procs {
      var p := s.procs[a.pid];
      if p.IssueAllocate? { AllocationKeeps(c, s, a.pid); }
      else if p.IssueClaim? { ClaimMoves(c, s, a.pid); }
      else {
        OthersUntouched(c, s, a.pid, a.pick);
        UntouchedKeeps(s, Step(c, s, a));
      }
    } else if a.Crash? && a.pid in s.procs {
      CrashKeeps(c, s, a.pid);
    } else {
      StartsUntouched(c, s, a);
      UntouchedKeeps(s, Step(c, s, a));
    }
  }

  lemma StartsUntouched(c: Catalog, s: State, a: Action)
    requires !((a.Next? || a.Crash?) && a.pid in s.procs)
    ensures NumbersUntouched(s, Step(c, s, a))
  {
  }

  lemma {:induction false} NumbersHold(c: Catalog, actions: seq<Action>)
    ensures NumInv(Run(c, INITIAL, actions))
  {
    hide NumInv, Inv, Step;
    if actions == [] {
      NothingOwned();
    } else {
      NumbersHold(c, actions[..|actions| - 1]);
      Reachable(c, actions[..|actions| - 1]);
      StepKeepsNumbers(c, Run(c, INITIAL, actions[..|actions| - 1]), actions[|actions| - 1]);
    }
  }

  lemma NothingOwned()
    ensures NumInv(INITIAL)
  {
  }

  // ---- What it means ----

  /** Two invoices of one tenant never carry the same number, nor print the same text. */
  lemma NumbersDistinct(c: Catalog, actions: seq<Action>, a: Id, b: Id)
    requires var db := Run(c, INITIAL, actions).db;
             a in db.invoices && b in db.invoices && a != b && db.invoices[a].tenant == db.invoices[b].tenant
             && db.invoices[a].number.Some? && db.invoices[b].number.Some?
    ensures var db := Run(c, INITIAL, actions).db;
            var x, y := db.invoices[a].number.value, db.invoices[b].number.value;
            x != y && InvoiceNumber.Format(x.year, x.sequence) != InvoiceNumber.Format(y.year, y.sequence)
  {
    var s := Run(c, INITIAL, actions);
    NumbersHold(c, actions);
    var x, y := s.db.invoices[a].number.value, s.db.invoices[b].number.value;
    var slot := (s.db.invoices[a].tenant, x.year, x.sequence);
    assert OneOwner(s, slot) && Owns(s, OfInvoice(a), slot);
    assert x == y ==> Owns(s, OfInvoice(b), slot);
    InvoiceNumber.FormatInjective(x.year, x.sequence, y.year, y.sequence);
  }

  function Carriers(s: State, t: Id, year: nat): set<Id> {
    set id | id in s.db.invoices && s.db.invoices[id].tenant == t && s.db.invoices[id].number.Some?
             && s.db.invoices[id].number.value.year == year
  }

  function Holders(s: State, t: Id, year: nat): set<nat> {
    set pid | pid in s.procs && s.procs[pid].IssueClaim? && s.procs[pid].tenant == t && YearOf(s.procs[pid].at) == year
  }

  function Burnt(s: State, t: Id, year: nat): set<Slot> {
    set x | x in s.burnt && x.0 == t && x.1 == year
  }

  // the owners of the numbers up to n

  function CarriersTo(s: State, t: Id, year: nat, n: nat): set<Id> {
    set id | id in Carriers(s, t, year) && s.db.invoices[id].number.value.sequence <= n
  }

  function HoldersTo(s: State, t: Id, year: nat, n: nat): set<nat> {
    set pid | pid in Holders(s, t, year) && s.procs[pid].sequence <= n
  }

  function BurntTo(s: State, t: Id, year: nat, n: nat): set<Slot> {
    set x | x in Burnt(s, t, year) && x.2 <= n
  }

  lemma NoneBelowOne(s: State, t: Id, year: nat)
    requires NumInv(s)
    ensures CarriersTo(s, t, year, 0) == {} && HoldersTo(s, t, year, 0) == {} && BurntTo(s, t, year, 0) == {}
  {
    var x := (t, year, 0);
    assert OneOwner(s, x);
    assert forall id :: id in CarriersTo(s, t, year, 0) ==> Owns(s, OfInvoice(id), x);
    assert forall pid :: pid in HoldersTo(s, t, year, 0) ==> Owns(s, OfProcess(pid), x);
    assert forall y :: y in BurntTo(s, t, year, 0) ==> y == x && Owns(s, Nobody, x);
  }

  lemma CarrierStep(s: State, t: Id, year: nat, n: nat, o: Owner)
    requires n > 0 && OneOwner(s, (t, year, n)) && Owns(s, o, (t, year, n))
    ensures CarriersTo(s, t, year, n) == CarriersTo(s, t, year, n - 1) + (if o.OfInvoice? then {o.id} else {})
    ensures o.OfInvoice? ==> o.id !in CarriersTo(s, t, year, n - 1)
  {
    forall id | id in CarriersTo(s, t, year, n) && id !in CarriersTo(s, t, year, n - 1) ensures o == OfInvoice(id) {
      assert Owns(s, OfInvoice(id), (t, year, n));
    }
  }

  lemma HolderStep(s: State, t: Id, year: nat, n: nat, o: Owner)
    requires n > 0 && OneOwner(s, (t, year, n)) && Owns(s, o, (t, year, n))
    ensures HoldersTo(s, t, year, n) == HoldersTo(s, t, year, n - 1) + (if o.OfProcess? then {o.pid} else {})
    ensures o.OfProcess? ==> o.pid !in HoldersTo(s, t, year, n - 1)
  {
    forall pid | pid in HoldersTo(s, t, year, n) && pid !in HoldersTo(s, t, year, n - 1) ensures o == OfProcess(pid) {
      assert Owns(s, OfProcess(pid), (t, year, n));
    }
  }

  lemma BurntStep(s: State, t: Id, year: nat, n: nat, o: Owner)
    requires n > 0 && OneOwner(s, (t, year, n)) && Owns(s, o, (t, year, n))
    ensures BurntTo(s, t, year, n) == BurntTo(s, t, year, n - 1) + (if o.Nobody? then {(t, year, n)} else {})
    ensures o.Nobody? ==> (t, year, n) !in BurntTo(s, t, year, n - 1)
  {
    forall x | x in BurntTo(s, t, year, n) && x !in BurntTo(s, t, year, n - 1) ensures o == Nobody && x == (t, year, n) {
      assert x == (t, year, n) && Owns(s, Nobody, (t, year, n));
    }
  }

  lemma OwnerOf(s: State, x: Slot) returns (o: Owner)
    requires NumInv(s) && HandedOut(s, x)
    ensures OneOwner(s, x) && Owns(s, o, x)
  {
    assert OneOwner(s, x);
    o :| Owns(s, o, x);
  }

  lemma {:induction false} CountOwners(s: State, t: Id, year: nat, n: nat)
    requires NumInv(s) && n <= CounterOf(s.db, t, year)
    ensures n == |CarriersTo(s, t, year, n)| + |HoldersTo(s, t, year, n)| + |BurntTo(s, t, year, n)|
  {
    if n == 0 {
      NoneBelowOne(s, t, year);
    } else {
      hide NumInv, OneOwner, Owns, CarriersTo, HoldersTo, BurntTo;
      CountOwners(s, t, year, n - 1);
      var o := OwnerOf(s, (t, year, n));
      CarrierStep(s, t, year, n, o);
      HolderStep(s, t, year, n, o);
      BurntStep(s, t, year, n, o);
    }
  }

  ghost predicate Carried(s: State, x: Slot) {
    exists id :: Owns(s, OfInvoice(id), x)
  }

  /** Every number the counter has handed out is on an invoice. */
  ghost predicate Gapless(s: State, t: Id, year: nat) {
    forall x: Slot :: x.0 == t && x.1 == year && HandedOut(s, x) ==> Carried(s, x)
  }

  /** Conservation, at every moment of every run: the counter equals the invoices numbered for that
      tenant and year, plus the numbers in flight, plus the numbers lost. So the numbering is gapless
      exactly when none is in flight and none was lost. */
  lemma NumbersConserved(c: Catalog, actions: seq<Action>, t: Id, year: nat)
    ensures var s := Run(c, INITIAL, actions);
            && CounterOf(s.db, t, year) == |Carriers(s, t, year)| + |Holders(s, t, year)| + |Burnt(s, t, year)|
            && (Gapless(s, t, year) <==> Holders(s, t, year) == {} && Burnt(s, t, year) == {})
  {
    var s := Run(c, INITIAL, actions);
    NumbersHold(c, actions);
    hide Run, NumInv, Gapless, Carriers, Holders, Burnt;
    CountOwners(s, t, year, CounterOf(s.db, t, year));
    AllWithinCounter(s, t, year);
    GaplessWhenSettled(s, t, year);
  }

  lemma AllWithinCounter(s: State, t: Id, year: nat)
    requires NumInv(s)
    ensures var n := CounterOf(s.db, t, year);
            && CarriersTo(s, t, year, n) == Carriers(s, t, year)
            && HoldersTo(s, t, year, n) == Holders(s, t, year)
            && BurntTo(s, t, year, n) == Burnt(s, t, year)
  {
    forall id | id in Carriers(s, t, year) ensures s.db.invoices[id].number.value.sequence <= CounterOf(s.db, t, year) {
      var x := (t, year, s.db.invoices[id].number.value.sequence);
      assert OneOwner(s, x) && Owns(s, OfInvoice(id), x);
    }
    forall pid | pid in Holders(s, t, year) ensures s.procs[pid].sequence <= CounterOf(s.db, t, year) {
      var x := (t, year, s.procs[pid].sequence);
      assert OneOwner(s, x) && Owns(s, OfProcess(pid), x);
    }
    forall x | x in Burnt(s, t, year) ensures x.2 <= CounterOf(s.db, t, year) {
      assert OneOwner(s, x) && Owns(s, Nobody, x);
    }
  }

  lemma OnlyInvoiceOwns(s: State, x: Slot, o: Owner)
    requires OneOwner(s, x) && Owns(s, o, x) && !o.OfInvoice?
    ensures HandedOut(s, x) && !Carried(s, x)
  {
  }

  lemma OwnerPlace(s: State, t: Id, year: nat, q: nat, o: Owner)
    requires Owns(s, o, (t, year, q))
    ensures o.OfInvoice? || Holders(s, t, year) != {} || Burnt(s, t, year) != {}
  {
    if o.OfProcess? { assert o.pid in Holders(s, t, year); }
    if o.Nobody? { assert (t, year, q) in Burnt(s, t, year); }
  }

  lemma GaplessWhenSettled(s: State, t: Id, year: nat)
    requires NumInv(s)
    ensures Gapless(s, t, year) <==> Holders(s, t, year) == {} && Burnt(s, t, year) == {}
  {
    forall pid | pid in Holders(s, t, year) ensures !Gapless(s, t, year) {
      var x := (t, year, s.procs[pid].sequence);
      assert OneOwner(s, x) && Owns(s, OfProcess(pid), x);
      OnlyInvoiceOwns(s, x, OfProcess(pid));
    }
    forall x | x in Burnt(s, t, year) ensures !Gapless(s, t, year) {
      assert x == (t, year, x.2) && OneOwner(s, x) && Owns(s, Nobody, x);
      OnlyInvoiceOwns(s, x, Nobody);
    }
    if Holders(s, t, year) == {} && Burnt(s, t, year) == {} {
      forall x: Slot | x.0 == t && x.1 == year && HandedOut(s, x) ensures Carried(s, x) {
        assert OneOwner(s, x);
        var o :| Owns(s, o, x);
        OwnerPlace(s, t, year, x.2, o);
        assert Owns(s, OfInvoice(o.id), x);
      }
    }
  }
}
