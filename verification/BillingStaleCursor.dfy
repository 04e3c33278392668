/** The guard on the cursor write compares the new period with what the run itself read earlier, so a
    run that sleeps while another bills two periods moves the cursor back when it wakes. */
module BillingStaleCursor {
  import opened Outcomes
  import opened Calendar
  import opened Money
  import opened BillingStore
  import opened BillingMachine
  import opened BillingInvariant
  import opened BillingRuns
  import opened BillingInAdvance
  import opened BillingCatchUp

  const MONTHLY: Catalog := Catalog(map["gold" := Plan("Gold", Money(29900, SEK), 1, None)], map[])

  const MEMBERSHIP: Enrollment := Enrollment("dojo", "kim", "gold", Date(1970, 1, 1), Active, None)

  function Opening(): State {
    State(EMPTY.(enrollments := map["e" := MEMBERSHIP]), 31 * DAY, map[], {}, [])
  }

  lemma OpeningReached()
    ensures Run(MONTHLY, INITIAL, [NewEnrollment("e", MEMBERSHIP)] + [Tick(31 * DAY)]) == Opening()
  {
    var s1 := Step(MONTHLY, INITIAL, NewEnrollment("e", MEMBERSHIP));
    OneAction(MONTHLY, INITIAL, NewEnrollment("e", MEMBERSHIP));
    OneAction(MONTHLY, s1, Tick(31 * DAY));
    RunAppend(MONTHLY, INITIAL, [NewEnrollment("e", MEMBERSHIP)], [Tick(31 * DAY)]);
    assert EMPTY.enrollments["e" := MEMBERSHIP] == map["e" := MEMBERSHIP];
  }

  lemma FirstOfFebruary()
    ensures AsOf(31 * DAY) == Date(1970, 2, 1)
  {
    assert DaysBeforeMonth(1970, 2) == 31;
    WalkReachesEveryDay(UNIX_EPOCH, Date(1970, 2, 1), 31);
  }

  lemma TwoPeriodsDue()
    ensures HasChain(MONTHLY, MEMBERSHIP)
    ensures PeriodAt(MONTHLY, MEMBERSHIP, 0) == Period(Date(1970, 1, 1), Date(1970, 2, 1))
    ensures PeriodAt(MONTHLY, MEMBERSHIP, 1).start == Date(1970, 2, 1)
    ensures Begun(31 * DAY, PeriodAt(MONTHLY, MEMBERSHIP, 0).start)
    ensures Begun(31 * DAY, PeriodAt(MONTHLY, MEMBERSHIP, 1).start)
  {
    FirstOfFebruary();
    hide AsOf;
    var start := Date(1970, 1, 1);
    assert Boundary(start, 1, 0) == start;
    assert Boundary(start, 1, 1) == AddMonths(start, 1) == Date(1970, 2, 1);
  }

  /** The enrollment of the run, wherever its cursor is. */
  predicate Terms(s: State) {
    "e" in s.db.enrollments && s.db.enrollments["e"] == MEMBERSHIP.(currentPeriod := s.db.enrollments["e"].currentPeriod)
  }

  lemma BillsNext(s: State, j: nat) returns (actions: seq<Action>)
    requires Sound(MONTHLY, s) && Terms(s) && s.now == 31 * DAY && 2 !in s.procs && j < 2
    requires OnChain(MONTHLY, s.db, "e", s.db.enrollments["e"].currentPeriod, j)
    ensures var s' := Run(MONTHLY, s, actions);
            Sound(MONTHLY, s') && Terms(s') && s'.now == s.now && s'.procs == s.procs
            && OnChain(MONTHLY, s'.db, "e", s'.db.enrollments["e"].currentPeriod, j + 1)
  {
    TwoPeriodsDue();
    hide Sound, Run, Begun, Boundary, IssuedBelow, CursorAt;
    assert PeriodAt(MONTHLY, s.db.enrollments["e"], j) == PeriodAt(MONTHLY, MEMBERSHIP, j);
    actions := SoloBilling(MONTHLY, s, 2, "dojo", "e", j);
  }

  /** Process 1 stands before its cursor write for the first period; process 2 has billed two. */
  lemma Overtaken() returns (actions: seq<Action>)
    ensures var s := Run(MONTHLY, INITIAL, actions);
            Sound(MONTHLY, s) && Terms(s) && 1 in s.procs
            && s.procs[1] == AdvanceCursor("dojo", "e", None, PeriodAt(MONTHLY, MEMBERSHIP, 0))
            && OnChain(MONTHLY, s.db, "e", s.db.enrollments["e"].currentPeriod, 2)
  {
    var opening := [NewEnrollment("e", MEMBERSHIP)] + [Tick(31 * DAY)];
    OpeningReached();
    SoundReachable(MONTHLY, opening);
    TwoPeriodsDue();
    assert OnChain(MONTHLY, Opening().db, "e", None, 0);
    var s := Opening();
    hide Sound, Run, Begun, Boundary, OnChain;
    var a := SoloToCursor(MONTHLY, s, 1, "dojo", "e", 0);
    var s1 := Run(MONTHLY, s, a);
    SoundRun(MONTHLY, s, a);
    OnChainStable(MONTHLY, s.db, s1.db, "e", None, 0);
    var b := BillsNext(s1, 0);
    var d := BillsNext(Run(MONTHLY, s1, b), 1);
    RunAppend(MONTHLY, INITIAL, opening, a);
    RunAppend(MONTHLY, INITIAL, opening + a, b);
    RunAppend(MONTHLY, INITIAL, opening + a + b, d);
    actions := opening + a + b + d;
  }

  /** The late write of process 1. */
  lemma LateWrite(s: State)
    requires Sound(MONTHLY, s) && Terms(s) && 1 in s.procs
    requires s.procs[1] == AdvanceCursor("dojo", "e", None, PeriodAt(MONTHLY, MEMBERSHIP, 0))
    requires OnChain(MONTHLY, s.db, "e", s.db.enrollments["e"].currentPeriod, 2)
    ensures var s' := Step(MONTHLY, s, Next(1, None));
            && "e" in s'.db.enrollments
            && var was, left := s.db.enrollments["e"].currentPeriod, s'.db.enrollments["e"].currentPeriod;
               was.Some? && left.Some? && Before(left.value.end, was.value.end)
  {
    hide ProcInv, OnChain, AdvanceBilling, PeriodAt, Before, Inv, Terms, Linked, DbInv;
    var p := s.procs[1];
    LateCall(s);
    CursorWriteDirection(MONTHLY, s, p, 2, 0);
  }

  /** What the late call relies on: it has read an empty cursor. */
  lemma LateCall(s: State)
    requires Sound(MONTHLY, s) && 1 in s.procs
    requires s.procs[1] == AdvanceCursor("dojo", "e", None, PeriodAt(MONTHLY, MEMBERSHIP, 0))
    ensures Inv(MONTHLY, s) && ProcInv(MONTHLY, s.db, s.now, s.log, s.procs[1]) && OnChain(MONTHLY, s.db, "e", None, 0)
  {
    hide AllBegun, DbInv, PeriodAt, Boundary, IssuedBelow;
    assert ProcInv(MONTHLY, s.db, s.now, s.log, s.procs[1]);
  }

  /** A concrete run in which the cursor moves back: the stored cursor ends later before the step than
      after it, although the write passed the guard. */
  lemma CursorCanMoveBack() returns (actions: seq<Action>)
    ensures "e" in Run(MONTHLY, INITIAL, actions).db.enrollments
    ensures "e" in Run(MONTHLY, INITIAL, actions + [Next(1, None)]).db.enrollments
    ensures var was := Run(MONTHLY, INITIAL, actions).db.enrollments["e"].currentPeriod;
            var left := Run(MONTHLY, INITIAL, actions + [Next(1, None)]).db.enrollments["e"].currentPeriod;
            was.Some? && left.Some? && Before(left.value.end, was.value.end)
  {
    hide Run, Step, Sound, OnChain, Before, PeriodAt;
    actions := Overtaken();
    var s := Run(MONTHLY, INITIAL, actions);
    LateWrite(s);
    RunAppend(MONTHLY, INITIAL, actions, [Next(1, None)]);
    OneAction(MONTHLY, s, Next(1, None));
  }
}
