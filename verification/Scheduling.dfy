/** Class occurrences and their reminders: materialising a window of occurrences under a unique key, and
    claiming a booking before its reminder is sent. */
module Scheduling {
  // ---- Materialising occurrences ----

  /** What identifies an occurrence within the tenant: its schedule and its start. */
  datatype Key = Key(schedule: string, startsAt: int)

  datatype Status = Scheduled | Cancelled

  datatype Occurrence = Occurrence(program: string, location: string, endsAt: int, capacity: int, status: Status)

  datatype Input = Input(key: Key, program: string, location: string, endsAt: int, capacity: int)

  /** The tenant's rows: the unique index makes the key one. */
  type Rows = map<Key, Occurrence>

  function RowOf(i: Input): Occurrence {
    Occurrence(i.program, i.location, i.endsAt, i.capacity, Scheduled)
  }

  /** The row holds what was asked for, and is on. */
  predicate AsAsked(row: Occurrence, i: Input) {
    && row.program == i.program && row.location == i.location && row.endsAt == i.endsAt && row.capacity == i.capacity
    && row.status == Scheduled
  }

  function KeysOf(inputs: seq<Input>): set<Key> {
    set i | 0 <= i < |inputs| :: inputs[i].key
  }

  class ClassOccurrenceRepository {
    var rows: Rows

    constructor ()
      ensures rows == map[]
    {
      rows := map[];
    }

    /** Upsert each input with `$setOnInsert` only: new keys are added, existing rows are left alone, and
        the count is that of the new rows. */
    method Materialize(inputs: seq<Input>) returns (upserted: nat)
      modifies this
      ensures rows == Materialized(old(rows), inputs)
      ensures upserted == |KeysOf(inputs) - old(rows).Keys|
    {
      upserted := 0;
      ghost var was := rows;
      hide Materialized, KeysOf;
      NothingAsked(rows);
      for i := 0 to |inputs|
        invariant rows == Materialized(was, inputs[..i])
        invariant upserted == |KeysOf(inputs[..i]) - was.Keys|
      {
        MaterializedNext(was, inputs, i);
        NewKeysNext(was, inputs, i);
        var row := inputs[i];
        if row.key !in rows {
          rows := rows[row.key := RowOf(row)];
          upserted := upserted + 1;
        }
      }
      assert inputs[..|inputs|] == inputs;
    }
  }

  function Materialized(rows: Rows, inputs: seq<Input>): Rows {
    if inputs == [] then rows
    else
      var before, last := Materialized(rows, inputs[..|inputs| - 1]), inputs[|inputs| - 1];
      if last.key in before then before else before[last.key := RowOf(last)]
  }

  lemma KeysNext(inputs: seq<Input>, n: nat)
    requires n < |inputs|
    ensures KeysOf(inputs[..n + 1]) == KeysOf(inputs[..n]) + {inputs[n].key}
  {
    assert inputs[..n + 1] == inputs[..n] + [inputs[n]];
    forall k ensures k in KeysOf(inputs[..n + 1]) <==> k in KeysOf(inputs[..n]) + {inputs[n].key} {
      if k in KeysOf(inputs[..n + 1]) {
        var i :| 0 <= i < n + 1 && inputs[..n + 1][i].key == k;
        assert i < n ==> inputs[..n][i].key == k;
      }
      if k in KeysOf(inputs[..n]) {
        var i :| 0 <= i < n && inputs[..n][i].key == k;
        assert inputs[..n + 1][i].key == k;
      }
      assert inputs[..n + 1][n].key == inputs[n].key;
    }
  }

  lemma MaterializedNext(rows: Rows, inputs: seq<Input>, n: nat)
    requires n < |inputs|
    ensures var before := Materialized(rows, inputs[..n]);
            Materialized(rows, inputs[..n + 1])
            == (if inputs[n].key in before then before else before[inputs[n].key := RowOf(inputs[n])])
    ensures KeysOf(inputs[..n + 1]) == KeysOf(inputs[..n]) + {inputs[n].key}
  {
    assert inputs[..n + 1][..n] == inputs[..n];
    KeysNext(inputs, n);
  }

  lemma NothingAsked(rows: Rows)
    ensures forall inputs: seq<Input> :: Materialized(rows, inputs[..0]) == rows && KeysOf(inputs[..0]) == {}
  {
  }

  lemma OneMore(a: set<Key>, base: set<Key>, k: Key)
    ensures |a + {k} - base| == |a - base| + (if k in base + a then 0 else 1)
  {
    if k in base + a {
      assert a + {k} - base == a - base;
    } else {
      assert a + {k} - base == (a - base) + {k};
    }
  }

  lemma KeySet(rows: Rows, inputs: seq<Input>)
    ensures Materialized(rows, inputs).Keys == rows.Keys + KeysOf(inputs)
    ensures forall k :: k in rows ==> Materialized(rows, inputs)[k] == rows[k]
  {
    MaterializedKeys(rows, inputs);
  }

  lemma NewKeysNext(rows: Rows, inputs: seq<Input>, n: nat)
    requires n < |inputs|
    ensures |KeysOf(inputs[..n + 1]) - rows.Keys|
         == |KeysOf(inputs[..n]) - rows.Keys| + (if inputs[n].key in Materialized(rows, inputs[..n]) then 0 else 1)
  {
    hide KeysOf, Materialized;
    KeysNext(inputs, n);
    KeySet(rows, inputs[..n]);
    OneMore(KeysOf(inputs[..n]), rows.Keys, inputs[n].key);
  }

  /** After materialising: the keys are the old ones and those asked for, and no existing row changed. */
  lemma {:induction false} MaterializedKeys(rows: Rows, inputs: seq<Input>)
    ensures Materialized(rows, inputs).Keys == rows.Keys + KeysOf(inputs)
    ensures forall k :: k in rows ==> Materialized(rows, inputs)[k] == rows[k]
    ensures forall k :: k in Materialized(rows, inputs) && k !in rows ==>
              exists i :: 0 <= i < |inputs| && inputs[i].key == k && AsAsked(Materialized(rows, inputs)[k], inputs[i])
  {
    if inputs != [] {
      var n := |inputs| - 1;
      MaterializedKeys(rows, inputs[..n]);
      KeysNext(inputs, n);
      assert inputs[..n + 1] == inputs;
      forall k | k in Materialized(rows, inputs) && k !in rows
        ensures exists i :: 0 <= i < |inputs| && inputs[i].key == k && AsAsked(Materialized(rows, inputs)[k], inputs[i])
      {
        if k in Materialized(rows, inputs[..n]) {
          var i :| 0 <= i < n && inputs[..n][i].key == k && AsAsked(Materialized(rows, inputs[..n])[k], inputs[..n][i]);
          assert inputs[i] == inputs[..n][i];
        }
      }
    }
  }

  /** Overlapping windows, in any order and however often: the keys are the union, and a row stays what the
      first window that asked for it made it. */
  lemma WindowsInAnyOrder(rows: Rows, a: seq<Input>, b: seq<Input>)
    ensures Materialized(Materialized(rows, a), b).Keys == Materialized(Materialized(rows, b), a).Keys == rows.Keys + KeysOf(a) + KeysOf(b)
    ensures Materialized(Materialized(rows, a), a) == Materialized(rows, a)
    ensures forall k :: k in Materialized(rows, a) ==>
              k in Materialized(Materialized(rows, a), b) && Materialized(Materialized(rows, a), b)[k] == Materialized(rows, a)[k]
  {
    hide Materialized, KeysOf;
    KeySet(rows, a);
    KeySet(rows, b);
    KeySet(Materialized(rows, a), b);
    KeySet(Materialized(rows, b), a);
    KeySet(Materialized(rows, a), a);
  }

  // ---- Reminders: claim, then send ----

  datatype Tally = Tally(considered: nat, sent: nat, alreadySent: nat, noRecipient: nat, failed: nat)

  /** A sweep between two steps: about to list the bookings of the next of `left` occurrences, about to
      claim a booking, or having claimed it and about to send. */
  datatype Sweep =
    | Listing(left: nat, tally: Tally)
    | Claiming(todo: seq<string>, left: nat, tally: Tally)
    | Sending(booking: string, todo: seq<string>, left: nat, tally: Tally)

  datatype Delivery = Delivered | NoRecipient | Threw

  /** `claimed` are the bookings whose reminder mark is set; `outbox` the reminders handed to the sender, in
      order. */
  datatype State = State(claimed: set<string>, sweeps: map<nat, Sweep>, outbox: seq<string>, reports: map<nat, Tally>)

  const INITIAL: State := State({}, map[], [], map[])

  /** `booked` is what the roster lists, `delivery` what the sender answers. */
  datatype Action =
    | Start(pid: nat, occurrences: nat)
    | Next(pid: nat, booked: seq<string>, delivery: Delivery)
    | Crash(pid: nat)

  function Without(sweeps: map<nat, Sweep>, pid: nat): map<nat, Sweep> {
    map q | q in sweeps && q != pid :: sweeps[q]
  }

  function Counted(t: Tally, d: Delivery): Tally {
    match d
    case Delivered => t.(sent := t.sent + 1)
    case NoRecipient => t.(noRecipient := t.noRecipient + 1)
    case Threw => t.(failed := t.failed + 1)
  }

  function Step(s: State, a: Action): State {
    match a
    case Start(pid, occurrences) =>
      if pid in s.sweeps then s else s.(sweeps := s.sweeps[pid := Listing(occurrences, Tally(0, 0, 0, 0, 0))])
    case Crash(pid) => s.(sweeps := Without(s.sweeps, pid))
    case Next(pid, booked, delivery) =>
      if pid !in s.sweeps then s
      else
        match s.sweeps[pid]
        case Listing(left, tally) =>
          if left == 0 then s.(sweeps := Without(s.sweeps, pid), reports := s.reports[pid := tally])
          else s.(sweeps := s.sweeps[pid := Claiming(booked, left - 1, tally.(considered := tally.considered + |booked|))])
        case Claiming(todo, left, tally) =>
          if todo == [] then s.(sweeps := s.sweeps[pid := Listing(left, tally)])
          else if todo[0] in s.claimed then
            s.(sweeps := s.sweeps[pid := Claiming(todo[1..], left, tally.(alreadySent := tally.alreadySent + 1))])
          else
            s.(claimed := s.claimed + {todo[0]}, sweeps := s.sweeps[pid := Sending(todo[0], todo[1..], left, tally)])
        case Sending(booking, todo, left, tally) =>
          s.(outbox := s.outbox + [booking], sweeps := s.sweeps[pid := Claiming(todo, left, Counted(tally, delivery))])
  }

  function Run(actions: seq<Action>): State {
    if actions == [] then INITIAL else Step(Run(actions[..|actions| - 1]), actions[|actions| - 1])
  }

  predicate Balanced(t: Tally, left: nat) {
    t.considered == t.sent + t.alreadySent + t.noRecipient + t.failed + left
  }

  /** Bookings counted as considered and not yet dealt with. */
  function Left(w: Sweep): nat {
    match w
    case Listing(_, _) => 0
    case Claiming(todo, _, _) => |todo|
    case Sending(_, todo, _, _) => |todo| + 1
  }

  predicate NoRepeats(xs: seq<string>) {
    forall i, j :: 0 <= i < j < |xs| ==> xs[i] != xs[j]
  }

  /** A sweep that has claimed a booking is the only one, and has not sent for it. */
  predicate SendingOk(s: State, pid: nat)
    requires pid in s.sweeps
  {
    s.sweeps[pid].Sending? ==>
      && s.sweeps[pid].booking in s.claimed && s.sweeps[pid].booking !in s.outbox
      && forall q :: q in s.sweeps && s.sweeps[q].Sending? && s.sweeps[q].booking == s.sweeps[pid].booking ==> q == pid
  }

  ghost predicate Inv(s: State) {
    && (forall b :: b in s.outbox ==> b in s.claimed)
    && NoRepeats(s.outbox)
    && (forall pid :: pid in s.sweeps ==> Balanced(s.sweeps[pid].tally, Left(s.sweeps[pid])))
    && (forall pid :: pid in s.sweeps ==> SendingOk(s, pid))
    && (forall pid :: pid in s.reports ==> Balanced(s.reports[pid], 0))
  }

  lemma SendKeeps(s: State, pid: nat, booked: seq<string>, delivery: Delivery)
    requires Inv(s) && pid in s.sweeps && s.sweeps[pid].Sending?
    ensures Inv(Step(s, Next(pid, booked, delivery)))
  {
    assert SendingOk(s, pid);
    var s' := Step(s, Next(pid, booked, delivery));
    forall q | q in s'.sweeps ensures SendingOk(s', q) { assert SendingOk(s, q); }
  }

  lemma ClaimKeeps(s: State, pid: nat, booked: seq<string>, delivery: Delivery)
    requires Inv(s) && pid in s.sweeps && !s.sweeps[pid].Sending?
    ensures Inv(Step(s, Next(pid, booked, delivery)))
  {
    var s' := Step(s, Next(pid, booked, delivery));
    hide NoRepeats;
    forall q | q in s'.sweeps ensures SendingOk(s', q) { if q != pid { assert SendingOk(s, q); } }
    forall q | q in s'.sweeps ensures Balanced(s'.sweeps[q].tally, Left(s'.sweeps[q])) { }
  }

  lemma StepKeeps(s: State, a: Action)
    requires Inv(s)
    ensures Inv(Step(s, a))
  {
    if a.Next? && a.pid in s.sweeps {
      hide Inv, Step;
      if s.sweeps[a.pid].Sending? { SendKeeps(s, a.pid, a.booked, a.delivery); } else { ClaimKeeps(s, a.pid, a.booked, a.delivery); }
    } else {
      hide NoRepeats, Balanced;
      StartKeeps(s, a);
    }
  }

  lemma StartKeeps(s: State, a: Action)
    requires Inv(s) && !(a.Next? && a.pid in s.sweeps)
    ensures Inv(Step(s, a))
  {
    var s' := Step(s, a);
    forall q | q in s'.sweeps ensures SendingOk(s', q) { if q in s.sweeps { assert SendingOk(s, q); } }
  }

  lemma {:induction false} RunKeeps(actions: seq<Action>)
    ensures Inv(Run(actions))
  {
    hide Inv, Step;
    if actions == [] {
      Nothing();
    } else {
      RunKeeps(actions[..|actions| - 1]);
      StepKeeps(Run(actions[..|actions| - 1]), actions[|actions| - 1]);
    }
  }

  lemma Nothing()
    ensures Inv(INITIAL)
  {
  }

  /** Over any interleaving of sweeps, crashes included: a booking's reminder is handed over at most once,
      and the counters of every finished sweep add up to the bookings it considered. */
  lemma AtMostOnce(actions: seq<Action>, pid: nat)
    ensures var s := Run(actions);
            && (forall i, j :: 0 <= i < j < |s.outbox| ==> s.outbox[i] != s.outbox[j])
            && (pid in s.reports ==>
                  s.reports[pid].considered
                  == s.reports[pid].sent + s.reports[pid].alreadySent + s.reports[pid].noRecipient + s.reports[pid].failed)
  {
    RunKeeps(actions);
  }

  // ---- One sweep, loop by loop ----

  class Roster {
    var claimed: set<string>
    var outbox: seq<string>

    constructor ()
      ensures claimed == {} && outbox == []
    {
      claimed, outbox := {}, [];
    }

    /** Set the reminder mark of a booking that has none. */
    method ClaimForReminder(booking: string) returns (won: bool)
      modifies this`claimed
      ensures won == (booking !in old(claimed)) && claimed == old(claimed) + {booking}
    {
      won := booking !in claimed;
      claimed := claimed + {booking};
    }
  }

  function Members(xs: seq<string>): set<string> {
    set x | x in xs
  }

  function AllBooked(upcoming: seq<seq<string>>): seq<string> {
    if upcoming == [] then [] else AllBooked(upcoming[..|upcoming| - 1]) + upcoming[|upcoming| - 1]
  }

  /** The reminders still to be handed over after `done` bookings of the roster: one for each that was not
      claimed before. */
  ghost predicate HandedOver(was: set<string>, done: seq<string>, handed: seq<string>) {
    NoRepeats(handed) && Members(handed) == Members(done) - was
  }

  lemma HandOneMore(was: set<string>, done: seq<string>, handed: seq<string>, b: string)
    requires HandedOver(was, done, handed)
    ensures HandedOver(was, done + [b], if b in was + Members(done) then handed else handed + [b])
    ensures Members(done + [b]) == Members(done) + {b}
  {
    assert Members(done + [b]) == Members(done) + {b};
    if b !in was + Members(done) {
      assert b !in Members(handed);
      assert Members(handed + [b]) == Members(handed) + {b};
    }
  }

  /** The bookings dealt with before the j-th of the i-th occurrence. */
  function Dealt(upcoming: seq<seq<string>>, i: nat, j: nat): seq<string>
    requires i <= |upcoming| && (i < |upcoming| ==> j <= |upcoming[i]|)
  {
    AllBooked(upcoming[..i]) + (if i < |upcoming| then upcoming[i][..j] else [])
  }

  lemma DealtNext(upcoming: seq<seq<string>>, i: nat, j: nat)
    requires i < |upcoming| && j < |upcoming[i]|
    ensures Dealt(upcoming, i, j + 1) == Dealt(upcoming, i, j) + [upcoming[i][j]]
  {
    hide AllBooked;
    assert upcoming[i][..j + 1] == upcoming[i][..j] + [upcoming[i][j]];
  }

  lemma DealtRow(upcoming: seq<seq<string>>, i: nat)
    requires i < |upcoming|
    ensures Dealt(upcoming, i, |upcoming[i]|) == Dealt(upcoming, i + 1, 0)
  {
    assert upcoming[..i + 1][..i] == upcoming[..i];
    assert upcoming[i][..|upcoming[i]|] == upcoming[i];
  }

  lemma DealtBounds(upcoming: seq<seq<string>>)
    ensures Dealt(upcoming, 0, 0) == [] && Dealt(upcoming, |upcoming|, 0) == AllBooked(upcoming)
  {
    assert upcoming[..|upcoming|] == upcoming;
  }

  /** How many of the bookings handed over the sender answered with d. */
  function Answered(handed: seq<string>, sender: string -> Delivery, d: Delivery): nat {
    |set i | 0 <= i < |handed| && sender(handed[i]) == d|
  }

  lemma AnsweredNext(handed: seq<string>, sender: string -> Delivery, b: string, d: Delivery)
    ensures Answered(handed + [b], sender, d) == Answered(handed, sender, d) + if sender(b) == d then 1 else 0
  {
    var before, after := set i | 0 <= i < |handed| && sender(handed[i]) == d, set i | 0 <= i < |handed| + 1 && sender((handed + [b])[i]) == d;
    assert after == before + if sender(b) == d then {|handed|} else {};
  }

  /** Every counter counts what it says. */
  predicate Tallied(t: Tally, handed: seq<string>, sender: string -> Delivery) {
    && t.sent == Answered(handed, sender, Delivered)
    && t.noRecipient == Answered(handed, sender, NoRecipient)
    && t.failed == Answered(handed, sender, Threw)
  }

  /** Where a sweep stands that found the marks `was` and the outbox `out` and has dealt with `done`, with
      `left` listed bookings to go. */
  ghost predicate Swept(was: set<string>, out: seq<string>, claimed: set<string>, outbox: seq<string>,
                        done: seq<string>, handed: seq<string>, sender: string -> Delivery, t: Tally, left: nat) {
    && claimed == was + Members(done) && outbox == out + handed && HandedOver(was, done, handed)
    && |handed| == t.sent + t.noRecipient + t.failed && Tallied(t, handed, sender)
    && t.considered == |done| + left && Balanced(t, left)
  }

  lemma SweepOne(was: set<string>, out: seq<string>, claimed: set<string>, outbox: seq<string>,
                 done: seq<string>, handed: seq<string>, sender: string -> Delivery, t: Tally, left: nat, b: string)
    requires Swept(was, out, claimed, outbox, done, handed, sender, t, left + 1)
    ensures b !in claimed ==> Swept(was, out, claimed + {b}, outbox + [b], done + [b], handed + [b], sender, Counted(t, sender(b)), left)
    ensures b in claimed ==> Swept(was, out, claimed + {b}, outbox, done + [b], handed, sender, t.(alreadySent := t.alreadySent + 1), left)
  {
    AnsweredNext(handed, sender, b, Delivered);
    AnsweredNext(handed, sender, b, NoRecipient);
    AnsweredNext(handed, sender, b, Threw);
    hide Answered;
    hide HandedOver, Members;
    HandOneMore(was, done, handed, b);
    assert out + handed + [b] == out + (handed + [b]);
  }

  lemma SweepBegins(was: set<string>, out: seq<string>, sender: string -> Delivery)
    ensures Swept(was, out, was, out, [], [], sender, Tally(0, 0, 0, 0, 0), 0)
  {
  }

  lemma SweepLists(was: set<string>, out: seq<string>, claimed: set<string>, outbox: seq<string>,
                   done: seq<string>, handed: seq<string>, sender: string -> Delivery, t: Tally, more: nat)
    requires Swept(was, out, claimed, outbox, done, handed, sender, t, 0)
    ensures Swept(was, out, claimed, outbox, done, handed, sender, t.(considered := t.considered + more), more)
  {
    hide HandedOver, Members;
  }

  /** A sweep on its own: it hands over one reminder for each booking that nobody had claimed, claims them
      all, and its counters add up. */
  method RunRemindersForTenant(roster: Roster, upcoming: seq<seq<string>>, sender: string -> Delivery) returns (t: Tally, ghost handed: seq<string>)
    modifies roster
    ensures Swept(old(roster.claimed), old(roster.outbox), roster.claimed, roster.outbox, AllBooked(upcoming), handed, sender, t, 0)
  {
    hide Swept, Dealt, AllBooked, Balanced;
    t := Tally(0, 0, 0, 0, 0);
    handed := [];
    ghost var was, out := roster.claimed, roster.outbox;
    SweepBegins(was, out, sender);
    DealtBounds(upcoming);
    for i := 0 to |upcoming|
      invariant Swept(was, out, roster.claimed, roster.outbox, Dealt(upcoming, i, 0), handed, sender, t, 0)
    {
      var booked := upcoming[i];
      SweepLists(was, out, roster.claimed, roster.outbox, Dealt(upcoming, i, 0), handed, sender, t, |booked|);
      t := t.(considered := t.considered + |booked|);
      for j := 0 to |booked|
        invariant Swept(was, out, roster.claimed, roster.outbox, Dealt(upcoming, i, j), handed, sender, t, |booked| - j)
      {
        var delivery := sender(booked[j]);
        SweepOne(was, out, roster.claimed, roster.outbox, Dealt(upcoming, i, j), handed, sender, t, |booked| - j - 1, booked[j]);
        DealtNext(upcoming, i, j);
        var won := roster.ClaimForReminder(booked[j]);
        if won {
          roster.outbox := roster.outbox + [booked[j]];
          handed := handed + [booked[j]];
          match delivery
          case Delivered => t := t.(sent := t.sent + 1);
          case NoRecipient => t := t.(noRecipient := t.noRecipient + 1);
          case Threw => t := t.(failed := t.failed + 1);
        } else {
          t := t.(alreadySent := t.alreadySent + 1);
        }
      }
      DealtRow(upcoming, i);
    }
  }
}
