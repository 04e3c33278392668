/** Appending to one tenant's stored audit chain: read the head, build the entry, insert it under unique
    indexes on sequence, predecessor and hash, and try again when another append got there first. Any
    number of appenders interleave between the read and the insert, and may crash. */
module AuditAppend {
  import opened Outcomes
  import opened CanonicalJson
  import opened AuditChain

  const MAX_APPEND_ATTEMPTS: nat := 12

  /** A stored document: the entry and its place in the chain. */
  datatype Row = Row(sequence: nat, doc: Entry)

  /** A stored null is read back as an absent change description. */
  function ToEntry(row: Row): Entry {
    row.doc.(payload := row.doc.payload.(diff := if row.doc.payload.diff == Some(Null) then None else row.doc.payload.diff))
  }

  /** What is stored is what was hashed exactly when no null was stored as the change description. */
  lemma ReadBackExactly(row: Row)
    ensures ToEntry(row) == row.doc <==> row.doc.payload.diff != Some(Null)
  {
  }

  /** The caller's part of a payload; a change description is an object when there is one. */
  datatype Request = Request(
    actor: Option<string>, actorType: ActorType, action: string,
    targetType: string, targetId: string, diff: Option<Json>, ip: Option<string>)

  predicate WellTyped(r: Request) {
    r.diff.Some? ==> r.diff.value.Obj?
  }

  function PayloadOf(tenant: string, r: Request, ts: int): Payload {
    Payload(tenant, ts, r.actor, r.actorType, r.action, r.targetType, r.targetId, r.diff, r.ip)
  }

  /** The record says who did what to which target, in which tenant, from where and with which change. */
  predicate Records(p: Payload, tenant: string, r: Request) {
    && p.tenant == tenant && p.actor == r.actor && p.actorType == r.actorType && p.action == r.action
    && p.targetType == r.targetType && p.targetId == r.targetId && p.diff == r.diff && p.ip == r.ip
  }

  /** `findOne({}).sort({ seq: -1 })` */
  function Head(rows: seq<Row>): Option<Row> {
    if rows == [] then None
    else
      var h := Head(rows[..|rows| - 1]);
      if h.None? || h.value.sequence < rows[|rows| - 1].sequence then Some(rows[|rows| - 1]) else h
  }

  /** A unique index refuses the row. */
  predicate Refused(rows: seq<Row>, row: Row) {
    exists i :: 0 <= i < |rows| &&
      (rows[i].sequence == row.sequence || rows[i].doc.prevHash == row.doc.prevHash || rows[i].doc.hash == row.doc.hash)
  }

  function Stored(rows: seq<Row>): (r: seq<Entry>)
    ensures |r| == |rows| && forall i :: 0 <= i < |rows| ==> r[i] == ToEntry(rows[i])
  {
    if rows == [] then [] else Stored(rows[..|rows| - 1]) + [ToEntry(rows[|rows| - 1])]
  }

  // ---- The chain as stored ----

  /** The rows are the chain, in order: sequence numbers 0..n-1, read back as stored, links and hashes
      right, hashes distinct. */
  ghost predicate Linear(digest: Digest, rows: seq<Row>) {
    && (forall i :: 0 <= i < |rows| ==> rows[i].sequence == i && ToEntry(rows[i]) == rows[i].doc)
    && Chained(digest, Stored(rows))
    && (forall i, j :: 0 <= i < j < |rows| ==> rows[i].doc.hash != rows[j].doc.hash)
  }

  lemma {:induction false} HeadIsLast(rows: seq<Row>)
    requires forall i :: 0 <= i < |rows| ==> rows[i].sequence == i
    ensures Head(rows) == if rows == [] then None else Some(rows[|rows| - 1])
  {
    if rows != [] { HeadIsLast(rows[..|rows| - 1]); }
  }

  /** The entry before place n. */
  function Previous(rows: seq<Row>, n: nat): Option<Entry>
    requires n <= |rows|
  {
    if n == 0 then None else Some(ToEntry(rows[n - 1]))
  }

  /** The row an appender builds when it has read n rows. */
  function NextRow(digest: Digest, tenant: string, r: Request, ts: int, prev: Option<Entry>, n: nat): Row {
    Row(n, AppendEntry(digest, prev, PayloadOf(tenant, r, ts)))
  }

  lemma LinksApart(digest: Digest, rows: seq<Row>, i: nat)
    requires Linear(digest, rows) && i < |rows|
    ensures rows[i].doc.prevHash == HashOf(Previous(rows, i)) && LinkOk(digest, Previous(rows, i), rows[i].doc)
    ensures rows[i].doc.prevHash != HashOf(Previous(rows, |rows|))
  {
    hide HashChainEntry;
    var entries := Stored(rows);
    assert LinkOk(digest, Before(entries, i), entries[i]);
    assert Before(entries, i) == Previous(rows, i);
    assert i > 0 ==> rows[i - 1].doc.hash != rows[|rows| - 1].doc.hash;
  }

  /** On a collision-free digest, an appender that built on the current head is refused by no index. */
  lemma FreshRowAccepted(digest: Digest, rows: seq<Row>, tenant: string, r: Request, ts: int)
    requires CollisionFree(digest) && Linear(digest, rows)
    ensures !Refused(rows, NextRow(digest, tenant, r, ts, Previous(rows, |rows|), |rows|))
  {
    var prev := Previous(rows, |rows|);
    var row := NextRow(digest, tenant, r, ts, prev, |rows|);
    LinkOkMeans(digest, prev, row.doc);
    hide CollisionFree, HashChainEntry, LinkOk, SameRecord;
    forall i: nat | i < |rows|
      ensures rows[i].sequence != row.sequence && rows[i].doc.prevHash != row.doc.prevHash && rows[i].doc.hash != row.doc.hash
    {
      LinksApart(digest, rows, i);
      if rows[i].doc.hash == row.doc.hash {
        HashDetermines(digest, rows[i].doc, row.doc, Previous(rows, i), prev);
        SameLinks(rows[i].doc, row.doc);
      }
    }
  }

  lemma StoredAppends(rows: seq<Row>, row: Row)
    ensures Stored(rows + [row]) == Stored(rows) + [ToEntry(row)]
  {
    assert (rows + [row])[..|rows|] == rows;
  }

  lemma BeforeIsPrevious(rows: seq<Row>)
    ensures Before(Stored(rows), |rows|) == Previous(rows, |rows|)
  {
  }

  lemma NextRowShape(digest: Digest, tenant: string, r: Request, ts: int, prev: Option<Entry>, n: nat)
    ensures var row := NextRow(digest, tenant, r, ts, prev, n);
            row.sequence == n && row.doc == AppendEntry(digest, prev, row.doc.payload) && (WellTyped(r) ==> ToEntry(row) == row.doc)
  {
    hide HashChainEntry;
  }

  /** The accepted row extends the chain. */
  lemma FreshRowExtends(digest: Digest, rows: seq<Row>, tenant: string, r: Request, ts: int)
    requires Linear(digest, rows) && WellTyped(r)
    requires !Refused(rows, NextRow(digest, tenant, r, ts, Previous(rows, |rows|), |rows|))
    ensures Linear(digest, rows + [NextRow(digest, tenant, r, ts, Previous(rows, |rows|), |rows|)])
  {
    hide NextRow, AppendEntry, Chained, ToEntry, Stored;
    var row := NextRow(digest, tenant, r, ts, Previous(rows, |rows|), |rows|);
    NextRowShape(digest, tenant, r, ts, Previous(rows, |rows|), |rows|);
    BeforeIsPrevious(rows);
    AppendingExactly(digest, Stored(rows), row.doc);
    StoredAppends(rows, row);
  }

  // ---- The protocol ----

  datatype Call =
    | Reading(request: Request, attempt: nat, since: nat)
    | Inserting(request: Request, attempt: nat, since: nat, row: Row)

  datatype Outcome =
    | Committed(entry: Entry)
    | Threw(since: nat, at: nat)

  /** `since` in a call is the number of rows when it began; `outcomes` records how calls ended. */
  datatype State = State(rows: seq<Row>, calls: map<nat, Call>, outcomes: map<nat, Outcome>)

  const INITIAL: State := State([], map[], map[])

  datatype Action =
    | Start(pid: nat, request: Request)
    | Next(pid: nat, ts: int)
    | Crash(pid: nat)

  function Without(calls: map<nat, Call>, pid: nat): map<nat, Call> {
    map q | q in calls && q != pid :: calls[q]
  }

  function Advance(digest: Digest, tenant: string, s: State, pid: nat, ts: int): State
    requires pid in s.calls
  {
    match s.calls[pid]
    case Reading(request, attempt, since) =>
      var head := Head(s.rows);
      var prev := if head.Some? then Some(ToEntry(head.value)) else None;
      var sequence := if head.Some? then head.value.sequence + 1 else 0;
      s.(calls := s.calls[pid := Inserting(request, attempt, since, NextRow(digest, tenant, request, ts, prev, sequence))])
    case Inserting(request, attempt, since, row) =>
      if !Refused(s.rows, row) then
        State(s.rows + [row], Without(s.calls, pid), s.outcomes[pid := Committed(row.doc)])
      else if attempt + 1 < MAX_APPEND_ATTEMPTS then
        s.(calls := s.calls[pid := Reading(request, attempt + 1, since)])
      else
        State(s.rows, Without(s.calls, pid), s.outcomes[pid := Threw(since, |s.rows|)])
  }

  function Step(digest: Digest, tenant: string, s: State, a: Action): State {
    match a
    case Start(pid, request) =>
      if pid in s.calls || !WellTyped(request) then s else s.(calls := s.calls[pid := Reading(request, 0, |s.rows|)])
    case Next(pid, ts) => if pid in s.calls then Advance(digest, tenant, s, pid, ts) else s
    case Crash(pid) => s.(calls := Without(s.calls, pid))
  }

  function Run(digest: Digest, tenant: string, s: State, actions: seq<Action>): State {
    if actions == [] then s else Step(digest, tenant, Run(digest, tenant, s, actions[..|actions| - 1]), actions[|actions| - 1])
  }

  // ---- Invariant ----

  /** Each failed attempt is answered by a row that came in after it read: so many rows there are by now. */
  ghost predicate CallOk(digest: Digest, tenant: string, rows: seq<Row>, c: Call) {
    && WellTyped(c.request) && c.attempt < MAX_APPEND_ATTEMPTS
    && match c
       case Reading(_, attempt, since) => since + attempt <= |rows|
       case Inserting(r, attempt, since, row) =>
         && since + attempt <= row.sequence <= |rows|
         && BuiltOn(digest, tenant, rows, r, row)
  }

  ghost predicate BuiltOn(digest: Digest, tenant: string, rows: seq<Row>, r: Request, row: Row)
    requires row.sequence <= |rows|
  {
    exists ts :: row == NextRow(digest, tenant, r, ts, Previous(rows, row.sequence), row.sequence)
  }

  predicate OutcomeOk(rows: seq<Row>, o: Outcome) {
    match o
    case Committed(entry) => exists i :: 0 <= i < |rows| && ToEntry(rows[i]) == entry
    case Threw(since, at) => since + MAX_APPEND_ATTEMPTS <= at <= |rows|
  }

  ghost predicate Inv(digest: Digest, tenant: string, s: State) {
    && Linear(digest, s.rows)
    && (forall pid :: pid in s.calls ==> CallOk(digest, tenant, s.rows, s.calls[pid]))
    && (forall pid :: pid in s.outcomes ==> OutcomeOk(s.rows, s.outcomes[pid]))
  }

  lemma CallStable(digest: Digest, tenant: string, rows: seq<Row>, longer: seq<Row>, c: Call)
    requires rows <= longer && CallOk(digest, tenant, rows, c)
    ensures CallOk(digest, tenant, longer, c)
  {
    hide NextRow;
    if c.Inserting? {
      assert Previous(longer, c.row.sequence) == Previous(rows, c.row.sequence);
      var ts :| c.row == NextRow(digest, tenant, c.request, ts, Previous(rows, c.row.sequence), c.row.sequence);
      assert c.row == NextRow(digest, tenant, c.request, ts, Previous(longer, c.row.sequence), c.row.sequence);
    }
  }

  lemma OutcomeStable(rows: seq<Row>, longer: seq<Row>, o: Outcome)
    requires rows <= longer && OutcomeOk(rows, o)
    ensures OutcomeOk(longer, o)
  {
    if o.Committed? {
      var i :| 0 <= i < |rows| && ToEntry(rows[i]) == o.entry;
      assert longer[i] == rows[i];
    }
  }

  lemma ReadKeeps(digest: Digest, tenant: string, s: State, pid: nat, ts: int)
    requires Inv(digest, tenant, s) && pid in s.calls && s.calls[pid].Reading?
    ensures Inv(digest, tenant, Advance(digest, tenant, s, pid, ts))
  {
    hide NextRow;
    var c := s.calls[pid];
    HeadIsLast(s.rows);
    var row := NextRow(digest, tenant, c.request, ts, Previous(s.rows, |s.rows|), |s.rows|);
    NextRowShape(digest, tenant, c.request, ts, Previous(s.rows, |s.rows|), |s.rows|);
    hide Linear;
    assert BuiltOn(digest, tenant, s.rows, c.request, row);
  }

  /** A refusal means that the sequence number was taken since the head was read. */
  lemma RefusedMeansOvertaken(digest: Digest, tenant: string, rows: seq<Row>, c: Call)
    requires CollisionFree(digest) && Linear(digest, rows) && c.Inserting? && CallOk(digest, tenant, rows, c)
    ensures Refused(rows, c.row) <==> c.row.sequence < |rows|
  {
    hide CollisionFree, NextRow;
    var ts :| c.row == NextRow(digest, tenant, c.request, ts, Previous(rows, c.row.sequence), c.row.sequence);
    if c.row.sequence == |rows| {
      FreshRowAccepted(digest, rows, tenant, c.request, ts);
    } else {
      assert rows[c.row.sequence].sequence == c.row.sequence;
    }
  }

  lemma InsertKeeps(digest: Digest, tenant: string, s: State, pid: nat, ts: int)
    requires CollisionFree(digest) && Inv(digest, tenant, s) && pid in s.calls && s.calls[pid].Inserting?
    ensures Inv(digest, tenant, Advance(digest, tenant, s, pid, ts))
  {
    hide CollisionFree, NextRow, Linear, Refused, BuiltOn;
    var c := s.calls[pid];
    RefusedMeansOvertaken(digest, tenant, s.rows, c);
    if !Refused(s.rows, c.row) {
      var longer := s.rows + [c.row];
      InsertedRow(digest, tenant, s.rows, c);
      forall q | q in s.calls ensures CallOk(digest, tenant, longer, s.calls[q]) { CallStable(digest, tenant, s.rows, longer, s.calls[q]); }
      forall q | q in s.outcomes ensures OutcomeOk(longer, s.outcomes[q]) { OutcomeStable(s.rows, longer, s.outcomes[q]); }
      assert longer[|s.rows|] == c.row;
    }
  }

  lemma InsertedRow(digest: Digest, tenant: string, rows: seq<Row>, c: Call)
    requires Linear(digest, rows) && c.Inserting? && CallOk(digest, tenant, rows, c) && c.row.sequence == |rows| && !Refused(rows, c.row)
    ensures Linear(digest, rows + [c.row]) && ToEntry(c.row) == c.row.doc
  {
    hide NextRow, Linear, Refused;
    var ts :| c.row == NextRow(digest, tenant, c.request, ts, Previous(rows, c.row.sequence), c.row.sequence);
    FreshRowExtends(digest, rows, tenant, c.request, ts);
    NextRowShape(digest, tenant, c.request, ts, Previous(rows, |rows|), |rows|);
  }

  lemma StepKeeps(digest: Digest, tenant: string, s: State, a: Action)
    requires CollisionFree(digest) && Inv(digest, tenant, s)
    ensures Inv(digest, tenant, Step(digest, tenant, s, a))
  {
    hide CollisionFree, Advance, Linear, BuiltOn;
    if a.Next? && a.pid in s.calls {
      if s.calls[a.pid].Reading? { ReadKeeps(digest, tenant, s, a.pid, a.ts); }
      else { InsertKeeps(digest, tenant, s, a.pid, a.ts); }
    }
  }

  lemma StepGrows(digest: Digest, tenant: string, s: State, a: Action)
    ensures s.rows <= Step(digest, tenant, s, a).rows
  {
    hide Refused, NextRow, Head;
  }

  lemma {:induction false} RunKeeps(digest: Digest, tenant: string, s: State, actions: seq<Action>)
    requires CollisionFree(digest) && Inv(digest, tenant, s)
    ensures Inv(digest, tenant, Run(digest, tenant, s, actions)) && s.rows <= Run(digest, tenant, s, actions).rows
  {
    hide CollisionFree, Step, Inv;
    if actions != [] {
      var before := Run(digest, tenant, s, actions[..|actions| - 1]);
      RunKeeps(digest, tenant, s, actions[..|actions| - 1]);
      StepKeeps(digest, tenant, before, actions[|actions| - 1]);
      StepGrows(digest, tenant, before, actions[|actions| - 1]);
    }
  }

  lemma EmptyChain(digest: Digest, tenant: string)
    ensures Inv(digest, tenant, INITIAL)
  {
  }

  // ---- What it means ----

  /** In every run, at every moment: the stored rows are numbered 0..n-1 without gap or fork, and the chain
      as listed verifies. */
  lemma ChainAlwaysVerifies(digest: Digest, tenant: string, actions: seq<Action>)
    requires CollisionFree(digest)
    ensures var rows := Run(digest, tenant, INITIAL, actions).rows;
            (forall i :: 0 <= i < |rows| ==> rows[i].sequence == i) && Chained(digest, Stored(rows))
  {
    EmptyChain(digest, tenant);
    RunKeeps(digest, tenant, INITIAL, actions);
  }

  /** A call throws only when at least twelve rows of other calls came in while it ran: with at most eleven
      rival inserts it never throws. A call that ended well has its entry in the chain. */
  lemma ThrowsOnlyUnderTwelveRivals(digest: Digest, tenant: string, actions: seq<Action>, pid: nat)
    requires CollisionFree(digest) && pid in Run(digest, tenant, INITIAL, actions).outcomes
    ensures var s := Run(digest, tenant, INITIAL, actions);
            match s.outcomes[pid]
            case Threw(since, at) => at - since >= 12 && at <= |s.rows|
            case Committed(entry) => entry in Stored(s.rows)
  {
    EmptyChain(digest, tenant);
    RunKeeps(digest, tenant, INITIAL, actions);
    var s := Run(digest, tenant, INITIAL, actions);
    hide Run, Linear;
    assert OutcomeOk(s.rows, s.outcomes[pid]);
    if s.outcomes[pid].Committed? {
      var i :| 0 <= i < |s.rows| && ToEntry(s.rows[i]) == s.outcomes[pid].entry;
      assert Stored(s.rows)[i] == s.outcomes[pid].entry;
    }
  }

  // ---- The repository's loop ----

  datatype AppendError = TooManyConflicts

  lemma InsertedKeeps(digest: Digest, tenant: string, s: State, c: Call)
    requires Inv(digest, tenant, s) && c.Inserting? && CallOk(digest, tenant, s.rows, c)
    requires c.row.sequence == |s.rows| && !Refused(s.rows, c.row)
    ensures Inv(digest, tenant, s.(rows := s.rows + [c.row]))
  {
    hide NextRow, Linear, Refused, BuiltOn;
    var longer := s.rows + [c.row];
    InsertedRow(digest, tenant, s.rows, c);
    forall q | q in s.calls ensures CallOk(digest, tenant, longer, s.calls[q]) { CallStable(digest, tenant, s.rows, longer, s.calls[q]); }
    forall q | q in s.outcomes ensures OutcomeOk(longer, s.outcomes[q]) { OutcomeStable(s.rows, longer, s.outcomes[q]); }
  }

  lemma HeadRead(digest: Digest, tenant: string, s: State, r: Request, ts: int)
    requires Inv(digest, tenant, s) && WellTyped(r)
    ensures var head := Head(s.rows);
            var prev := if head.Some? then Some(ToEntry(head.value)) else None;
            var sequence := if head.Some? then head.value.sequence + 1 else 0;
            sequence == |s.rows| && CallOk(digest, tenant, s.rows, Inserting(r, 0, 0, NextRow(digest, tenant, r, ts, prev, sequence)))
  {
    HeadIsLast(s.rows);
    var prev := Previous(s.rows, |s.rows|);
    NextRowShape(digest, tenant, r, ts, prev, |s.rows|);
    hide NextRow, Linear;
    assert BuiltOn(digest, tenant, s.rows, r, NextRow(digest, tenant, r, ts, prev, |s.rows|));
  }

  lemma InsertIffCurrent(digest: Digest, tenant: string, s: State, c: Call)
    requires CollisionFree(digest) && Inv(digest, tenant, s) && c.Inserting? && CallOk(digest, tenant, s.rows, c)
    ensures c.row.sequence <= |s.rows| && (Refused(s.rows, c.row) <==> c.row.sequence < |s.rows|)
  {
    hide CollisionFree, Linear, BuiltOn, Refused;
    RefusedMeansOvertaken(digest, tenant, s.rows, c);
  }

  class AuditLogRepository {
    const digest: Digest
    const tenant: string
    var rows: seq<Row>
    /** The other appends in progress, and how others ended. */
    var calls: map<nat, Call>
    var outcomes: map<nat, Outcome>

    constructor (digest: Digest, tenant: string)
      ensures this.digest == digest && this.tenant == tenant && World() == INITIAL
    {
      this.digest, this.tenant := digest, tenant;
      rows, calls, outcomes := [], map[], map[];
    }

    function World(): State
      reads this
    {
      State(rows, calls, outcomes)
    }

    /** Any schedule of the other appenders. */
    method Await()
      requires CollisionFree(digest) && Inv(digest, tenant, World())
      modifies this
      ensures Inv(digest, tenant, World()) && old(rows) <= rows
    {
      var schedule: seq<Action> := *;
      RunKeeps(digest, tenant, World(), schedule);
      var after := Run(digest, tenant, World(), schedule);
      rows, calls, outcomes := after.rows, after.calls, after.outcomes;
    }

    /** Append an event: on success its entry is in the chain, among the rows that came in meanwhile; it
        gives up only when twelve others did. */
    method Append(r: Request) returns (result: Result<Entry, AppendError>)
      requires CollisionFree(digest) && Inv(digest, tenant, World()) && WellTyped(r)
      modifies this
      ensures Inv(digest, tenant, World()) && old(rows) <= rows
      ensures result.Ok? ==>
                && Records(result.value.payload, tenant, r)
                && |old(rows)| < |rows| && rows[|rows| - 1].doc == result.value
      ensures result.Err? ==> |rows| >= |old(rows)| + 12
    {
      hide CollisionFree, Inv, CallOk, Refused, HashChainEntry;
      for attempt := 0 to MAX_APPEND_ATTEMPTS
        invariant Inv(digest, tenant, World()) && old(rows) <= rows
        invariant |rows| >= |old(rows)| + attempt
      {
        var head := Head(rows);
        var prev := if head.Some? then Some(ToEntry(head.value)) else None;
        var sequence := if head.Some? then head.value.sequence + 1 else 0;
        var ts: int := *;
        var row := NextRow(digest, tenant, r, ts, prev, sequence);
        ghost var call := Inserting(r, 0, 0, row);
        HeadRead(digest, tenant, World(), r, ts);
        ghost var before := rows;
        Await();
        CallStable(digest, tenant, before, rows, call);
        InsertIffCurrent(digest, tenant, World(), call);
        if !Refused(rows, row) {
          InsertedKeeps(digest, tenant, World(), call);
          rows := rows + [row];
          return Ok(row.doc);
        }
      }
      return Err(TooManyConflicts);
    }
  }
}
