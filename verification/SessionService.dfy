/** The token service as it is written, over a session store that other calls share: every method is a run
    of the step machine in which the call takes its steps one by one. */
module SessionService {
  import opened Outcomes
  import opened FreshNames
  import opened Sessions

  /** The action is not one of the call pid. */
  predicate Apart(pid: nat, a: Action) {
    a.Tick? || a.pid != pid
  }

  predicate AllApart(pid: nat, actions: seq<Action>) {
    forall i :: 0 <= i < |actions| ==> Apart(pid, actions[i])
  }

  predicate OwnSteps(pid: nat, run: seq<Action>) {
    forall i :: 0 <= i < |run| ==> Apart(pid, run[i]) || (run[i].Next? && run[i].pid == pid)
  }

  function Embed(s: State, pid: nat, p: Proc): State {
    s.(procs := s.procs[pid := p])
  }

  lemma ApplyEmbeds(s: State, pid: nat, p: Proc, other: nat, e: Effect)
    requires pid !in s.procs && other != pid
    ensures pid !in Apply(s, other, e).procs && Apply(Embed(s, pid, p), other, e) == Embed(Apply(s, other, e), pid, p)
  {
    assert Settle(s.procs[pid := p], other, e.next) == Settle(s.procs, other, e.next)[pid := p];
  }

  lemma StartedEmbeds(s: State, pid: nat, p: Proc, other: nat, q: Proc)
    requires pid !in s.procs && other != pid
    ensures pid !in Started(s, other, q).procs && Started(Embed(s, pid, p), other, q) == Embed(Started(s, other, q), pid, p)
  {
    assert s.procs[pid := p][other := q] == s.procs[other := q][pid := p];
  }

  lemma StepEmbeds(s: State, pid: nat, p: Proc, a: Action)
    requires pid !in s.procs && Apart(pid, a)
    ensures pid !in Step(s, a).procs && Step(Embed(s, pid, p), a) == Embed(Step(s, a), pid, p)
  {
    hide Advance, Apply, Started;
    match a
    case Login(other, user, family) =>
      assert s.procs[pid := p][other := Mint(user, family, 0, None)] == s.procs[other := Mint(user, family, 0, None)][pid := p];
    case Rotate(other, hash) => StartedEmbeds(s, pid, p, other, RotateFind(hash));
    case Logout(other, hash) => StartedEmbeds(s, pid, p, other, LogoutFind(hash));
    case LogoutEverywhere(other, user) => StartedEmbeds(s, pid, p, other, KillUser(user));
    case Next(other, c) => if other in s.procs { ApplyEmbeds(s, pid, p, other, Advance(s.sessions, s.now, s.procs[other], c)); }
    case Crash(other) => assert Without(s.procs[pid := p], other) == Without(s.procs, other)[pid := p];
    case Tick(_) =>
  }

  lemma {:induction false} RunEmbeds(s: State, pid: nat, p: Proc, actions: seq<Action>)
    requires pid !in s.procs && AllApart(pid, actions)
    ensures pid !in Run(s, actions).procs && Run(Embed(s, pid, p), actions) == Embed(Run(s, actions), pid, p)
  {
    hide Step, Embed;
    if actions != [] {
      RunEmbeds(s, pid, p, actions[..|actions| - 1]);
      StepEmbeds(Run(s, actions[..|actions| - 1]), pid, p, actions[|actions| - 1]);
    }
  }

  lemma {:induction false} RunAppend(s: State, a: seq<Action>, b: seq<Action>)
    ensures Run(s, a + b) == Run(Run(s, a), b)
    decreases |b|
  {
    if b == [] {
      assert a + b == a;
    } else {
      RunAppend(s, a, b[..|b| - 1]);
      assert (a + b)[..|a + b| - 1] == a + b[..|b| - 1];
    }
  }

  /** The run leads from `start` to the system s with the call pid at p, or finished. */
  ghost predicate Stands(start: State, run: seq<Action>, s: State, pid: nat, p: Option<Proc>) {
    OwnSteps(pid, run) && pid !in s.procs && Run(start, run) == s.(procs := Settle(s.procs, pid, p))
  }

  /** The run is one whole call, begun by `first`: its own steps, one by one, to the end, and whatever the
      others did meanwhile. */
  ghost predicate WholeCall(before: State, first: Action, run: seq<Action>, s: State, pid: nat) {
    run != [] && run[0] == first && OwnSteps(pid, run[1..]) && pid !in s.procs && Run(before, run) == s
  }

  lemma Begin(s: State, pid: nat, p: Proc)
    requires pid !in s.procs
    ensures Stands(Embed(s, pid, p), [], s, pid, Some(p))
  {
  }

  lemma SettleAgain(calls: map<nat, Proc>, pid: nat, p: Proc, next: Option<Proc>)
    requires pid !in calls
    ensures pid in Settle(calls, pid, Some(p)) && Settle(calls, pid, Some(p))[pid] == p
    ensures Settle(Settle(calls, pid, Some(p)), pid, next) == Settle(calls, pid, next)
  {
  }

  /** The store call just made is the machine's step of the call pid from p. */
  lemma Take(start: State, run: seq<Action>, before: State, after: State, pid: nat, p: Proc, c: Choice) returns (longer: seq<Action>)
    requires Stands(start, run, before, pid, Some(p))
    requires after == before.(sessions := Advance(before.sessions, before.now, p, c).sessions)
    ensures Stands(start, longer, after, pid, Advance(before.sessions, before.now, p, c).next) && longer == run + [Next(pid, c)]
  {
    hide Advance, Settle;
    longer := run + [Next(pid, c)];
    assert longer[..|run|] == run;
    SettleAgain(before.procs, pid, p, Advance(before.sessions, before.now, p, c).next);
  }

  /** Nobody else acts during the call. */
  predicate Alone(pid: nat, run: seq<Action>) {
    forall i :: 0 <= i < |run| ==> !Apart(pid, run[i])
  }

  /** The call's last act is to revoke the family: no session of it is active then, and none ever is again
      exactly when no rotation of it stood between its won swap and its mint just before. */
  ghost predicate EndsFamily(before: State, run: seq<Action>, s: State, pid: nat, family: string) {
    && run != [] && run[|run| - 1].Next? && run[|run| - 1].pid == pid
    && var last := Run(before, run[..|run| - 1]);
       && pid in last.procs && last.procs[pid] == KillFamily(family)
       && ActiveOf(s, family) == {}
       && (Inv(before) ==> (DeadForGood(s, family) <==> MintingOf(last, family) == {}))
  }

  lemma NoneActive(s: State, family: string)
    ensures ActiveOf(s.(sessions := RevokeFamily(s.sessions, family, s.now)), family) == {}
  {
  }

  lemma KillStep(s: State, pid: nat, family: string, c: Choice)
    requires pid !in s.procs
    ensures Step(Embed(s, pid, KillFamily(family)), Next(pid, c)) == s.(sessions := RevokeFamily(s.sessions, family, s.now))
  {
    hide RevokeFamily;
    assert Settle(s.procs[pid := KillFamily(family)], pid, None) == s.procs;
  }

  lemma FamilyEnded(before: State, first: Action, start: State, own: seq<Action>, c: Choice, s: State, pid: nat, family: string)
    requires Step(before, first) == start && Stands(start, own, s, pid, Some(KillFamily(family)))
    ensures EndsFamily(before, [first] + (own + [Next(pid, c)]), s.(sessions := RevokeFamily(s.sessions, family, s.now)), pid, family)
  {
    hide Step, RevokeFamily, ActiveOf, MintingOf, DeadForGood, Inv;
    var run := [first] + (own + [Next(pid, c)]);
    assert run[..|run| - 1] == [first] + own;
    FromBefore(before, first, start, own);
    assert Run(before, [first] + own) == Embed(s, pid, KillFamily(family));
    NoneActive(s, family);
    KillStep(s, pid, family, c);
    if Inv(before) {
      RunKeeps(before, [first] + own);
      RevokingEndsExactlyWhen(Embed(s, pid, KillFamily(family)), pid, c);
    }
  }

  lemma FromBefore(before: State, first: Action, start: State, own: seq<Action>)
    requires Step(before, first) == start
    ensures Run(before, [first] + own) == Run(start, own)
  {
    hide Step;
    assert [first][..0] == [];
    assert Run(before, [first]) == Step(Run(before, []), first);
    RunAppend(before, [first], own);
  }

  /** The active session just stored is the only one of its family. */
  lemma OnlyActive(before: State, run: seq<Action>, s: State, id: Id)
    requires Inv(before) && Run(before, run) == s && Active(s.sessions, id)
    ensures ActiveOf(s, s.sessions[id].family) == {id}
  {
    RunKeeps(before, run);
    hide Run;
    var family := s.sessions[id].family;
    assert OneClaim(s, family) && Holds(s, family, ActiveSession(id));
    forall o | o in ActiveOf(s, family) ensures o == id {
      assert Holds(s, family, ActiveSession(o));
    }
  }

  class SessionDatabase {
    var sessions: map<Id, Session>
    var now: nat
    /** The other calls in progress. */
    var calls: map<nat, Proc>
    /** The families drawn so far; a random draw does not repeat one. */
    var used: set<string>

    constructor ()
      ensures World() == INITIAL
    {
      sessions, now, calls, used := map[], 0, map[], {};
    }

    function World(): State
      reads this
    {
      State(sessions, now, calls, used)
    }

    /** The call pid, which stands at p, gives way to any schedule of the others. */
    method Await(pid: nat, ghost p: Proc) returns (ghost others: seq<Action>)
      requires pid !in calls
      modifies this
      ensures pid !in calls && AllApart(pid, others)
      ensures Embed(World(), pid, p) == Run(old(Embed(World(), pid, p)), others)
    {
      var schedule: seq<Action> := *;
      if !AllApart(pid, schedule) {
        schedule := [];
      }
      others := schedule;
      RunEmbeds(World(), pid, p, schedule);
      var after := Run(World(), schedule);
      sessions, now, calls, used := after.sessions, after.now, after.procs, after.used;
    }
  }

  class SessionRepository {
    const database: SessionDatabase

    constructor (database: SessionDatabase)
      ensures this.database == database
    {
      this.database := database;
    }

    /** Insert under a new id. */
    method Create(doc: Session) returns (id: Id)
      modifies database`sessions
      ensures id !in old(database.sessions) && database.sessions == old(database.sessions)[id := doc]
    {
      ghost var unused := FreshId(database.sessions.Keys);
      id :| id !in database.sessions;
      database.sessions := database.sessions[id := doc];
    }

    method FindByRefreshHash(hash: string) returns (hit: Option<Id>)
      ensures HashAnswer(database.sessions, hash, hit)
    {
      if id :| id in database.sessions && database.sessions[id].refreshHash == hash {
        return Some(id);
      }
      return None;
    }

    method RevokeIfActive(id: Id) returns (won: bool)
      modifies database`sessions
      ensures (database.sessions, won) == Sessions.RevokeIfActive(old(database.sessions), id, database.now)
    {
      won := id in database.sessions && database.sessions[id].revokedAt.None?;
      if won {
        database.sessions := database.sessions[id := database.sessions[id].(revokedAt := Some(database.now))];
      }
    }

    method RevokeFamily(family: string)
      modifies database`sessions
      ensures database.sessions == Sessions.RevokeFamily(old(database.sessions), family, database.now)
    {
      var all := database.sessions;
      database.sessions := map id | id in all :: if all[id].family == family then Revoked(all[id], database.now) else all[id];
    }

    method RevokeAllForUser(user: string)
      modifies database`sessions
      ensures database.sessions == Sessions.RevokeAllForUser(old(database.sessions), user, database.now)
    {
      var all := database.sessions;
      database.sessions := map id | id in all :: if all[id].user == user then Revoked(all[id], database.now) else all[id];
    }
  }

  /** The opaque token handed out, and the session behind it. */
  datatype Issued = Issued(refreshToken: string, sessionId: Id)

  class TokenService {
    const database: SessionDatabase
    const repository: SessionRepository
    const digest: string -> string
    const refreshTtl: nat

    constructor (database: SessionDatabase, digest: string -> string, refreshTtl: nat)
      ensures this.database == database && this.digest == digest && Valid() && fresh(repository)
    {
      this.database, this.digest, this.refreshTtl := database, digest, refreshTtl;
      repository := new SessionRepository(database);
    }

    predicate Valid() {
      repository.database == database
    }

    /** The token's session is in the store, active, good for the whole term from now on, belongs to the
        user and the family, and descends from `parent`. */
    ghost predicate Issues(t: Issued, user: string, family: string, parent: Option<Id>)
      reads database
    {
      t.sessionId in database.sessions
      && var x := database.sessions[t.sessionId];
         && x.refreshHash == digest(t.refreshToken) && x.expiresAt == database.now + refreshTtl && x.revokedAt.None?
         && x.user == user && x.family == family && x.parent == parent
    }

    method Pause(ghost start: State, ghost run: seq<Action>, pid: nat, ghost p: Proc) returns (ghost longer: seq<Action>)
      requires Stands(start, run, database.World(), pid, Some(p))
      modifies database
      ensures Stands(start, longer, database.World(), pid, Some(p))
      ensures exists others :: AllApart(pid, others) && longer == run + others && (others == [] ==> database.sessions == old(database.sessions))
    {
      ghost var others := database.Await(pid, p);
      RunAppend(start, run, others);
      longer := run + others;
    }

    method MintTokens(pid: nat, user: string, family: string, generation: nat, parent: Option<Id>, ghost start: State, ghost done: seq<Action>)
      returns (t: Issued, ghost run: seq<Action>)
      requires Valid() && Stands(start, done, database.World(), pid, Some(Mint(user, family, generation, parent)))
      modifies database
      ensures Stands(start, run, database.World(), pid, None) && Issues(t, user, family, parent)
      ensures done <= run
    {
      hide Run, Stands;
      var refreshToken: string := *;
      var hash := digest(refreshToken);
      var expiresAt := database.now + refreshTtl;
      ghost var world := database.World();
      var id := repository.Create(Session(user, family, hash, expiresAt, None, generation, parent));
      run := Take(start, done, world, database.World(), pid, Mint(user, family, generation, parent), Choice(Some(id), hash, expiresAt));
      return Issued(refreshToken, id), run;
    }

    /** A login: a fresh family and its first session. */
    method StartSession(pid: nat, user: string) returns (t: Issued, ghost run: seq<Action>)
      requires Valid() && pid !in database.calls
      modifies database
      ensures run != [] && run[0].Login? && run[0].pid == pid && run[0].user == user && run[0].family !in old(database.used)
      ensures WholeCall(old(database.World()), run[0], run, database.World(), pid)
      ensures Issues(t, user, run[0].family, None)
    {
      ghost var before := database.World();
      ghost var unused := FreshId(database.used);
      var family: string :| family !in database.used;
      database.used := database.used + {family};
      ghost var p := Mint(user, family, 0, None);
      ghost var start := Embed(database.World(), pid, p);
      Begin(database.World(), pid, p);
      ghost var own := Pause(start, [], pid, p);
      t, own := MintTokens(pid, user, family, 0, None, start, own);
      assert Step(before, Login(pid, user, family)) == start;
      run := Finished(before, Login(pid, user, family), start, own, database.World(), pid);
    }

    /** Rotate a refresh token: one new session for a token presented while its session is active and
        unexpired, nothing otherwise; a retired token ends the family. */
    method Rotate(pid: nat, refreshToken: string) returns (t: Option<Issued>, ghost found: Option<Id>, ghost run: seq<Action>)
      requires Valid() && pid !in database.calls
      modifies database
      ensures WholeCall(old(database.World()), Sessions.Rotate(pid, digest(refreshToken)), run, database.World(), pid)
      ensures HashAnswer(old(database.sessions), digest(refreshToken), found)
      ensures found.None? ==> t.None? && database.World() == old(database.World())
      ensures found.Some? ==>
                var x := old(database.sessions)[found.value];
                if x.revokedAt.Some? then t.None? && EndsFamily(old(database.World()), run, database.World(), pid, x.family)
                else if x.expiresAt <= old(database.now) then t.None? && !Active(database.sessions, found.value)
                else if t.None? then !Alone(pid, run) && EndsFamily(old(database.World()), run, database.World(), pid, x.family)
                else
                  && Issues(t.value, x.user, x.family, found)
                  && (Inv(old(database.World())) ==> ActiveOf(database.World(), x.family) == {t.value.sessionId})
    {
      hide Run, Stands, Sessions.RevokeFamily, EndsFamily, Inv, ActiveOf;
      var hash := digest(refreshToken);
      ghost var before := database.World();
      ghost var p := RotateFind(hash);
      ghost var start := Embed(before, pid, p);
      ghost var own;
      Begin(before, pid, p);
      t := None;

      var hit := repository.FindByRefreshHash(hash);
      found := hit;
      RotateStarts(before, pid, hash);
      ghost var first := Sessions.Rotate(pid, hash);
      own := Take(start, [], before, database.World(), pid, p, Choice(hit, "", 0));
      if hit.Some? {
        var session := database.sessions[hit.value];
        if session.revokedAt.Some? {
          own := Pause(start, own, pid, Proc.KillFamily(session.family));
          own := KillFamily(pid, session.family, before, first, start, own);
        } else if session.expiresAt <= database.now {
          own := Pause(start, own, pid, RetireExpired(hit.value));
          ghost var world := database.World();
          var retired := repository.RevokeIfActive(hit.value);
          own := Take(start, own, world, database.World(), pid, RetireExpired(hit.value), Choice(None, "", 0));
        } else {
          ghost var read := own;
          own := Pause(start, own, pid, Retire(hit.value, session.user, session.family));
          ghost var others :| AllApart(pid, others) && own == read + others && (others == [] ==> database.sessions == before.sessions);
          t, own := SwapAndMint(pid, hit.value, session, before, first, start, own);
          if others != [] { OthersActed(pid, first, read, others, own); }
        }
      }
      run := Finished(before, first, start, own, database.World(), pid);
      if t.Some? && Inv(before) { OnlyActive(before, run, database.World(), t.value.sessionId); }
    }

    /** The family of a presented token is revoked; the call ends with it. */
    method KillFamily(pid: nat, family: string, ghost before: State, ghost first: Action, ghost start: State, ghost done: seq<Action>)
      returns (ghost run: seq<Action>)
      requires Valid() && Step(before, first) == start && Stands(start, done, database.World(), pid, Some(Proc.KillFamily(family)))
      modifies database
      ensures Stands(start, run, database.World(), pid, None) && done <= run
      ensures EndsFamily(before, [first] + run, database.World(), pid, family)
    {
      hide Run, Stands, Sessions.RevokeFamily, EndsFamily, Step;
      ghost var world := database.World();
      repository.RevokeFamily(family);
      FamilyEnded(before, first, start, done, Choice(None, "", 0), world, pid, family);
      run := Take(start, done, world, database.World(), pid, Proc.KillFamily(family), Choice(None, "", 0));
    }

    /** The compare-and-swap on the presented session: the winner mints, a loser ends the family. */
    method SwapAndMint(pid: nat, id: Id, session: Session, ghost before: State, ghost first: Action, ghost start: State, ghost done: seq<Action>)
      returns (t: Option<Issued>, ghost run: seq<Action>)
      requires Valid() && Step(before, first) == start
      requires Stands(start, done, database.World(), pid, Some(Retire(id, session.user, session.family)))
      modifies database
      ensures Stands(start, run, database.World(), pid, None) && done <= run
      ensures t.None? <==> !Active(old(database.sessions), id)
      ensures t.None? ==> EndsFamily(before, [first] + run, database.World(), pid, session.family)
      ensures t.Some? ==> Issues(t.value, session.user, session.family, Some(id))
    {
      hide Run, Stands, Sessions.RevokeFamily, EndsFamily, Step;
      ghost var world := database.World();
      var won := repository.RevokeIfActive(id);
      run := Take(start, done, world, database.World(), pid, Retire(id, session.user, session.family), Choice(None, "", 0));
      if !won {
        run := Pause(start, run, pid, Proc.KillFamily(session.family));
        run := KillFamily(pid, session.family, before, first, start, run);
        return None, run;
      }
      var generation := database.sessions[id].generation + 1;
      run := Pause(start, run, pid, Mint(session.user, session.family, generation, Some(id)));
      var issued;
      issued, run := MintTokens(pid, session.user, session.family, generation, Some(id), start, run);
      return Some(issued), run;
    }

    /** Logout: end the family of the token, if there is one. */
    method Revoke(pid: nat, refreshToken: string) returns (ghost found: Option<Id>, ghost run: seq<Action>)
      requires Valid() && pid !in database.calls
      modifies database
      ensures WholeCall(old(database.World()), Logout(pid, digest(refreshToken)), run, database.World(), pid)
      ensures HashAnswer(old(database.sessions), digest(refreshToken), found)
      ensures found.None? ==> database.World() == old(database.World())
      ensures found.Some? ==> EndsFamily(old(database.World()), run, database.World(), pid, old(database.sessions)[found.value].family)
    {
      hide Run, Stands, Sessions.RevokeFamily, EndsFamily;
      var hash := digest(refreshToken);
      ghost var before := database.World();
      ghost var start := Embed(before, pid, LogoutFind(hash));
      Begin(before, pid, LogoutFind(hash));
      var hit := repository.FindByRefreshHash(hash);
      found := hit;
      LogoutStarts(before, pid, hash);
      ghost var own := Take(start, [], before, database.World(), pid, LogoutFind(hash), Choice(hit, "", 0));
      if hit.Some? {
        var family := database.sessions[hit.value].family;
        own := Pause(start, own, pid, Proc.KillFamily(family));
        own := KillFamily(pid, family, before, Logout(pid, hash), start, own);
      }
      run := Finished(before, Logout(pid, hash), start, own, database.World(), pid);
    }

    /** Logout everywhere. */
    method RevokeAllSessions(pid: nat, user: string) returns (ghost run: seq<Action>)
      requires Valid() && pid !in database.calls
      modifies database
      ensures WholeCall(old(database.World()), LogoutEverywhere(pid, user), run, database.World(), pid)
      ensures forall id :: id in database.sessions && database.sessions[id].user == user ==> database.sessions[id].revokedAt.Some?
    {
      hide Run, Stands;
      ghost var before := database.World();
      ghost var start := Embed(before, pid, KillUser(user));
      Begin(before, pid, KillUser(user));
      repository.RevokeAllForUser(user);
      ghost var own := Take(start, [], before, database.World(), pid, KillUser(user), Choice(None, "", 0));
      EverywhereStarts(before, pid, user);
      run := Finished(before, LogoutEverywhere(pid, user), start, own, database.World(), pid);
    }
  }

  /** A call during which others acted was not alone. */
  lemma OthersActed(pid: nat, first: Action, read: seq<Action>, others: seq<Action>, own: seq<Action>)
    requires AllApart(pid, others) && others != [] && read + others <= own
    ensures !Alone(pid, [first] + own)
  {
    assert Apart(pid, others[0]);
    assert ([first] + own)[1 + |read|] == (read + others)[|read|] == others[0];
  }

  lemma RotateStarts(s: State, pid: nat, hash: string)
    requires pid !in s.procs
    ensures Step(s, Rotate(pid, hash)) == Embed(s, pid, RotateFind(hash))
  {
  }

  lemma LogoutStarts(s: State, pid: nat, hash: string)
    requires pid !in s.procs
    ensures Step(s, Logout(pid, hash)) == Embed(s, pid, LogoutFind(hash))
  {
  }

  lemma EverywhereStarts(s: State, pid: nat, user: string)
    requires pid !in s.procs
    ensures Step(s, LogoutEverywhere(pid, user)) == Embed(s, pid, KillUser(user))
  {
  }

  /** A finished call, seen from before it started. */
  lemma Finished(before: State, first: Action, start: State, own: seq<Action>, s: State, pid: nat) returns (run: seq<Action>)
    requires Step(before, first) == start && Stands(start, own, s, pid, None)
    ensures WholeCall(before, first, run, s, pid) && run == [first] + own
  {
    hide Step;
    run := [first] + own;
    assert run[1..] == own;
    FromBefore(before, first, start, own);
    assert Settle(s.procs, pid, None) == s.procs;
  }
}
