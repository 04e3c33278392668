/** Refresh-token rotation. A login starts a family of sessions; presenting a refresh token retires its
    session by a compare-and-swap and mints the next one. Calls interleave between their store operations
    and may crash between them. */
module Sessions {
  import opened Outcomes
  import opened FreshNames

  type Id = string

  /** `generation` and `parent` record where a session came from; no operation reads them. */
  datatype Session = Session(
    user: string, family: string, refreshHash: string, expiresAt: nat, revokedAt: Option<nat>,
    generation: nat, parent: Option<Id>)

  /** A call between two store operations. */
  datatype Proc =
    | Mint(user: string, family: string, generation: nat, parent: Option<Id>)
    | RotateFind(hash: string)
    | RetireExpired(id: Id)
    | Retire(id: Id, user: string, family: string)
    | KillFamily(family: string)
    | LogoutFind(hash: string)
    | KillUser(user: string)

  /** `used` are the families ever drawn. */
  datatype State = State(sessions: map<Id, Session>, now: nat, procs: map<nat, Proc>, used: set<string>)

  const INITIAL: State := State(map[], 0, map[], {})

  // ---- The store, one atomic operation at a time ----

  /** The hit a lookup by refresh hash may give. */
  predicate HashAnswer(sessions: map<Id, Session>, hash: string, hit: Option<Id>) {
    match hit
    case Some(id) => id in sessions && sessions[id].refreshHash == hash
    case None => forall id :: id in sessions ==> sessions[id].refreshHash != hash
  }

  predicate Active(sessions: map<Id, Session>, id: Id) {
    id in sessions && sessions[id].revokedAt.None?
  }

  /** Retire one session if it is still active; says whether this call did it. */
  function RevokeIfActive(sessions: map<Id, Session>, id: Id, now: nat): (map<Id, Session>, bool) {
    if Active(sessions, id) then (sessions[id := sessions[id].(revokedAt := Some(now))], true) else (sessions, false)
  }

  function Revoked(x: Session, now: nat): Session {
    if x.revokedAt.None? then x.(revokedAt := Some(now)) else x
  }

  function RevokeFamily(sessions: map<Id, Session>, family: string, now: nat): map<Id, Session> {
    map id | id in sessions :: if sessions[id].family == family then Revoked(sessions[id], now) else sessions[id]
  }

  function RevokeAllForUser(sessions: map<Id, Session>, user: string, now: nat): map<Id, Session> {
    map id | id in sessions :: if sessions[id].user == user then Revoked(sessions[id], now) else sessions[id]
  }

  // ---- Steps ----

  /** What the store, the clock and the random source chose for one step. */
  datatype Choice = Choice(pick: Option<Id>, hash: string, expiresAt: nat)

  datatype Effect = Effect(sessions: map<Id, Session>, next: Option<Proc>)

  function Advance(sessions: map<Id, Session>, now: nat, p: Proc, c: Choice): Effect {
    match p
    case Mint(user, family, generation, parent) =>
      if c.pick.None? || c.pick.value in sessions then Effect(sessions, Some(p))
      else Effect(sessions[c.pick.value := Session(user, family, c.hash, c.expiresAt, None, generation, parent)], None)
    case RotateFind(hash) =>
      if !HashAnswer(sessions, hash, c.pick) then Effect(sessions, Some(p))
      else if c.pick.None? then Effect(sessions, None)
      else
        var x := sessions[c.pick.value];
        if x.revokedAt.Some? then Effect(sessions, Some(KillFamily(x.family)))
        else if x.expiresAt <= now then Effect(sessions, Some(RetireExpired(c.pick.value)))
        else Effect(sessions, Some(Retire(c.pick.value, x.user, x.family)))
    case RetireExpired(id) => Effect(RevokeIfActive(sessions, id, now).0, None)
    case Retire(id, user, family) =>
      var (left, won) := RevokeIfActive(sessions, id, now);
      if won then Effect(left, Some(Mint(user, family, sessions[id].generation + 1, Some(id))))
      else Effect(left, Some(KillFamily(family)))
    case KillFamily(family) => Effect(RevokeFamily(sessions, family, now), None)
    case LogoutFind(hash) =>
      if !HashAnswer(sessions, hash, c.pick) then Effect(sessions, Some(p))
      else Effect(sessions, if c.pick.None? then None else Some(KillFamily(sessions[c.pick.value].family)))
    case KillUser(user) => Effect(RevokeAllForUser(sessions, user, now), None)
  }

  datatype Action =
    | Login(pid: nat, user: string, family: string)
    | Rotate(pid: nat, hash: string)
    | Logout(pid: nat, hash: string)
    | LogoutEverywhere(pid: nat, user: string)
    | Next(pid: nat, choice: Choice)
    | Crash(pid: nat)
    | Tick(to: nat)

  function Without(procs: map<nat, Proc>, pid: nat): map<nat, Proc> {
    map q | q in procs && q != pid :: procs[q]
  }

  function Settle(procs: map<nat, Proc>, pid: nat, next: Option<Proc>): map<nat, Proc> {
    if next.Some? then procs[pid := next.value] else Without(procs, pid)
  }

  function Started(s: State, pid: nat, p: Proc): State {
    if pid in s.procs then s else s.(procs := s.procs[pid := p])
  }

  function Apply(s: State, pid: nat, e: Effect): State {
    s.(sessions := e.sessions, procs := Settle(s.procs, pid, e.next))
  }

  /** A login draws a family nobody has drawn before. */
  function Step(s: State, a: Action): State {
    match a
    case Login(pid, user, family) =>
      if pid in s.procs || family in s.used then s
      else s.(procs := s.procs[pid := Mint(user, family, 0, None)], used := s.used + {family})
    case Rotate(pid, hash) => Started(s, pid, RotateFind(hash))
    case Logout(pid, hash) => Started(s, pid, LogoutFind(hash))
    case LogoutEverywhere(pid, user) => Started(s, pid, KillUser(user))
    case Next(pid, choice) => if pid in s.procs then Apply(s, pid, Advance(s.sessions, s.now, s.procs[pid], choice)) else s
    case Crash(pid) => s.(procs := Without(s.procs, pid))
    case Tick(to) => if s.now <= to then s.(now := to) else s
  }

  function Run(s: State, actions: seq<Action>): State {
    if actions == [] then s else Step(Run(s, actions[..|actions| - 1]), actions[|actions| - 1])
  }

  // ---- The family invariant ----

  /** What keeps a family alive: an active session, or a call about to mint one. */
  datatype Claim = ActiveSession(id: Id) | Minting(pid: nat)

  predicate Holds(s: State, family: string, c: Claim) {
    match c
    case ActiveSession(id) => Active(s.sessions, id) && s.sessions[id].family == family
    case Minting(pid) => pid in s.procs && s.procs[pid].Mint? && s.procs[pid].family == family
  }

  ghost predicate OneClaim(s: State, family: string) {
    forall c, d :: Holds(s, family, c) && Holds(s, family, d) ==> c == d
  }

  predicate ParentOk(sessions: map<Id, Session>, user: string, family: string, generation: nat, parent: Option<Id>) {
    match parent
    case None => generation == 0
    case Some(p) =>
      p in sessions && sessions[p].revokedAt.Some? && sessions[p].user == user && sessions[p].family == family
      && generation == sessions[p].generation + 1
  }

  predicate SessionOk(s: State, id: Id)
    requires id in s.sessions
  {
    var x := s.sessions[id];
    && x.family in s.used
    && ParentOk(s.sessions, x.user, x.family, x.generation, x.parent)
    && (x.revokedAt.None? ==> forall o :: o in s.sessions && s.sessions[o].family == x.family ==> s.sessions[o].generation <= x.generation)
  }

  predicate ProcOk(s: State, p: Proc) {
    match p
    case Mint(user, family, generation, parent) =>
      && family in s.used && ParentOk(s.sessions, user, family, generation, parent)
      && forall o :: o in s.sessions && s.sessions[o].family == family ==> s.sessions[o].generation < generation
    case Retire(id, user, family) => id in s.sessions && s.sessions[id].user == user && s.sessions[id].family == family
    case KillFamily(family) => family in s.used
    case _ => true
  }

  predicate SamePlace(x: Session, y: Session) {
    x.family == y.family && x.generation == y.generation
  }

  /** One session to a family and generation: the family is one line of successors. */
  predicate Linear(s: State) {
    forall a, b :: a in s.sessions && b in s.sessions && SamePlace(s.sessions[a], s.sessions[b]) ==> a == b
  }

  ghost predicate Inv(s: State) {
    && (forall f :: OneClaim(s, f))
    && (forall id :: id in s.sessions ==> SessionOk(s, id))
    && (forall pid :: pid in s.procs ==> ProcOk(s, s.procs[pid]))
    && Linear(s)
  }

  // ---- Revocations ----

  /** Sessions change only by being revoked. */
  predicate OnlyRevoked(a: map<Id, Session>, b: map<Id, Session>) {
    && a.Keys == b.Keys
    && forall id :: id in a ==> b[id] == a[id] || (a[id].revokedAt.None? && b[id] == a[id].(revokedAt := b[id].revokedAt) && b[id].revokedAt.Some?)
  }

  lemma RevocationsOnlyRevoke(sessions: map<Id, Session>, id: Id, family: string, user: string, now: nat)
    ensures OnlyRevoked(sessions, RevokeIfActive(sessions, id, now).0)
    ensures OnlyRevoked(sessions, RevokeFamily(sessions, family, now))
    ensures OnlyRevoked(sessions, RevokeAllForUser(sessions, user, now))
  {
  }

  lemma ParentStable(a: map<Id, Session>, b: map<Id, Session>, user: string, family: string, generation: nat, parent: Option<Id>)
    requires OnlyRevoked(a, b) && ParentOk(a, user, family, generation, parent)
    ensures ParentOk(b, user, family, generation, parent)
  {
  }

  lemma RevokedSessionOk(s: State, b: map<Id, Session>, id: Id)
    requires OnlyRevoked(s.sessions, b) && id in b && SessionOk(s, id)
    ensures SessionOk(s.(sessions := b), id)
  {
    var x := b[id];
    ParentStable(s.sessions, b, x.user, x.family, x.generation, x.parent);
  }

  lemma RevokedProcOk(s: State, b: map<Id, Session>, p: Proc)
    requires OnlyRevoked(s.sessions, b) && ProcOk(s, p)
    ensures ProcOk(s.(sessions := b), p)
  {
    if p.Mint? { ParentStable(s.sessions, b, p.user, p.family, p.generation, p.parent); }
  }

  /** Revoking sessions and replacing a call by one that holds no new claim keeps everything. */
  lemma RevokeKeeps(s: State, pid: nat, b: map<Id, Session>, next: Option<Proc>)
    requires Inv(s) && OnlyRevoked(s.sessions, b)
    requires next.Some? ==> !next.value.Mint? && ProcOk(s, next.value)
    ensures Inv(State(b, s.now, Settle(s.procs, pid, next), s.used))
  {
    var t := s.(sessions := b);
    var s' := State(b, s.now, Settle(s.procs, pid, next), s.used);
    forall f, c | Holds(s', f, c) ensures Holds(s, f, c) {
    }
    forall f ensures OneClaim(s', f) { assert OneClaim(s, f); }
    forall id | id in s'.sessions ensures SessionOk(s', id) {
      RevokedSessionOk(s, b, id);
      assert SessionOk(t, id);
    }
    forall q | q in s'.procs ensures ProcOk(s', s'.procs[q]) {
      RevokedProcOk(s, b, s'.procs[q]);
      assert ProcOk(t, s'.procs[q]);
    }
  }

  // ---- The two steps that move a claim ----

  /** The state after the call pid won the compare-and-swap on session id. */
  function Won(s: State, pid: nat, id: Id): State
    requires pid in s.procs && s.procs[pid].Retire? && id in s.sessions
  {
    var p := s.procs[pid];
    State(RevokeIfActive(s.sessions, id, s.now).0, s.now,
          s.procs[pid := Mint(p.user, p.family, s.sessions[id].generation + 1, Some(id))], s.used)
  }

  predicate Wins(s: State, pid: nat, id: Id) {
    pid in s.procs && s.procs[pid].Retire? && s.procs[pid].id == id && Active(s.sessions, id)
    && ProcOk(s, s.procs[pid]) && SessionOk(s, id)
  }

  lemma WonClaims(s: State, pid: nat, id: Id, f: string)
    requires Wins(s, pid, id) && OneClaim(s, f)
    ensures OneClaim(Won(s, pid, id), f)
  {
    var s' := Won(s, pid, id);
    forall c | Holds(s', f, c) ensures if f == s.procs[pid].family then c == Minting(pid) else Holds(s, f, c) {
      if f == s.procs[pid].family && c != Minting(pid) {
        assert Holds(s, f, ActiveSession(id)) && Holds(s, f, c);
      }
    }
  }

  lemma WonSessions(s: State, pid: nat, id: Id, o: Id)
    requires Wins(s, pid, id) && o in s.sessions && SessionOk(s, o)
    ensures o in Won(s, pid, id).sessions && SessionOk(Won(s, pid, id), o)
  {
    var b := RevokeIfActive(s.sessions, id, s.now).0;
    RevocationsOnlyRevoke(s.sessions, id, "", "", s.now);
    hide OnlyRevoked, ParentOk;
    RevokedSessionOk(s, b, o);
    assert SessionOk(s.(sessions := b), o);
  }

  lemma WonProcs(s: State, pid: nat, id: Id, q: nat)
    requires Wins(s, pid, id) && q in s.procs && ProcOk(s, s.procs[q])
    ensures ProcOk(Won(s, pid, id), Won(s, pid, id).procs[q])
  {
    var b := RevokeIfActive(s.sessions, id, s.now).0;
    if q != pid {
      RevocationsOnlyRevoke(s.sessions, id, "", "", s.now);
      hide OnlyRevoked, ParentOk;
      RevokedProcOk(s, b, s.procs[q]);
      assert ProcOk(s.(sessions := b), s.procs[q]);
    }
  }

  lemma RevokedLinear(s: State, s': State)
    requires OnlyRevoked(s.sessions, s'.sessions) && Linear(s)
    ensures Linear(s')
  {
    forall a, b | a in s'.sessions && b in s'.sessions && SamePlace(s'.sessions[a], s'.sessions[b]) ensures a == b {
      assert SamePlace(s.sessions[a], s.sessions[b]);
    }
  }

  /** The winner of the compare-and-swap turns the family's active session into its own claim. */
  lemma WonKeeps(s: State, pid: nat, id: Id)
    requires Inv(s) && Wins(s, pid, id)
    ensures Inv(Won(s, pid, id))
  {
    var s' := Won(s, pid, id);
    RevocationsOnlyRevoke(s.sessions, id, "", "", s.now);
    hide OneClaim, SessionOk, ProcOk, Linear;
    assert OnlyRevoked(s.sessions, s'.sessions);
    hide OnlyRevoked;
    RevokedLinear(s, s');
    forall f ensures OneClaim(s', f) { WonClaims(s, pid, id, f); }
    forall o | o in s'.sessions ensures SessionOk(s', o) { WonSessions(s, pid, id, o); }
    forall q | q in s'.procs ensures ProcOk(s', s'.procs[q]) { WonProcs(s, pid, id, q); }
  }

  /** The state after the call pid stored its session under the new id. */
  function Minted(s: State, pid: nat, id: Id, hash: string, expiresAt: nat): State
    requires pid in s.procs && s.procs[pid].Mint?
  {
    var p := s.procs[pid];
    State(s.sessions[id := Session(p.user, p.family, hash, expiresAt, None, p.generation, p.parent)], s.now,
          Without(s.procs, pid), s.used)
  }

  lemma MintClaims(s: State, pid: nat, id: Id, hash: string, expiresAt: nat, f: string)
    requires pid in s.procs && s.procs[pid].Mint? && id !in s.sessions && OneClaim(s, f)
    ensures OneClaim(Minted(s, pid, id, hash, expiresAt), f)
  {
    var s' := Minted(s, pid, id, hash, expiresAt);
    forall c | Holds(s', f, c) ensures if f == s.procs[pid].family then c == ActiveSession(id) else Holds(s, f, c) {
      if f == s.procs[pid].family && c != ActiveSession(id) {
        assert Holds(s, f, Minting(pid)) && Holds(s, f, c);
      }
    }
  }

  lemma MintSessions(s: State, pid: nat, id: Id, hash: string, expiresAt: nat, o: Id)
    requires Inv(s) && pid in s.procs && s.procs[pid].Mint? && id !in s.sessions
    requires o in Minted(s, pid, id, hash, expiresAt).sessions
    ensures SessionOk(Minted(s, pid, id, hash, expiresAt), o)
  {
    var s' := Minted(s, pid, id, hash, expiresAt);
    assert ProcOk(s, s.procs[pid]);
    assert Holds(s, s.procs[pid].family, Minting(pid));
    if o != id {
      OldSessionOk(s, s', o, s.procs[pid].family, pid);
    }
  }

  lemma MintProcs(s: State, pid: nat, id: Id, hash: string, expiresAt: nat, q: nat)
    requires Inv(s) && pid in s.procs && s.procs[pid].Mint? && id !in s.sessions && q in s.procs && q != pid
    ensures ProcOk(Minted(s, pid, id, hash, expiresAt), s.procs[q])
  {
    var f := s.procs[pid].family;
    assert ProcOk(s, s.procs[q]);
    assert OneClaim(s, f) && Holds(s, f, Minting(pid));
    assert s.procs[q].Mint? && s.procs[q].family == f ==> Holds(s, f, Minting(q));
  }

  lemma MintLinear(s: State, pid: nat, id: Id, hash: string, expiresAt: nat)
    requires Inv(s) && pid in s.procs && s.procs[pid].Mint? && id !in s.sessions
    ensures Linear(Minted(s, pid, id, hash, expiresAt))
  {
    var s' := Minted(s, pid, id, hash, expiresAt);
    assert ProcOk(s, s.procs[pid]);
    forall a, b | a in s'.sessions && b in s'.sessions && SamePlace(s'.sessions[a], s'.sessions[b]) ensures a == b {
    }
  }

  /** The new session is the family's next generation, and its only claim. */
  lemma MintKeeps(s: State, pid: nat, id: Id, hash: string, expiresAt: nat)
    requires Inv(s) && pid in s.procs && s.procs[pid].Mint? && id !in s.sessions
    ensures Inv(Minted(s, pid, id, hash, expiresAt))
  {
    var s' := Minted(s, pid, id, hash, expiresAt);
    MintLinear(s, pid, id, hash, expiresAt);
    hide OneClaim, SessionOk, ProcOk, Linear;
    forall f ensures OneClaim(s', f) { MintClaims(s, pid, id, hash, expiresAt, f); }
    forall o | o in s'.sessions ensures SessionOk(s', o) { MintSessions(s, pid, id, hash, expiresAt, o); }
    forall q | q in s'.procs ensures ProcOk(s', s'.procs[q]) { MintProcs(s, pid, id, hash, expiresAt, q); }
  }

  lemma OldSessionOk(s: State, s': State, o: Id, family: string, pid: nat)
    requires Inv(s) && o in s.sessions && o in s'.sessions && s'.sessions[o] == s.sessions[o] && s'.used == s.used
    requires Holds(s, family, Minting(pid))
    requires forall i :: i in s.sessions ==> i in s'.sessions && s'.sessions[i] == s.sessions[i]
    requires forall i :: i in s'.sessions && i !in s.sessions ==> s'.sessions[i].family == family
    ensures SessionOk(s', o)
  {
    assert SessionOk(s, o) && OneClaim(s, family);
    assert s.sessions[o].revokedAt.None? && s.sessions[o].family == family ==> Holds(s, family, ActiveSession(o));
  }

  // ---- Every step ----

  lemma RevokingKeeps(s: State, pid: nat, c: Choice)
    requires Inv(s) && pid in s.procs && (s.procs[pid].RetireExpired? || s.procs[pid].KillFamily? || s.procs[pid].KillUser?)
    ensures Inv(Apply(s, pid, Advance(s.sessions, s.now, s.procs[pid], c)))
  {
    hide Inv, OnlyRevoked;
    var p := s.procs[pid];
    RevocationsOnlyRevoke(s.sessions, if p.RetireExpired? then p.id else "", if p.KillFamily? then p.family else "",
                          if p.KillUser? then p.user else "", s.now);
    RevokeKeeps(s, pid, Advance(s.sessions, s.now, p, c).sessions, None);
  }

  lemma FamilyDrawn(s: State, id: Id)
    requires Inv(s) && id in s.sessions
    ensures s.sessions[id].family in s.used
  {
    assert SessionOk(s, id);
  }

  lemma ReadingKeeps(s: State, pid: nat, c: Choice)
    requires Inv(s) && pid in s.procs && (s.procs[pid].RotateFind? || s.procs[pid].LogoutFind?)
    ensures Inv(Apply(s, pid, Advance(s.sessions, s.now, s.procs[pid], c)))
  {
    hide Inv;
    var e := Advance(s.sessions, s.now, s.procs[pid], c);
    if c.pick.Some? && c.pick.value in s.sessions { FamilyDrawn(s, c.pick.value); }
    RevokeKeeps(s, pid, s.sessions, e.next);
  }

  lemma RetireWins(s: State, pid: nat)
    requires Inv(s) && pid in s.procs && s.procs[pid].Retire? && Active(s.sessions, s.procs[pid].id)
    ensures Wins(s, pid, s.procs[pid].id)
  {
    hide SessionOk;
    assert ProcOk(s, s.procs[pid]) && SessionOk(s, s.procs[pid].id);
  }

  lemma RetiringFamilyDrawn(s: State, pid: nat)
    requires Inv(s) && pid in s.procs && s.procs[pid].Retire?
    ensures s.procs[pid].family in s.used
  {
    assert ProcOk(s, s.procs[pid]) && SessionOk(s, s.procs[pid].id);
  }

  lemma RetireEffect(s: State, pid: nat, c: Choice)
    requires pid in s.procs && s.procs[pid].Retire?
    ensures Active(s.sessions, s.procs[pid].id) ==> Apply(s, pid, Advance(s.sessions, s.now, s.procs[pid], c)) == Won(s, pid, s.procs[pid].id)
    ensures !Active(s.sessions, s.procs[pid].id) ==>
              Advance(s.sessions, s.now, s.procs[pid], c) == Effect(s.sessions, Some(KillFamily(s.procs[pid].family)))
  {
  }

  lemma RetireKeeps(s: State, pid: nat, c: Choice)
    requires Inv(s) && pid in s.procs && s.procs[pid].Retire?
    ensures Inv(Apply(s, pid, Advance(s.sessions, s.now, s.procs[pid], c)))
  {
    hide Inv, Wins, Won, Active, Advance;
    var p := s.procs[pid];
    RetireEffect(s, pid, c);
    if Active(s.sessions, p.id) {
      RetireWins(s, pid);
      WonKeeps(s, pid, p.id);
    } else {
      RetiringFamilyDrawn(s, pid);
      RevokeKeeps(s, pid, s.sessions, Some(KillFamily(p.family)));
    }
  }

  lemma AdvanceKeeps(s: State, pid: nat, c: Choice)
    requires Inv(s) && pid in s.procs
    ensures Inv(Apply(s, pid, Advance(s.sessions, s.now, s.procs[pid], c)))
  {
    hide Inv;
    var p := s.procs[pid];
    if p.Mint? {
      if c.pick.Some? && c.pick.value !in s.sessions { MintKeeps(s, pid, c.pick.value, c.hash, c.expiresAt); }
      else { assert s.procs[pid := p] == s.procs; }
    }
    else if p.Retire? { RetireKeeps(s, pid, c); }
    else if p.RotateFind? || p.LogoutFind? { ReadingKeeps(s, pid, c); }
    else { RevokingKeeps(s, pid, c); }
  }

  lemma LoginKeeps(s: State, pid: nat, user: string, family: string)
    requires Inv(s) && pid !in s.procs && family !in s.used
    ensures Inv(Step(s, Login(pid, user, family)))
  {
    var s' := Step(s, Login(pid, user, family));
    forall id | id in s.sessions ensures s.sessions[id].family != family && SessionOk(s', id) { assert SessionOk(s, id); }
    forall q | q in s'.procs ensures ProcOk(s', s'.procs[q]) {
      if q != pid { assert ProcOk(s, s.procs[q]); }
    }
    forall f, c | Holds(s', f, c) ensures if c == Minting(pid) then f == family else Holds(s, f, c) && f != family {
      if c.Minting? && c.pid != pid { assert ProcOk(s, s.procs[c.pid]); }
    }
    forall f ensures OneClaim(s', f) { assert OneClaim(s, f); }
  }

  lemma StepKeeps(s: State, a: Action)
    requires Inv(s)
    ensures Inv(Step(s, a))
  {
    match a
    case Login(pid, user, family) => if pid !in s.procs && family !in s.used { LoginKeeps(s, pid, user, family); }
    case Next(pid, choice) => if pid in s.procs { AdvanceKeeps(s, pid, choice); }
    case Tick(to) => ClockKeeps(s, to);
    case Crash(pid) => RevokeKeeps(s, pid, s.sessions, None);
    case Rotate(pid, hash) => if pid !in s.procs { RevokeKeeps(s, pid, s.sessions, Some(RotateFind(hash))); }
    case Logout(pid, hash) => if pid !in s.procs { RevokeKeeps(s, pid, s.sessions, Some(LogoutFind(hash))); }
    case LogoutEverywhere(pid, user) => if pid !in s.procs { RevokeKeeps(s, pid, s.sessions, Some(KillUser(user))); }
  }

  lemma ClockKeeps(s: State, to: nat)
    requires Inv(s)
    ensures Inv(s.(now := to))
  {
    var s' := s.(now := to);
    forall f, c ensures Holds(s', f, c) <==> Holds(s, f, c) {
    }
    forall f ensures OneClaim(s', f) { assert OneClaim(s, f); }
    forall id | id in s.sessions ensures SessionOk(s', id) { assert SessionOk(s, id); }
    forall q | q in s.procs ensures ProcOk(s', s.procs[q]) { assert ProcOk(s, s.procs[q]); }
  }

  lemma {:induction false} RunKeeps(s: State, actions: seq<Action>)
    requires Inv(s)
    ensures Inv(Run(s, actions))
  {
    hide Inv, Step;
    if actions != [] {
      RunKeeps(s, actions[..|actions| - 1]);
      StepKeeps(Run(s, actions[..|actions| - 1]), actions[|actions| - 1]);
    }
  }

  lemma Reachable(actions: seq<Action>)
    ensures Inv(Run(INITIAL, actions))
  {
    RunKeeps(INITIAL, actions);
  }

  // ---- What it means ----

  function ActiveOf(s: State, family: string): set<Id> {
    set id | id in s.sessions && s.sessions[id].revokedAt.None? && s.sessions[id].family == family
  }

  function MintingOf(s: State, family: string): set<nat> {
    set pid | pid in s.procs && s.procs[pid].Mint? && s.procs[pid].family == family
  }

  lemma AtMostOne<T>(xs: set<T>)
    requires forall x, y :: x in xs && y in xs ==> x == y
    ensures |xs| <= 1
  {
    if xs != {} {
      var x :| x in xs;
      assert xs == {x};
    }
  }

  lemma ClaimsCounted(s: State, family: string)
    requires OneClaim(s, family)
    ensures |ActiveOf(s, family)| + |MintingOf(s, family)| <= 1
  {
    assert forall id :: id in ActiveOf(s, family) ==> Holds(s, family, ActiveSession(id));
    assert forall pid :: pid in MintingOf(s, family) ==> Holds(s, family, Minting(pid));
    assert forall id :: Holds(s, family, ActiveSession(id)) ==> id in ActiveOf(s, family);
    forall x, y | x in ActiveOf(s, family) && y in ActiveOf(s, family) ensures x == y {
      assert ActiveSession(x) == ActiveSession(y);
    }
    forall x, y | x in MintingOf(s, family) && y in MintingOf(s, family) ensures x == y {
      assert Minting(x) == Minting(y);
    }
    AtMostOne(ActiveOf(s, family));
    AtMostOne(MintingOf(s, family));
    NotBoth(s, family);
  }

  lemma NotBoth(s: State, family: string)
    requires OneClaim(s, family)
    ensures ActiveOf(s, family) == {} || MintingOf(s, family) == {}
  {
    if x :| x in ActiveOf(s, family) {
      forall y | y in MintingOf(s, family) ensures false {
        assert Holds(s, family, ActiveSession(x)) && Holds(s, family, Minting(y));
      }
    }
  }

  /** In every run, at every moment, for every family: the active sessions and the rotations that have won
      but not yet minted are at most one together. */
  lemma OneLineOfLife(actions: seq<Action>, family: string)
    ensures var s := Run(INITIAL, actions); |ActiveOf(s, family)| + |MintingOf(s, family)| <= 1
  {
    Reachable(actions);
    hide Run;
    assert OneClaim(Run(INITIAL, actions), family);
    ClaimsCounted(Run(INITIAL, actions), family);
  }

  /** A session has at most one successor, in the same family and for the same user, and only once it is
      retired; and a family has one first session. */
  lemma FamilyIsAChain(actions: seq<Action>, a: Id, b: Id)
    requires var s := Run(INITIAL, actions); a in s.sessions && b in s.sessions
    ensures var s := Run(INITIAL, actions);
            && (s.sessions[a].parent.Some? && s.sessions[a].parent == s.sessions[b].parent ==> a == b)
            && (s.sessions[a].parent.None? && s.sessions[b].parent.None? && s.sessions[a].family == s.sessions[b].family ==> a == b)
            && (s.sessions[a].parent == Some(b) ==>
                  s.sessions[b].revokedAt.Some? && s.sessions[a].family == s.sessions[b].family && s.sessions[a].user == s.sessions[b].user)
  {
    Reachable(actions);
    var s := Run(INITIAL, actions);
    hide Run;
    assert SessionOk(s, a) && SessionOk(s, b);
    assert SamePlace(s.sessions[a], s.sessions[b]) ==> a == b;
  }

  /** The family was drawn, and nothing keeps it alive. */
  ghost predicate Ended(s: State, family: string) {
    family in s.used && forall c :: !Holds(s, family, c)
  }

  lemma EndedStep(s: State, a: Action, family: string)
    requires Inv(s) && Ended(s, family)
    ensures Ended(Step(s, a), family)
  {
    var s' := Step(s, a);
    assert forall id :: id in s.sessions && s.sessions[id].family == family ==> !Holds(s, family, ActiveSession(id));
    if a.Next? && a.pid in s.procs { assert ProcOk(s, s.procs[a.pid]); }
    hide Inv, ProcOk;
    forall c ensures !Holds(s', family, c) {
      EndedClaim(s, a, family, c);
    }
  }

  lemma EndedClaim(s: State, a: Action, family: string, c: Claim)
    requires Ended(s, family) && (a.Next? && a.pid in s.procs ==> ProcOk(s, s.procs[a.pid]))
    ensures !Holds(Step(s, a), family, c)
  {
    assert !Holds(s, family, c);
    if a.Next? && a.pid in s.procs && s.procs[a.pid].Mint? { assert !Holds(s, family, Minting(a.pid)); }
    if a.Next? && a.pid in s.procs && s.procs[a.pid].Retire? { assert !Holds(s, family, ActiveSession(s.procs[a.pid].id)); }
  }

  /** An ended family stays ended, whatever tokens of it are presented later. */
  lemma {:induction false} EndedForGood(s: State, actions: seq<Action>, family: string)
    requires Inv(s) && Ended(s, family)
    ensures Ended(Run(s, actions), family)
  {
    hide Inv, Ended, Step;
    if actions != [] {
      EndedForGood(s, actions[..|actions| - 1], family);
      RunKeeps(s, actions[..|actions| - 1]);
      EndedStep(Run(s, actions[..|actions| - 1]), actions[|actions| - 1], family);
    }
  }

  /** Whatever happens from here on, no session of the family is ever active. */
  ghost predicate DeadForGood(s: State, family: string) {
    forall more: seq<Action> :: ActiveOf(Run(s, more), family) == {}
  }

  lemma EndedIsDead(s: State, family: string)
    requires Inv(s) && Ended(s, family)
    ensures DeadForGood(s, family)
  {
    hide Inv, Ended, Run;
    forall more: seq<Action> ensures ActiveOf(Run(s, more), family) == {} {
      EndedForGood(s, more, family);
      NothingActive(Run(s, more), family);
    }
  }

  lemma NothingActive(s: State, family: string)
    requires Ended(s, family)
    ensures ActiveOf(s, family) == {}
  {
    forall id | id in ActiveOf(s, family) ensures false { assert Holds(s, family, ActiveSession(id)); }
  }

  /** A rotation that has won goes on to mint. */
  lemma MintingRevives(s: State, q: nat, family: string)
    requires q in MintingOf(s, family)
    ensures !DeadForGood(s, family)
  {
    var id := FreshId(s.sessions.Keys);
    var mint := Next(q, Choice(Some(id), "", 0));
    assert Run(s, [mint]) == Step(s, mint) by { assert [mint][..0] == []; }
    assert id in ActiveOf(Run(s, [mint]), family);
  }

  /** After a family is revoked, by a logout or a replayed token, no session of it is ever active again
      exactly when no rotation of it stood between its won swap and its mint. */
  lemma RevokingEndsExactlyWhen(s: State, pid: nat, c: Choice)
    requires Inv(s) && pid in s.procs && s.procs[pid].KillFamily?
    ensures var family := s.procs[pid].family;
            DeadForGood(Step(s, Next(pid, c)), family) <==> MintingOf(s, family) == {}
  {
    var family := s.procs[pid].family;
    var s' := Step(s, Next(pid, c));
    StepKeeps(s, Next(pid, c));
    assert ProcOk(s, s.procs[pid]);
    hide Inv, DeadForGood;
    assert MintingOf(s', family) == MintingOf(s, family);
    if MintingOf(s, family) == {} {
      forall d ensures !Holds(s', family, d) {
        if d.Minting? { assert d.pid !in MintingOf(s', family); }
      }
      EndedIsDead(s', family);
    } else {
      var q :| q in MintingOf(s', family);
      MintingRevives(s', q, family);
    }
  }

  // ---- Logging a user out everywhere ----

  /** The calls about to mint for a user. */
  function MintingFor(s: State, user: string): set<nat> {
    set pid | pid in s.procs && s.procs[pid].Mint? && s.procs[pid].user == user
  }

  /** The active sessions of a user in one of the given families. */
  function ActiveFor(s: State, user: string, families: set<string>): set<Id> {
    set id | id in s.sessions && s.sessions[id].revokedAt.None? && s.sessions[id].user == user && s.sessions[id].family in families
  }

  /** Neither an active session nor a call about to mint keeps a login of the user in these families alive. */
  predicate LoggedOut(s: State, user: string, families: set<string>) {
    && families <= s.used
    && ActiveFor(s, user, families) == {}
    && forall pid :: pid in MintingFor(s, user) ==> s.procs[pid].family !in families
  }

  lemma LoggedOutStep(s: State, a: Action, user: string, families: set<string>)
    requires Inv(s) && LoggedOut(s, user, families)
    ensures LoggedOut(Step(s, a), user, families)
  {
    hide Inv, Step;
    UsedGrows(s, a);
    forall id ensures id !in ActiveFor(Step(s, a), user, families) { NoSessionReturns(s, a, user, families, id); }
    forall pid | pid in MintingFor(Step(s, a), user) ensures Step(s, a).procs[pid].family !in families {
      if pid in s.procs { RetireIsOwn(s, pid); }
      NoMintStarts(s, a, user, families, pid);
    }
  }

  lemma UsedGrows(s: State, a: Action)
    ensures s.used <= Step(s, a).used
  {
    hide Advance;
  }

  lemma NoSessionReturns(s: State, a: Action, user: string, families: set<string>, id: Id)
    requires LoggedOut(s, user, families)
    ensures id !in ActiveFor(Step(s, a), user, families)
  {
    assert id !in ActiveFor(s, user, families);
    if a.Next? && a.pid in s.procs && s.procs[a.pid].Mint? {
      assert s.procs[a.pid].user == user ==> a.pid in MintingFor(s, user);
    }
  }

  /** A rotation mints for the user and family of the active session it has just retired. */
  lemma NoMintStarts(s: State, a: Action, user: string, families: set<string>, pid: nat)
    requires LoggedOut(s, user, families) && pid in MintingFor(Step(s, a), user)
    requires pid in s.procs ==> RetiresItsOwn(s, s.procs[pid])
    ensures Step(s, a).procs[pid].family !in families
  {
    hide HashAnswer, RevokeFamily, RevokeAllForUser, OnlyRevoked;
    if pid in s.procs {
      assert s.procs[pid].Mint? ==> pid in MintingFor(s, user);
      assert s.procs[pid].Retire? ==> s.procs[pid].id !in ActiveFor(s, user, families);
    }
  }

  predicate RetiresItsOwn(s: State, p: Proc) {
    p.Retire? ==> p.id in s.sessions && s.sessions[p.id].user == p.user && s.sessions[p.id].family == p.family
  }

  lemma RetireIsOwn(s: State, pid: nat)
    requires Inv(s) && pid in s.procs
    ensures RetiresItsOwn(s, s.procs[pid])
  {
    assert ProcOk(s, s.procs[pid]);
  }

  lemma {:induction false} LoggedOutForGood(s: State, actions: seq<Action>, user: string, families: set<string>)
    requires Inv(s) && LoggedOut(s, user, families)
    ensures LoggedOut(Run(s, actions), user, families)
  {
    hide Inv, LoggedOut, Step;
    if actions != [] {
      LoggedOutForGood(s, actions[..|actions| - 1], user, families);
      RunKeeps(s, actions[..|actions| - 1]);
      LoggedOutStep(Run(s, actions[..|actions| - 1]), actions[|actions| - 1], user, families);
    }
  }

  /** Whatever happens from here on, no session of the user in a family drawn so far is ever active. */
  ghost predicate LogInsDeadForGood(s: State, user: string) {
    forall more: seq<Action> :: ActiveFor(Run(s, more), user, s.used) == {}
  }

  lemma MintingOutlives(s: State, q: nat, user: string)
    requires Inv(s) && q in MintingFor(s, user)
    ensures !LogInsDeadForGood(s, user)
  {
    assert ProcOk(s, s.procs[q]);
    hide Inv, ProcOk;
    var id := FreshId(s.sessions.Keys);
    var mint := Next(q, Choice(Some(id), "", 0));
    assert Run(s, [mint]) == Step(s, mint) by { assert [mint][..0] == []; }
    assert id in ActiveFor(Run(s, [mint]), user, s.used);
  }

  /** After all sessions of a user are revoked, none of the families drawn so far ever has an active session
      of that user again, exactly when no call stood before minting for the user. Later logins draw new
      families. */
  lemma RevokingUserEndsExactlyWhen(s: State, pid: nat, c: Choice)
    requires Inv(s) && pid in s.procs && s.procs[pid].KillUser?
    ensures var user := s.procs[pid].user;
            LogInsDeadForGood(Step(s, Next(pid, c)), user) <==> MintingFor(s, user) == {}
  {
    var user := s.procs[pid].user;
    var s' := Step(s, Next(pid, c));
    StepKeeps(s, Next(pid, c));
    hide Inv, LogInsDeadForGood;
    assert MintingFor(s', user) == MintingFor(s, user);
    if q :| q in MintingFor(s', user) {
      MintingOutlives(s', q, user);
    } else {
      assert ActiveFor(s', user, s'.used) == {};
      assert LoggedOut(s', user, s'.used);
      AllLoggedOut(s', user);
    }
  }

  lemma AllLoggedOut(s: State, user: string)
    requires Inv(s) && LoggedOut(s, user, s.used)
    ensures LogInsDeadForGood(s, user)
  {
    hide Inv, Run;
    forall more: seq<Action> ensures ActiveFor(Run(s, more), user, s.used) == {} { LoggedOutForGood(s, more, user, s.used); }
  }
}
