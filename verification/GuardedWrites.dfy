/** Bulk writes through the tenant-scoped repository: each operation is rewritten before it runs, because no
    middleware sees it, and then touches no document of another tenant. */
module GuardedWrites {
  import opened Outcomes
  import opened TenantQuery
  import opened TenantGuard

  type Collection = map<string, Doc>

  /** An update changes a matching document; on an upsert that inserts, the new document starts from the
      filter's literal fields, is changed likewise, and gets the $setOnInsert fields. */
  datatype Update = Update(apply: Doc -> Doc, setOnInsert: Doc)

  datatype BulkOp =
    | InsertOne(document: Doc)
    | UpdateOne(filter: Filter, update: Update, upsert: bool)
    | UpdateMany(filter: Filter, update: Update, upsert: bool)
    | ReplaceOne(filter: Filter, replacement: Doc, upsert: bool)
    | DeleteOne(filter: Filter)
    | DeleteMany(filter: Filter)

  function ScopeOp(op: BulkOp, t: string): Result<BulkOp, GuardError> {
    match op
    case InsertOne(document) => Ok(InsertOne(document[TENANT := Text(t)]))
    case UpdateOne(f, u, upsert) =>
      (match ScopeFilter(f, t)
       case Err(e) => Err(e)
       case Ok(g) => Ok(UpdateOne(g, if upsert then u.(setOnInsert := u.setOnInsert[TENANT := Text(t)]) else u, upsert)))
    case UpdateMany(f, u, upsert) =>
      (match ScopeFilter(f, t)
       case Err(e) => Err(e)
       case Ok(g) => Ok(UpdateMany(g, if upsert then u.(setOnInsert := u.setOnInsert[TENANT := Text(t)]) else u, upsert)))
    case ReplaceOne(f, r, upsert) =>
      (match ScopeFilter(f, t)
       case Err(e) => Err(e)
       case Ok(g) => Ok(ReplaceOne(g, if upsert then r[TENANT := Text(t)] else r, upsert)))
    case DeleteOne(f) =>
      (match ScopeFilter(f, t)
       case Err(e) => Err(e)
       case Ok(g) => Ok(DeleteOne(g)))
    case DeleteMany(f) =>
      (match ScopeFilter(f, t)
       case Err(e) => Err(e)
       case Ok(g) => Ok(DeleteMany(g)))
  }

  // ---- What an operation may do to a collection ----

  function Literals(f: Filter): Doc {
    map field | field in f && f[field].Is? :: f[field].value
  }

  /** The document an upsert inserts. */
  function Upserted(f: Filter, u: Update): Doc {
    u.apply(Literals(f)) + u.setOnInsert
  }

  predicate NothingMatches(c: Collection, f: Filter) {
    forall id :: id in c ==> !Matches(f, c[id])
  }

  /** What running op makes of c; `pick` is the document the store chose, or the new id. */
  function Outcome(c: Collection, op: BulkOp, pick: string): Collection {
    match op
    case InsertOne(document) => c[pick := document]
    case UpdateOne(f, u, upsert) =>
      if NothingMatches(c, f) then AfterMiss(c, f, u, upsert, pick)
      else if pick in c then c[pick := u.apply(c[pick])] else c
    case UpdateMany(f, u, upsert) =>
      if NothingMatches(c, f) then AfterMiss(c, f, u, upsert, pick)
      else map id | id in c :: if Matches(f, c[id]) then u.apply(c[id]) else c[id]
    case ReplaceOne(f, r, upsert) => if NothingMatches(c, f) && !upsert then c else c[pick := r]
    case DeleteOne(f) => if NothingMatches(c, f) then c else c - {pick}
    case DeleteMany(f) => map id | id in c && !Matches(f, c[id]) :: c[id]
  }

  function AfterMiss(c: Collection, f: Filter, u: Update, upsert: bool, pick: string): Collection {
    if upsert then c[pick := Upserted(f, u)] else c
  }

  /** What the store may pick: a new id for an insert, a matching document for an operation on one. */
  predicate Picks(c: Collection, op: BulkOp, pick: string) {
    match op
    case InsertOne(_) => pick !in c
    case UpdateOne(f, _, upsert) => PicksOne(c, f, upsert, pick)
    case UpdateMany(f, _, upsert) => NothingMatches(c, f) && upsert ==> pick !in c
    case ReplaceOne(f, _, upsert) => PicksOne(c, f, upsert, pick)
    case DeleteOne(f) => PicksOne(c, f, false, pick)
    case DeleteMany(_) => true
  }

  predicate PicksOne(c: Collection, f: Filter, upsert: bool, pick: string) {
    if NothingMatches(c, f) then upsert ==> pick !in c else pick in c && Matches(f, c[pick])
  }

  /** The store may leave c as `d` by running op. */
  predicate Runs(c: Collection, op: BulkOp, d: Collection, pick: string) {
    Picks(c, op, pick) && d == Outcome(c, op, pick)
  }

  predicate TenantKept(u: Update, d: Doc) {
    (TENANT in u.apply(d) <==> TENANT in d) && (TENANT in d ==> u.apply(d)[TENANT] == d[TENANT])
  }

  /** The tenant field is immutable in the schema: no update changes it. */
  ghost predicate KeepsTenant(op: BulkOp) {
    op.UpdateOne? || op.UpdateMany? ==> forall d: Doc :: TenantKept(op.update, d)
  }

  // ---- What a scoped operation keeps ----

  /** No document of another tenant is touched: neither changed nor deleted. */
  ghost predicate OthersUntouched(c: Collection, d: Collection, t: string) {
    forall id :: id in c && !OfTenant(c[id], t) ==> id in d && d[id] == c[id]
  }

  /** Every inserted document is the tenant's. */
  ghost predicate InsertsOwn(c: Collection, d: Collection, t: string) {
    forall id :: id in d && id !in c ==> OfTenant(d[id], t)
  }

  /** A scoped filter matches the tenant's documents only. */
  ghost predicate MatchesOwn(f: Filter, t: string) {
    forall d: Doc :: Matches(f, d) ==> OfTenant(d, t)
  }

  lemma ScopedMatchesOwn(f: Filter, t: string)
    requires ScopeFilter(f, t).Ok?
    ensures MatchesOwn(ScopeFilter(f, t).value, t)
  {
    forall d: Doc | Matches(ScopeFilter(f, t).value, d) ensures OfTenant(d, t) { PinnedMatches(f, t, d); }
  }

  lemma UpdateIsolated(c: Collection, f: Filter, u: Update, upsert: bool, t: string, d: Collection, pick: string, many: bool)
    requires MatchesOwn(f, t) && (upsert ==> TENANT in u.setOnInsert && u.setOnInsert[TENANT] == Text(t))
    requires Runs(c, if many then UpdateMany(f, u, upsert) else UpdateOne(f, u, upsert), d, pick)
    ensures OthersUntouched(c, d, t) && InsertsOwn(c, d, t)
  {
    hide Matches;
  }

  lemma ReplaceIsolated(c: Collection, f: Filter, r: Doc, upsert: bool, t: string, d: Collection, pick: string)
    requires MatchesOwn(f, t) && (upsert ==> OfTenant(r, t)) && Runs(c, ReplaceOne(f, r, upsert), d, pick)
    ensures OthersUntouched(c, d, t) && InsertsOwn(c, d, t)
  {
    hide Matches;
  }

  lemma DeleteIsolated(c: Collection, f: Filter, t: string, d: Collection, pick: string, many: bool)
    requires MatchesOwn(f, t) && Runs(c, if many then DeleteMany(f) else DeleteOne(f), d, pick)
    ensures OthersUntouched(c, d, t) && InsertsOwn(c, d, t)
  {
    hide Matches;
  }

  lemma ScopedOpIsolated(c: Collection, op: BulkOp, t: string, d: Collection, pick: string)
    requires ScopeOp(op, t).Ok? && Runs(c, ScopeOp(op, t).value, d, pick)
    ensures OthersUntouched(c, d, t) && InsertsOwn(c, d, t)
  {
    if !op.InsertOne? {
      ScopedMatchesOwn(op.filter, t);
      var s := ScopeOp(op, t).value;
      hide Runs, MatchesOwn, OthersUntouched, InsertsOwn, ScopeFilter;
      if op.UpdateOne? || op.UpdateMany? { UpdateIsolated(c, s.filter, s.update, s.upsert, t, d, pick, op.UpdateMany?); }
      else if op.ReplaceOne? { ReplaceIsolated(c, s.filter, s.replacement, s.upsert, t, d, pick); }
      else { DeleteIsolated(c, s.filter, t, d, pick, op.DeleteMany?); }
    }
  }

  /** A bulk is refused exactly when one of its operations names the tenant field in another way. */
  lemma ScopedOpRefusedExactly(op: BulkOp, t: string)
    ensures ScopeOp(op, t).Err? <==> !op.InsertOne? && !AtHome(op.filter, t)
  {
  }

  // ---- What a scoped operation does: the caller's own operation, on the tenant's slice ----

  function OwnOf(c: Collection, t: string): Collection {
    map id | id in c && OfTenant(c[id], t) :: c[id]
  }

  function OthersOf(c: Collection, t: string): Collection {
    map id | id in c && !OfTenant(c[id], t) :: c[id]
  }

  /** The operation puts a whole document in: one that gets the tenant, whatever the caller wrote there. */
  predicate PutsIn(op: BulkOp, own: Collection) {
    || op.InsertOne?
    || (op.ReplaceOne? && op.upsert)
    || ((op.UpdateOne? || op.UpdateMany?) && op.upsert && NothingMatches(own, op.filter))
  }

  function Stamped(e: Collection, op: BulkOp, own: Collection, pick: string, t: string): Collection {
    if PutsIn(op, own) && pick in e then e[pick := e[pick][TENANT := Text(t)]] else e
  }

  /** The caller's own operation is run on the tenant's documents alone; the collection becomes the others'
      documents as they were and its outcome, where a document put in whole is the tenant's. */
  predicate DoesOnSlice(c: Collection, op: BulkOp, t: string, d: Collection, pick: string) {
    var own, others := OwnOf(c, t), OthersOf(c, t);
    var e := Outcome(own, op, pick);
    Picks(own, op, pick) && !(pick in e && pick in others) && d == others + Stamped(e, op, own, pick, t)
  }

  /** The update operators act on other fields than the tenant's. */
  ghost predicate TenantBlind(u: Update, t: string) {
    forall d: Doc :: u.apply(d[TENANT := Text(t)]) == u.apply(d)[TENANT := Text(t)]
  }

  ghost predicate BlindUpsert(op: BulkOp, t: string) {
    (op.UpdateOne? || op.UpdateMany?) && op.upsert ==> TenantBlind(op.update, t)
  }

  /** The scoped filter g matches of all documents those of the slice that the caller's filter f matches. */
  ghost predicate Narrows(c: Collection, f: Filter, g: Filter, t: string) {
    forall id :: id in c ==> (Matches(g, c[id]) <==> OfTenant(c[id], t) && Matches(f, c[id]))
  }

  lemma ScopedNarrows(c: Collection, f: Filter, t: string)
    requires ScopeFilter(f, t).Ok?
    ensures Narrows(c, f, ScopeFilter(f, t).value, t)
    ensures NothingMatches(c, ScopeFilter(f, t).value) <==> NothingMatches(OwnOf(c, t), f)
  {
    forall id | id in c ensures Matches(ScopeFilter(f, t).value, c[id]) <==> OfTenant(c[id], t) && Matches(f, c[id]) {
      ScopedFilterExact(f, t, c[id]);
    }
    hide Matches, ScopeFilter;
    assert forall id :: id in c && OfTenant(c[id], t) ==> id in OwnOf(c, t) && OwnOf(c, t)[id] == c[id];
  }

  /** What an upsert inserts under the guard is what the caller's own would insert, for the tenant. */
  lemma UpsertedForTenant(f: Filter, g: Filter, u: Update, t: string)
    requires ScopeFilter(f, t) == Ok(g) && TenantBlind(u, t)
    ensures Upserted(g, u.(setOnInsert := u.setOnInsert[TENANT := Text(t)])) == Upserted(f, u)[TENANT := Text(t)]
  {
    assert Literals(g) == Literals(f)[TENANT := Text(t)];
  }

  lemma SliceRejoins(c: Collection, t: string)
    ensures OthersOf(c, t) + OwnOf(c, t) == c && OthersOf(c, t).Keys !! OwnOf(c, t).Keys
  {
  }

  lemma PutOnSlice(c: Collection, t: string, pick: string, x: Doc)
    requires pick !in OthersOf(c, t)
    ensures c[pick := x] == OthersOf(c, t) + OwnOf(c, t)[pick := x]
  {
    SliceRejoins(c, t);
    hide OwnOf, OthersOf;
  }

  lemma DropOnSlice(c: Collection, t: string, pick: string)
    requires pick !in OthersOf(c, t)
    ensures c - {pick} == OthersOf(c, t) + (OwnOf(c, t) - {pick})
  {
    SliceRejoins(c, t);
    hide OwnOf, OthersOf;
  }

  lemma PicksAgree(c: Collection, op: BulkOp, t: string, pick: string)
    requires ScopeOp(op, t).Ok?
    ensures Picks(c, ScopeOp(op, t).value, pick) <==>
            Picks(OwnOf(c, t), op, pick) && !(pick in Outcome(OwnOf(c, t), op, pick) && pick in OthersOf(c, t))
  {
    SliceRejoins(c, t);
    if !op.InsertOne? {
      ScopedNarrows(c, op.filter, t);
      hide Matches, NothingMatches, OthersOf, ScopeFilter, Upserted;
      assert pick in c ==> (Matches(ScopeFilter(op.filter, t).value, c[pick]) <==> OfTenant(c[pick], t) && Matches(op.filter, c[pick]));
    }
  }

  /** The scoped operation's outcome, for an operation on one document. */
  lemma OneOutcome(c: Collection, op: BulkOp, t: string, pick: string)
    requires op.InsertOne? || op.ReplaceOne? || op.DeleteOne?
    requires ScopeOp(op, t).Ok? && Picks(c, ScopeOp(op, t).value, pick) && pick !in OthersOf(c, t)
    ensures Outcome(c, ScopeOp(op, t).value, pick)
         == OthersOf(c, t) + Stamped(Outcome(OwnOf(c, t), op, pick), op, OwnOf(c, t), pick, t)
  {
    SliceRejoins(c, t);
    if !op.InsertOne? { ScopedNarrows(c, op.filter, t); }
    hide Matches, NothingMatches, OthersOf, OwnOf, ScopeFilter;
    var own := OwnOf(c, t);
    if op.DeleteOne? {
      DropOnSlice(c, t, pick);
    } else {
      var x := if op.InsertOne? then op.document else op.replacement;
      PutOnSlice(c, t, pick, x);
      PutOnSlice(c, t, pick, x[TENANT := Text(t)]);
      assert own[pick := x][pick := x[TENANT := Text(t)]] == own[pick := x[TENANT := Text(t)]];
    }
  }

  /** … for an update that finds nothing … */
  lemma MissOutcome(c: Collection, op: BulkOp, t: string, pick: string)
    requires (op.UpdateOne? || op.UpdateMany?) && NothingMatches(OwnOf(c, t), op.filter)
    requires ScopeOp(op, t).Ok? && BlindUpsert(op, t) && (op.upsert ==> pick !in c)
    ensures Outcome(c, ScopeOp(op, t).value, pick)
         == OthersOf(c, t) + Stamped(Outcome(OwnOf(c, t), op, pick), op, OwnOf(c, t), pick, t)
  {
    hide Matches, NothingMatches, ScopeFilter, Upserted, TenantBlind, OthersOf, OwnOf;
    SliceRejoins(c, t);
    ScopedNarrows(c, op.filter, t);
    var own, x := OwnOf(c, t), Upserted(op.filter, op.update);
    assert own[pick := x][pick := x[TENANT := Text(t)]] == own[pick := x[TENANT := Text(t)]];
    if op.upsert {
      UpsertedForTenant(op.filter, ScopeFilter(op.filter, t).value, op.update, t);
      assert pick !in OthersOf(c, t) by { assert OthersOf(c, t).Keys <= c.Keys; }
      PutOnSlice(c, t, pick, x[TENANT := Text(t)]);
    }
  }

  /** … for one that finds documents … */
  lemma UpdateOutcome(c: Collection, op: BulkOp, t: string, pick: string)
    requires (op.UpdateOne? || op.UpdateMany?) && !NothingMatches(OwnOf(c, t), op.filter)
    requires ScopeOp(op, t).Ok? && Picks(c, ScopeOp(op, t).value, pick)
    ensures Outcome(c, ScopeOp(op, t).value, pick)
         == OthersOf(c, t) + Stamped(Outcome(OwnOf(c, t), op, pick), op, OwnOf(c, t), pick, t)
  {
    hide Matches, NothingMatches, ScopeFilter;
    SliceRejoins(c, t);
    ScopedNarrows(c, op.filter, t);
    if op.UpdateOne? {
      PutOnSlice(c, t, pick, op.update.apply(c[pick]));
    }
  }

  /** … and for a deletion of many. */
  lemma DeleteManyOutcome(c: Collection, f: Filter, t: string, pick: string)
    requires ScopeFilter(f, t).Ok?
    ensures Outcome(c, DeleteMany(ScopeFilter(f, t).value), pick) == OthersOf(c, t) + Outcome(OwnOf(c, t), DeleteMany(f), pick)
  {
    ScopedNarrows(c, f, t);
    hide Matches, NothingMatches, ScopeFilter;
  }

  /** A scoped operation does on the collection exactly what the caller's own does on the tenant's documents. */
  lemma ScopedOpDoes(c: Collection, op: BulkOp, t: string, d: Collection, pick: string)
    requires ScopeOp(op, t).Ok? && BlindUpsert(op, t)
    ensures Runs(c, ScopeOp(op, t).value, d, pick) <==> DoesOnSlice(c, op, t, d, pick)
  {
    PicksAgree(c, op, t, pick);
    if Picks(c, ScopeOp(op, t).value, pick) { OutcomeAgrees(c, op, t, pick); }
    hide Outcome, Picks, Stamped;
  }

  lemma OutcomeAgrees(c: Collection, op: BulkOp, t: string, pick: string)
    requires ScopeOp(op, t).Ok? && BlindUpsert(op, t) && Picks(c, ScopeOp(op, t).value, pick)
    ensures Outcome(c, ScopeOp(op, t).value, pick)
         == OthersOf(c, t) + Stamped(Outcome(OwnOf(c, t), op, pick), op, OwnOf(c, t), pick, t)
  {
    if op.DeleteMany? { DeleteManyOutcome(c, op.filter, t, pick); }
    else if op.UpdateOne? || op.UpdateMany? {
      ScopedNarrows(c, op.filter, t);
      if NothingMatches(OwnOf(c, t), op.filter) { MissOutcome(c, op, t, pick); } else { UpdateOutcome(c, op, t, pick); }
    }
    else if pick !in OthersOf(c, t) { OneOutcome(c, op, t, pick); }
    else { ForeignPick(c, op, t, pick); }
  }

  lemma ForeignPick(c: Collection, op: BulkOp, t: string, pick: string)
    requires op.InsertOne? || op.ReplaceOne? || op.DeleteOne?
    requires ScopeOp(op, t).Ok? && Picks(c, ScopeOp(op, t).value, pick) && pick in OthersOf(c, t)
    ensures Outcome(c, ScopeOp(op, t).value, pick)
         == OthersOf(c, t) + Stamped(Outcome(OwnOf(c, t), op, pick), op, OwnOf(c, t), pick, t)
  {
    SliceRejoins(c, t);
    ScopedNarrows(c, op.filter, t);
    hide Matches, NothingMatches, ScopeFilter;
  }

  // ---- A whole bulk ----

  /** A run of the operations one after another. */
  ghost predicate RunsAll(ops: seq<BulkOp>, states: seq<Collection>, picks: seq<string>) {
    |states| == |ops| + 1 && |picks| == |ops|
    && forall i :: 0 <= i < |ops| ==> Runs(states[i], ops[i], states[i + 1], picks[i])
  }

  function ScopeAll(ops: seq<BulkOp>, t: string): (r: Result<seq<BulkOp>, GuardError>)
    ensures r.Ok? ==> |r.value| == |ops| && forall i :: 0 <= i < |ops| ==> ScopeOp(ops[i], t) == Ok(r.value[i])
  {
    if ops == [] then Ok([])
    else
      match ScopeAll(ops[..|ops| - 1], t)
      case Err(e) => Err(e)
      case Ok(before) =>
        match ScopeOp(ops[|ops| - 1], t)
        case Err(e) => Err(e)
        case Ok(op) => Ok(before + [op])
  }

  /** Any bulk of scoped operations leaves the documents of other tenants as they were, from its beginning
      to its end, and whatever it inserts and leaves in place is the tenant's. */
  lemma {:induction false} BulkIsIsolated(ops: seq<BulkOp>, t: string, states: seq<Collection>, picks: seq<string>, n: nat)
    requires ScopeAll(ops, t).Ok? && RunsAll(ScopeAll(ops, t).value, states, picks) && n <= |ops|
    requires forall i :: 0 <= i < |ops| ==> KeepsTenant(ops[i]) && !ops[i].ReplaceOne?
    ensures OthersUntouched(states[0], states[n], t)
    ensures InsertsOwn(states[0], states[n], t)
  {
    if n > 0 {
      BulkIsIsolated(ops, t, states, picks, n - 1);
      var op, c, d := ops[n - 1], states[n - 1], states[n];
      assert Runs(c, ScopeAll(ops, t).value[n - 1], d, picks[n - 1]);
      ScopedOpIsolated(c, op, t, d, picks[n - 1]);
      OwnStaysOwn(c, op, t, d, picks[n - 1]);
      hide Runs, KeepsTenant;
      forall id | id in d && id !in states[0] ensures OfTenant(d[id], t) {
        if id in c { assert OfTenant(c[id], t); }
      }
    }
  }

  /** Updates and deletions leave the tenant's own documents the tenant's. */
  lemma OwnStaysOwn(c: Collection, op: BulkOp, t: string, d: Collection, pick: string)
    requires ScopeOp(op, t).Ok? && KeepsTenant(op) && !op.ReplaceOne? && Runs(c, ScopeOp(op, t).value, d, pick)
    ensures forall id :: id in c && id in d && OfTenant(c[id], t) ==> OfTenant(d[id], t)
  {
    hide Matches, NothingMatches;
    if op.UpdateOne? || op.UpdateMany? {
      assert ScopeOp(op, t).value.update.apply == op.update.apply;
      forall id | id in c ensures TenantKept(op.update, c[id]) {
      }
    }
  }

  /** With replacements too, other tenants stay untouched throughout. */
  lemma {:induction false} BulkLeavesOthers(ops: seq<BulkOp>, t: string, states: seq<Collection>, picks: seq<string>, n: nat)
    requires ScopeAll(ops, t).Ok? && RunsAll(ScopeAll(ops, t).value, states, picks) && n <= |ops|
    ensures OthersUntouched(states[0], states[n], t)
  {
    if n > 0 {
      BulkLeavesOthers(ops, t, states, picks, n - 1);
      assert Runs(states[n - 1], ScopeAll(ops, t).value[n - 1], states[n], picks[n - 1]);
      ScopedOpIsolated(states[n - 1], ops[n - 1], t, states[n], picks[n - 1]);
    }
  }
}
