/** The hash-chained audit log as a value: each entry's hash commits to the entry and to the hash before it.
    The digest is an abstract function; the results that need it say so when they take it to be
    collision-free. */
module AuditChain {
  import opened Outcomes
  import opened CanonicalJson
  import opened CanonicalText
  import opened CanonicalOrder

  datatype ActorType = User | System | Integration

  datatype Payload = Payload(
    tenant: string, ts: int, actor: Option<string>, actorType: ActorType, action: string,
    targetType: string, targetId: string, diff: Option<Json>, ip: Option<string>)

  datatype Entry = Entry(payload: Payload, prevHash: Option<string>, hash: string)

  type Digest = string -> string

  ghost predicate CollisionFree(digest: Digest) {
    forall x, y :: digest(x) == digest(y) ==> x == y
  }

  const SCHEME_PREFIX: string := "obikai-audit-v1:"

  function ActorName(t: ActorType): string {
    match t case User => "user" case System => "system" case Integration => "integration"
  }

  function NullOr(o: Option<string>): Json {
    if o.Some? then Str(o.value) else Null
  }

  /** The hashed object: every field of the entry but its hash; an absent diff or ip is undefined. */
  function EntryFields(p: Payload, prevHash: Option<string>): seq<Field> {
    [ Field("tenantId", Some(Str(p.tenant))),
      Field("ts", Some(Num(p.ts))),
      Field("actorId", Some(NullOr(p.actor))),
      Field("actorType", Some(Str(ActorName(p.actorType)))),
      Field("action", Some(Str(p.action))),
      Field("targetType", Some(Str(p.targetType))),
      Field("targetId", Some(Str(p.targetId))),
      Field("diff", p.diff),
      Field("ip", if p.ip.Some? then Some(Str(p.ip.value)) else None),
      Field("prevHash", Some(NullOr(prevHash))) ]
  }

  function HashChainEntry(digest: Digest, prev: Option<Entry>, p: Payload, prevHash: Option<string>): string {
    var link := if prev.Some? then prev.value.hash else "";
    digest(SCHEME_PREFIX + (CanonicalJSON(Obj(EntryFields(p, prevHash))) + link))
  }

  function HashOf(prev: Option<Entry>): Option<string> {
    if prev.Some? then Some(prev.value.hash) else None
  }

  function AppendEntry(digest: Digest, prev: Option<Entry>, p: Payload): Entry {
    Entry(p, HashOf(prev), HashChainEntry(digest, prev, p, HashOf(prev)))
  }

  // ---- Verification ----

  predicate LinkOk(digest: Digest, prev: Option<Entry>, e: Entry) {
    e.prevHash == HashOf(prev) && e.hash == HashChainEntry(digest, prev, e.payload, e.prevHash)
  }

  function Before(entries: seq<Entry>, i: nat): Option<Entry>
    requires i <= |entries|
  {
    if i == 0 then None else Some(entries[i - 1])
  }

  predicate Chained(digest: Digest, entries: seq<Entry>) {
    forall i :: 0 <= i < |entries| ==> LinkOk(digest, Before(entries, i), entries[i])
  }

  datatype Verification = Valid | Invalid(index: nat)

  /** A chain is valid exactly when every entry links and hashes right; otherwise the index is that of the
      first entry that does not, and the prefix before it verifies. */
  method VerifyChain(digest: Digest, entries: seq<Entry>) returns (r: Verification)
    ensures r.Valid? <==> Chained(digest, entries)
    ensures r.Invalid? ==> r.index < |entries| && Chained(digest, entries[..r.index])
                           && !LinkOk(digest, Before(entries, r.index), entries[r.index])
  {
    hide HashChainEntry;
    var prev: Option<Entry> := None;
    for i := 0 to |entries|
      invariant prev == Before(entries, i)
      invariant forall j :: 0 <= j < i ==> LinkOk(digest, Before(entries, j), entries[j])
    {
      var entry := entries[i];
      if entry.prevHash != HashOf(prev) {
        PrefixChained(digest, entries, i);
        return Invalid(i);
      }
      var recomputed := HashChainEntry(digest, prev, entry.payload, entry.prevHash);
      if recomputed != entry.hash {
        PrefixChained(digest, entries, i);
        return Invalid(i);
      }
      prev := Some(entry);
    }
    return Valid;
  }

  lemma PrefixChained(digest: Digest, entries: seq<Entry>, n: nat)
    requires n <= |entries| && forall j :: 0 <= j < n ==> LinkOk(digest, Before(entries, j), entries[j])
    ensures Chained(digest, entries[..n])
  {
    hide LinkOk;
    forall j | 0 <= j < n ensures LinkOk(digest, Before(entries[..n], j), entries[..n][j]) {
      assert Before(entries[..n], j) == Before(entries, j);
    }
  }

  lemma LinkOkMeans(digest: Digest, prev: Option<Entry>, e: Entry)
    ensures LinkOk(digest, prev, e) <==> e == AppendEntry(digest, prev, e.payload)
  {
    hide HashChainEntry;
  }

  /** Appending on the last entry keeps the chain valid, and nothing else does. */
  lemma AppendingExactly(digest: Digest, entries: seq<Entry>, e: Entry)
    ensures Chained(digest, entries + [e]) <==> Chained(digest, entries) && e == AppendEntry(digest, Before(entries, |entries|), e.payload)
  {
    hide LinkOk, AppendEntry;
    LinkOkMeans(digest, Before(entries, |entries|), e);
    var longer := entries + [e];
    assert longer[|entries|] == e && Before(longer, |entries|) == Before(entries, |entries|);
    forall j | 0 <= j < |entries| ensures longer[j] == entries[j] && Before(longer, j) == Before(entries, j) {
    }
    if Chained(digest, longer) {
      forall j | 0 <= j < |entries| ensures LinkOk(digest, Before(entries, j), entries[j]) {
        assert LinkOk(digest, Before(longer, j), longer[j]);
      }
      assert LinkOk(digest, Before(longer, |entries|), longer[|entries|]);
    }
  }

  // ---- Tamper evidence ----

  /** The same record, the change description up to its canonical form. */
  predicate SameRecord(a: Entry, b: Entry) {
    && a.hash == b.hash && a.prevHash == b.prevHash
    && b.payload == a.payload.(diff := b.payload.diff)
    && Alike(a.payload.diff, b.payload.diff)
  }

  lemma EntryNames(p: Payload, prevHash: Option<string>)
    ensures DistinctNames(EntryFields(p, prevHash))
    ensures |EntryFields(p, prevHash)| == 10
  {
    var f := EntryFields(p, prevHash);
    assert |f[0].name| == 8 && |f[1].name| == 2 && |f[2].name| == 7 && |f[3].name| == 9 && |f[4].name| == 6
           && |f[5].name| == 10 && |f[6].name| == 8 && |f[7].name| == 4 && |f[8].name| == 2 && |f[9].name| == 8;
    assert f[0].name[1] == 'e' && f[6].name[1] == 'a' && f[9].name[1] == 'r';
    assert f[1].name[0] == 't' && f[8].name[0] == 'i';
  }

  /** Under each name the hashed object holds that part of the record; a change description and an address
      only when there is one. */
  lemma HashedFields(p: Payload, prevHash: Option<string>)
    ensures var fields := CanonicalFields(EntryFields(p, prevHash));
            && Field("tenantId", Some(Str(p.tenant))) in fields && Field("ts", Some(Num(p.ts))) in fields
            && Field("actorId", Some(if p.actor.Some? then Str(p.actor.value) else Null)) in fields
            && Field("actorType", Some(Str(match p.actorType case User => "user" case System => "system" case Integration => "integration"))) in fields
            && Field("action", Some(Str(p.action))) in fields
            && Field("targetType", Some(Str(p.targetType))) in fields && Field("targetId", Some(Str(p.targetId))) in fields
            && (p.diff.Some? ==> Field("diff", Some(Canonicalize(p.diff.value))) in fields)
            && (p.ip.Some? ==> Field("ip", Some(Str(p.ip.value))) in fields)
            && Field("prevHash", Some(if prevHash.Some? then Str(prevHash.value) else Null)) in fields
  {
    hide CanonicalFields;
    var f := EntryFields(p, prevHash);
    forall i: nat | i < 10 && f[i].value.Some? ensures Field(f[i].name, Some(Canonicalize(f[i].value.value))) in CanonicalFields(f) {
      var x := Field(f[i].name, Some(Canonicalize(f[i].value.value)));
      CanonicalMembers(f, x);
      assert CanonicalOf(x, f[i]);
    }
    assert f[0].value.Some? && f[1].value.Some? && f[2].value.Some? && f[3].value.Some? && f[4].value.Some?
           && f[5].value.Some? && f[6].value.Some? && f[9].value.Some?;
    assert f[7].name == "diff" && f[8].name == "ip";
  }

  /** Both values are defined and canonically equal, or neither is defined. */
  predicate Alike(x: Option<Json>, y: Option<Json>) {
    (x.Some? <==> y.Some?) && (x.Some? ==> Canonicalize(x.value) == Canonicalize(y.value))
  }

  lemma AlikeTexts(a: string, b: string)
    ensures Alike(Some(Str(a)), Some(Str(b))) <==> a == b
  {
  }

  lemma AlikeOptions(a: Option<string>, b: Option<string>)
    ensures Alike(Some(NullOr(a)), Some(NullOr(b))) <==> a == b
    ensures Alike(if a.Some? then Some(Str(a.value)) else None, if b.Some? then Some(Str(b.value)) else None) <==> a == b
  {
  }

  lemma AlikeNumbers(a: int, b: int)
    ensures Alike(Some(Num(a)), Some(Num(b))) <==> a == b
  {
  }

  lemma ActorNames(a: ActorType, b: ActorType)
    ensures ActorName(a) == ActorName(b) <==> a == b
  {
    assert |ActorName(User)| == 4 && |ActorName(System)| == 6 && |ActorName(Integration)| == 11;
  }

  /** The canonical form of the hashed object gives back every field. */
  lemma FieldsRecovered(p: Payload, q: Payload, h: Option<string>, k: Option<string>)
    requires Canonicalize(Obj(EntryFields(p, h))) == Canonicalize(Obj(EntryFields(q, k)))
    ensures h == k && q == p.(diff := q.diff)
    ensures Alike(p.diff, q.diff)
  {
    hide Canonicalize, Alike, NullOr, ActorName;
    var f, g := EntryFields(p, h), EntryFields(q, k);
    forall i: nat | i < 10 ensures Alike(f[i].value, g[i].value) { ReadBackAt(p, q, h, k, i); }
    AlikeTexts(p.tenant, q.tenant);
    AlikeNumbers(p.ts, q.ts);
    AlikeOptions(p.actor, q.actor);
    AlikeTexts(ActorName(p.actorType), ActorName(q.actorType));
    ActorNames(p.actorType, q.actorType);
    AlikeTexts(p.action, q.action);
    AlikeTexts(p.targetType, q.targetType);
    AlikeTexts(p.targetId, q.targetId);
    AlikeOptions(p.ip, q.ip);
    AlikeOptions(h, k);
    assert Alike(f[0].value, g[0].value) && Alike(f[1].value, g[1].value) && Alike(f[2].value, g[2].value)
           && Alike(f[3].value, g[3].value) && Alike(f[4].value, g[4].value) && Alike(f[5].value, g[5].value)
           && Alike(f[6].value, g[6].value) && Alike(f[7].value, g[7].value) && Alike(f[8].value, g[8].value)
           && Alike(f[9].value, g[9].value);
  }

  lemma ReadBackAt(p: Payload, q: Payload, h: Option<string>, k: Option<string>, i: nat)
    requires i < 10 && Canonicalize(Obj(EntryFields(p, h))) == Canonicalize(Obj(EntryFields(q, k)))
    requires |EntryFields(p, h)| == 10 && |EntryFields(q, k)| == 10
    ensures Alike(EntryFields(p, h)[i].value, EntryFields(q, k)[i].value)
  {
    EntryNames(p, h);
    EntryNames(q, k);
    var f, g := EntryFields(p, h), EntryFields(q, k);
    assert f[i].name == g[i].name;
    hide EntryFields;
    if f[i].value.Some? { FieldReadBack(f, g, i, i); }
    if g[i].value.Some? { FieldReadBack(g, f, i, i); }
  }

  /** What the hash commits to, with a collision-free digest: the hashed object up to its canonical form, and
      once more the hash of the entry before, whatever the entry says of it. */
  lemma HashCommits(digest: Digest, before: Option<Entry>, p: Payload, h: Option<string>, other: Option<Entry>, q: Payload, k: Option<string>)
    requires CollisionFree(digest)
    ensures HashChainEntry(digest, before, p, h) == HashChainEntry(digest, other, q, k)
            <==> Canonicalize(Obj(EntryFields(p, h))) == Canonicalize(Obj(EntryFields(q, k)))
                 && (if before.Some? then before.value.hash else "") == (if other.Some? then other.value.hash else "")
  {
    hide CanonicalJSON, Canonicalize, EntryFields;
    var x := if before.Some? then before.value.hash else "";
    var y := if other.Some? then other.value.hash else "";
    var v, w := Obj(EntryFields(p, h)), Obj(EntryFields(q, k));
    var s, t := SCHEME_PREFIX + (CanonicalJSON(v) + x), SCHEME_PREFIX + (CanonicalJSON(w) + y);
    assert digest(s) == digest(t) <==> s == t;
    if s == t { SameLengthSplit(SCHEME_PREFIX, SCHEME_PREFIX, CanonicalJSON(v) + x, CanonicalJSON(w) + y); }
    CanonicalTextExact(v, w, x, y);
  }

  /** With a collision-free digest, an entry's hash determines the entry and the hash it chains onto. */
  lemma HashDetermines(digest: Digest, a: Entry, b: Entry, before: Option<Entry>, other: Option<Entry>)
    requires CollisionFree(digest) && LinkOk(digest, before, a) && LinkOk(digest, other, b) && a.hash == b.hash
    ensures SameRecord(a, b)
  {
    hide HashChainEntry, Canonicalize, EntryFields, CollisionFree;
    HashCommits(digest, before, a.payload, a.prevHash, other, b.payload, b.prevHash);
    FieldsRecovered(a.payload, b.payload, a.prevHash, b.prevHash);
  }

  lemma SameLinks(a: Entry, b: Entry)
    requires SameRecord(a, b)
    ensures a.prevHash == b.prevHash
  {
  }

  lemma LastLink(digest: Digest, a: seq<Entry>)
    requires Chained(digest, a) && a != []
    ensures LinkOk(digest, Before(a, |a| - 1), a[|a| - 1]) && Chained(digest, a[..|a| - 1])
    ensures a[|a| - 1].prevHash == HashOf(Before(a, |a| - 1))
  {
    hide HashChainEntry;
    assert LinkOk(digest, Before(a, |a| - 1), a[|a| - 1]);
    PrefixChained(digest, a, |a| - 1);
  }

  /** Two chains that both verify and end in the same hash have the same length and the same records: no
      entry was edited, dropped, added or moved. */
  lemma {:induction false} TamperEvident(digest: Digest, a: seq<Entry>, b: seq<Entry>)
    requires CollisionFree(digest) && Chained(digest, a) && Chained(digest, b)
    requires a != [] && b != [] && a[|a| - 1].hash == b[|b| - 1].hash
    ensures |a| == |b| && forall i :: 0 <= i < |a| ==> SameRecord(a[i], b[i])
    decreases |a|
  {
    hide HashChainEntry, SameRecord, Alike, CollisionFree, Chained, LinkOk;
    var m, n := |a| - 1, |b| - 1;
    LastLink(digest, a);
    LastLink(digest, b);
    HashDetermines(digest, a[m], b[n], Before(a, m), Before(b, n));
    SameLinks(a[m], b[n]);
    assert m == 0 <==> n == 0;
    if m > 0 {
      TamperEvident(digest, a[..m], b[..n]);
      assert forall i :: 0 <= i < m ==> a[..m][i] == a[i] && b[..n][i] == b[i];
    }
  }
}
