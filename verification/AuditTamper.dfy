/** What tampering with a stored chain does to its verification: entries dropped, moved or repeated, and an
    entry rewritten. */
module AuditTamper {
  import opened Outcomes
  import opened CanonicalJson
  import opened AuditChain

  lemma ChainedPrefix(digest: Digest, entries: seq<Entry>, n: nat)
    requires Chained(digest, entries) && n <= |entries|
    ensures Chained(digest, entries[..n])
  {
    hide LinkOk;
    PrefixChained(digest, entries, n);
  }

  /** No hash occurs twice in a verifying chain. */
  lemma HashOncePerChain(digest: Digest, entries: seq<Entry>, i: nat, j: nat)
    requires CollisionFree(digest) && Chained(digest, entries) && i < |entries| && j < |entries|
    requires entries[i].hash == entries[j].hash
    ensures i == j
  {
    hide CollisionFree, Chained, SameRecord;
    ChainedPrefix(digest, entries, i + 1);
    ChainedPrefix(digest, entries, j + 1);
    TamperEvident(digest, entries[..i + 1], entries[..j + 1]);
  }

  lemma LinkHolds(digest: Digest, entries: seq<Entry>, i: nat)
    requires Chained(digest, entries) && i < |entries|
    ensures entries[i].prevHash == HashOf(Before(entries, i))
  {
    assert LinkOk(digest, Before(entries, i), entries[i]);
    hide HashChainEntry;
  }

  /** In a verifying list made of entries of a verifying chain, the k-th is the chain's own k-th. */
  lemma {:induction false} InPlace(digest: Digest, entries: seq<Entry>, part: seq<Entry>, k: nat)
    requires CollisionFree(digest) && Chained(digest, entries) && Chained(digest, part) && k < |part|
    requires forall e :: e in part ==> e in entries
    ensures k < |entries| && part[k] == entries[k]
  {
    hide CollisionFree, Chained;
    assert part[k] in part;
    var j :| 0 <= j < |entries| && entries[j] == part[k];
    LinkHolds(digest, entries, j);
    LinkHolds(digest, part, k);
    if k > 0 {
      InPlace(digest, entries, part, k - 1);
      HashOncePerChain(digest, entries, j - 1, k - 1);
    }
  }

  /** Whatever is dropped from a verifying chain, moved in it or repeated, the list left verifies exactly
      when it is a beginning of the chain: only cutting it off at its end goes unnoticed. */
  lemma SelectionVerifiesExactlyWhen(digest: Digest, entries: seq<Entry>, part: seq<Entry>)
    requires CollisionFree(digest) && Chained(digest, entries)
    requires forall e :: e in part ==> e in entries
    ensures Chained(digest, part) <==> part <= entries
  {
    hide CollisionFree, Chained;
    if Chained(digest, part) {
      forall k: nat | k < |part| ensures k < |entries| && part[k] == entries[k] { InPlace(digest, entries, part, k); }
      if |part| > 0 { InPlace(digest, entries, part, |part| - 1); }
    }
    if part <= entries {
      ChainedPrefix(digest, entries, |part|);
      assert part == entries[..|part|];
    }
  }

  /** A concrete loss that goes unnoticed: of two appended entries the second is deleted. */
  lemma DeletedLastPasses(digest: Digest, p: Payload)
    ensures var one := AppendEntry(digest, None, p);
            var two := AppendEntry(digest, Some(one), p);
            Chained(digest, [one, two]) && Chained(digest, [one])
  {
    hide HashChainEntry;
  }

  // ---- An entry rewritten ----

  lemma {:induction false} AlikeFields(f: seq<Field>, g: seq<Field>)
    requires |f| == |g| && forall i :: 0 <= i < |f| ==> f[i].name == g[i].name && Alike(f[i].value, g[i].value)
    ensures CanonicalFields(f) == CanonicalFields(g)
  {
    if f != [] { AlikeFields(f[1..], g[1..]); }
  }

  /** The hash does not tell two forms of the same record apart, and sees of the predecessor only its hash. */
  lemma LinkOfRecord(digest: Digest, before: Option<Entry>, other: Option<Entry>, a: Entry, b: Entry)
    requires LinkOk(digest, before, a) && SameRecord(a, b) && HashOf(before) == HashOf(other)
    ensures LinkOk(digest, other, b)
  {
    var f, g := EntryFields(a.payload, a.prevHash), EntryFields(b.payload, b.prevHash);
    assert |f| == |g| == 10 && forall i :: 0 <= i < 10 && i != 7 ==> f[i] == g[i];
    AlikeFields(f, g);
    assert Canonicalize(Obj(f)) == Canonicalize(Obj(g));
    hide EntryFields, CanonicalFields, PrintTo;
  }

  lemma SameAsItself(e: Entry)
    ensures SameRecord(e, e)
  {
  }

  lemma RewrittenInside(digest: Digest, entries: seq<Entry>, i: nat, e: Entry)
    requires Chained(digest, entries) && i < |entries| && SameRecord(entries[i], e)
    ensures Chained(digest, entries[i := e])
  {
    hide LinkOk, SameRecord;
    var changed := entries[i := e];
    forall k | 0 <= k < |changed| ensures LinkOk(digest, Before(changed, k), changed[k]) {
      assert LinkOk(digest, Before(entries, k), entries[k]);
      SameHash(entries[i], e);
      SameAsItself(entries[k]);
      LinkOfRecord(digest, Before(entries, k), Before(changed, k), entries[k], changed[k]);
    }
  }

  lemma SameHash(a: Entry, b: Entry)
    requires SameRecord(a, b)
    ensures a.hash == b.hash
  {
  }

  /** Rewriting an entry of a verifying chain is noticed, except that the last entry may be replaced by any
      other that is appended as it should be, and a change description by one of the same canonical form. */
  lemma RewriteVerifiesExactlyWhen(digest: Digest, entries: seq<Entry>, i: nat, e: Entry)
    requires CollisionFree(digest) && Chained(digest, entries) && i < |entries|
    ensures Chained(digest, entries[i := e]) <==>
              if i == |entries| - 1 then e == AppendEntry(digest, Before(entries, i), e.payload) else SameRecord(entries[i], e)
  {
    hide CollisionFree, Chained, SameRecord, AppendEntry;
    var changed := entries[i := e];
    if i == |entries| - 1 {
      ChainedPrefix(digest, entries, i);
      AppendingExactly(digest, entries[..i], e);
      assert changed == entries[..i] + [e] && Before(entries[..i], i) == Before(entries, i);
    } else {
      if Chained(digest, changed) { TamperEvident(digest, entries, changed); }
      if SameRecord(entries[i], e) { RewrittenInside(digest, entries, i, e); }
    }
  }
}
