/** The rewritten pipeline means what the original means on the tenant's own slice of the database, and
    exactly where a $facet departs from that. */
module TenantSlice {
  import opened Outcomes
  import opened TenantQuery
  import opened TenantGuard
  import opened TenantIsolation

  /** The caller's own restriction of a $graphLookup says nothing about the tenant field. */
  predicate LeavesTenant(s: Stage) {
    s.GraphLookup? && s.restriction.Restrict? ==> TENANT !in s.restriction.filter
  }

  function LeavingTenant(): Stage -> bool {
    s => LeavesTenant(s)
  }

  predicate AllOfTenant(docs: seq<Doc>, t: string) {
    forall i :: 0 <= i < |docs| ==> OfTenant(docs[i], t)
  }

  // ---- Every document that reaches a $facet carries the tenant, at any depth ----

  ghost predicate Keeps(db: Database, env: Env, stages: seq<Stage>, docs: seq<Doc>, t: string)
    decreases stages, 0
  {
    stages != [] ==>
      KeepsAt(db, env, stages[0], docs, t) && Keeps(db, env, stages[1..], Apply(db, env, stages[0], docs), t)
  }

  ghost predicate KeepsIn(db: Database, env: Env, b: Body, docs: seq<Doc>, t: string)
    decreases b, 1
  {
    b.Steps? ==> Keeps(db, env, b.stages, docs, t)
  }

  ghost predicate KeepsAt(db: Database, env: Env, s: Stage, docs: seq<Doc>, t: string)
    decreases s, 2
  {
    match s
    case Lookup(from, letting, _, body, _) =>
      forall i :: 0 <= i < |docs| ==> KeepsIn(db, letting(env, docs[i]), body, Collection(db, from), t)
    case Union(coll, body) => KeepsIn(db, env, body, Collection(db, coll), t)
    case Facet(branches) =>
      AllOfTenant(docs, t) && forall i :: 0 <= i < |branches| ==> KeepsIn(db, env, branches[i].body, docs, t)
    case _ => true
  }

  // ---- Filtering, sliced ----

  lemma {:induction false} AllOfTenantFiltered(docs: seq<Doc>, t: string)
    ensures TenantDocs(docs, t) == docs <==> AllOfTenant(docs, t)
    ensures |TenantDocs(docs, t)| <= |docs|
  {
    if docs != [] {
      AllOfTenantFiltered(docs[1..], t);
      assert docs == [docs[0]] + docs[1..];
      if OfTenant(docs[0], t) {
        assert TenantDocs(docs, t)[1..] == TenantDocs(docs[1..], t);
      } else {
        assert |TenantDocs(docs, t)| < |docs|;
      }
    }
  }

  lemma SliceOf(db: Database, name: string, t: string)
    ensures Collection(Slice(db, t), name) == TenantDocs(Collection(db, name), t)
  {
  }

  /** Scoping a restriction that leaves the tenant alone is restricting the slice. */
  lemma {:induction false} RestrictionSliced(docs: seq<Doc>, r: Restriction, t: string)
    requires r.Restrict? ==> TENANT !in r.filter
    ensures Candidates(docs, ScopedRestriction(r, t)) == Candidates(TenantDocs(docs, t), r)
  {
    if docs != [] {
      RestrictionSliced(docs[1..], r, t);
      PinnedMatches(if r.Restrict? then r.filter else map[], t, docs[0]);
      if OfTenant(docs[0], t) {
        assert TenantDocs(docs, t)[1..] == TenantDocs(docs[1..], t);
        assert r.Restrict? || Matches(map[], docs[0]);
      }
    }
  }

  // ---- The rewriting preserves meaning on the slice ----

  /** The scoped form of a body, over any documents: the original body over the tenant's. */
  lemma {:induction false} BodySliced(db: Database, env: Env, b: Body, docs: seq<Doc>, t: string)
    requires ScopeBody(b, t).Ok? && EveryIn(LeavingTenant(), b)
    requires KeepsIn(Slice(db, t), env, b, TenantDocs(docs, t), t)
    ensures EvalBody(db, env, ScopeBody(b, t).value, docs) == EvalBody(Slice(db, t), env, b, TenantDocs(docs, t))
    decreases b, 1, 0
  {
    var scoped := ScopeBody(b, t).value.stages;
    assert Apply(db, env, scoped[0], docs) == TenantDocs(docs, t);
    if b.Steps? {
      assert scoped[1..] == ScopeStages(b.stages, t).value;
      StagesSliced(db, env, b.stages, TenantDocs(docs, t), t);
    } else {
      OneStage(db, env, TenantMatch(t), docs);
    }
  }

  lemma {:induction false} StageSliced(db: Database, env: Env, s: Stage, docs: seq<Doc>, t: string)
    requires ScopeStage(s, t).Ok? && LeavesTenant(s) && EveryWithin(LeavingTenant(), s)
    requires KeepsAt(Slice(db, t), env, s, docs, t)
    ensures Apply(db, env, ScopeStage(s, t).value, docs) == Apply(Slice(db, t), env, s, docs)
    decreases s, 3, 0
  {
    match s
    case Lookup(_, _, _, _, _) => JoinSliced(db, env, s, docs, t);
    case UnionName(coll) => SliceOf(db, coll, t); OneStage(db, env, TenantMatch(t), Collection(db, coll));
    case Union(coll, body) => SliceOf(db, coll, t); BodySliced(db, env, body, Collection(db, coll), t);
    case GraphLookup(_, _, _, _) => WalkSliced(db, env, s, docs, t);
    case Facet(branches) => AllOfTenantFiltered(docs, t); FacetFilters(db, env, s, docs, t, |branches|);
    case _ =>
  }

  lemma {:induction false} JoinSliced(db: Database, env: Env, s: Stage, docs: seq<Doc>, t: string)
    requires s.Lookup? && ScopeStage(s, t).Ok? && EveryIn(LeavingTenant(), s.body)
    requires KeepsAt(Slice(db, t), env, s, docs, t)
    ensures Joined(db, env, ScopeStage(s, t).value, docs) == Joined(Slice(db, t), env, s, docs)
    decreases s, 2, |docs|
  {
    if docs != [] {
      SliceOf(db, s.from, t);
      BodySliced(db, s.letting(env, docs[0]), s.body, Collection(db, s.from), t);
      assert KeepsAt(Slice(db, t), env, s, docs[1..], t);
      JoinSliced(db, env, s, docs[1..], t);
    }
  }

  lemma {:induction false} WalkSliced(db: Database, env: Env, s: Stage, docs: seq<Doc>, t: string)
    requires s.GraphLookup? && ScopeStage(s, t).Ok? && LeavesTenant(s)
    ensures Walked(db, env, ScopeStage(s, t).value, docs) == Walked(Slice(db, t), env, s, docs)
    decreases s, 2, |docs|
  {
    if docs != [] {
      SliceOf(db, s.from, t);
      RestrictionSliced(Collection(db, s.from), s.restriction, t);
      WalkSliced(db, env, s, docs[1..], t);
    }
  }

  /** A rewritten $facet is the original $facet on the tenant's documents among those that reach it. */
  lemma {:induction false} FacetFilters(db: Database, env: Env, s: Stage, docs: seq<Doc>, t: string, n: nat)
    requires s.Facet? && ScopeStage(s, t).Ok? && EveryWithin(LeavingTenant(), s) && n <= |s.branches|
    requires forall i :: 0 <= i < n ==> KeepsIn(Slice(db, t), env, s.branches[i].body, TenantDocs(docs, t), t)
    ensures BranchResults(db, env, ScopeStage(s, t).value, docs, n) == BranchResults(Slice(db, t), env, s, TenantDocs(docs, t), n)
    decreases s, 2, n
  {
    if n > 0 {
      FacetFilters(db, env, s, docs, t, n - 1);
      BranchesScoped(s, t, |s.branches|, n - 1);
      assert EveryIn(LeavingTenant(), s.branches[n - 1].body) && KeepsIn(Slice(db, t), env, s.branches[n - 1].body, TenantDocs(docs, t), t);
      hide KeepsIn, EveryIn, EveryWithin, EvalBody, ScopeBody, ScopeBranches, Slice, TenantDocs;
      BodySliced(db, env, s.branches[n - 1].body, docs, t);
    }
  }

  lemma {:induction false} StagesSliced(db: Database, env: Env, stages: seq<Stage>, docs: seq<Doc>, t: string)
    requires ScopeStages(stages, t).Ok? && Every(LeavingTenant(), stages)
    requires Keeps(Slice(db, t), env, stages, docs, t)
    ensures Eval(db, env, ScopeStages(stages, t).value, docs) == Eval(Slice(db, t), env, stages, docs)
    decreases stages, 0, 0
  {
    if stages != [] {
      EverySplits(LeavingTenant(), stages);
      StageSliced(db, env, stages[0], docs, t);
      var scoped := ScopeStages(stages, t).value;
      assert scoped[1..] == ScopeStages(stages[1..], t).value;
      StagesSliced(db, env, stages[1..], Apply(Slice(db, t), env, stages[0], docs), t);
    }
  }

  /** The rewritten pipeline on the whole database is the original pipeline on the tenant's slice, as long
      as no $graphLookup restriction names the tenant field and the documents that reach a $facet keep it. */
  lemma RewritingPreservesMeaning(db: Database, name: string, stages: seq<Stage>, t: string)
    requires ScopePipeline(stages, t).Ok? && Every(LeavingTenant(), stages)
    requires Keeps(Slice(db, t), map[], stages, Collection(Slice(db, t), name), t)
    ensures Eval(db, map[], ScopePipeline(stages, t).value, Collection(db, name))
         == Eval(Slice(db, t), map[], stages, Collection(Slice(db, t), name))
  {
    SliceOf(db, name, t);
    var scoped := ScopePipeline(stages, t).value;
    assert scoped[1..] == ScopeStages(stages, t).value;
    StagesSliced(db, map[], stages, TenantDocs(Collection(db, name), t), t);
  }

  /** Without a $facet nothing needs to be kept. */
  function FacetFree(): Stage -> bool {
    (s: Stage) => !s.Facet?
  }

  lemma {:induction false} FacetFreeKeeps(db: Database, env: Env, stages: seq<Stage>, docs: seq<Doc>, t: string)
    requires Every(FacetFree(), stages)
    ensures Keeps(db, env, stages, docs, t)
    decreases stages, 0
  {
    if stages != [] {
      EverySplits(FacetFree(), stages);
      match stages[0] {
        case Lookup(from, letting, _, body, _) =>
          forall i | 0 <= i < |docs| ensures KeepsIn(db, letting(env, docs[i]), body, Collection(db, from), t) {
            if body.Steps? { FacetFreeKeeps(db, letting(env, docs[i]), body.stages, Collection(db, from), t); }
          }
        case Union(coll, body) =>
          if body.Steps? { FacetFreeKeeps(db, env, body.stages, Collection(db, coll), t); }
        case _ =>
      }
      FacetFreeKeeps(db, env, stages[1..], Apply(db, env, stages[0], docs), t);
    }
  }

  lemma FacetFreeIsExact(db: Database, name: string, stages: seq<Stage>, t: string)
    requires ScopePipeline(stages, t).Ok? && Every(LeavingTenant(), stages) && Every(FacetFree(), stages)
    ensures Eval(db, map[], ScopePipeline(stages, t).value, Collection(db, name))
         == Eval(Slice(db, t), map[], stages, Collection(Slice(db, t), name))
  {
    FacetFreeKeeps(Slice(db, t), map[], stages, Collection(Slice(db, t), name), t);
    RewritingPreservesMeaning(db, name, stages, t);
  }

  // ---- A condition on the stages ----

  /** The stage hands on only documents of a tenant when it is given only documents of that tenant. A
      $facet does not: what it yields carries no tenant field. */
  ghost predicate Passes(s: Stage)
    decreases s, 2
  {
    match s
    case Reshape(apply) => forall env, docs, t :: AllOfTenant(docs, t) ==> AllOfTenant(apply(env, docs), t)
    case Lookup(_, _, _, body, into) => into != TENANT && (body.Steps? ==> Tidy(body.stages))
    case Union(_, body) => body.Steps? ==> PassesAll(body.stages)
    case GraphLookup(_, _, _, into) => into != TENANT
    case Facet(_) => false
    case _ => true
  }

  ghost predicate PassesAll(stages: seq<Stage>)
    decreases stages, 1
  {
    stages != [] ==> Passes(stages[0]) && PassesAll(stages[1..])
  }

  /** Up to the last $facet every stage passes the tenant field on; its branches are tidy themselves. */
  ghost predicate Tidy(stages: seq<Stage>)
    decreases stages, 0
  {
    || Every(FacetFree(), stages)
    || (stages != [] &&
        if stages[0].Facet?
        then && Every(FacetFree(), stages[1..])
             && forall i :: 0 <= i < |stages[0].branches| && stages[0].branches[i].body.Steps? ==> Tidy(stages[0].branches[i].body.stages)
        else Passes(stages[0]) && Tidy(stages[1..]))
  }

  lemma {:induction false} PassesAllIsTidy(stages: seq<Stage>)
    requires PassesAll(stages)
    ensures Tidy(stages)
  {
    if stages == [] {
      assert Every(FacetFree(), stages);
    } else {
      PassesAllIsTidy(stages[1..]);
    }
  }

  lemma SliceIsTenants(db: Database, name: string, t: string)
    ensures AllOfTenant(Collection(Slice(db, t), name), t)
  {
    SliceOf(db, name, t);
    var docs := TenantDocs(Collection(db, name), t);
    forall i | 0 <= i < |docs| ensures OfTenant(docs[i], t) { assert docs[i] in docs; }
  }

  lemma {:induction false} JoinPasses(db: Database, env: Env, s: Stage, docs: seq<Doc>, t: string)
    requires (s.Lookup? || s.GraphLookup?) && s.into != TENANT && AllOfTenant(docs, t)
    ensures AllOfTenant(if s.Lookup? then Joined(db, env, s, docs) else Walked(db, env, s, docs), t)
  {
    if docs != [] { JoinPasses(db, env, s, docs[1..], t); }
  }

  lemma {:induction false} StagePasses(db: Database, env: Env, s: Stage, docs: seq<Doc>, t: string)
    requires Passes(s) && AllOfTenant(docs, t)
    ensures AllOfTenant(Apply(Slice(db, t), env, s, docs), t)
    decreases s, 1
  {
    match s
    case Reshape(_) =>
    case Lookup(_, _, _, _, _) => JoinPasses(Slice(db, t), env, s, docs, t);
    case UnionName(coll) => SliceIsTenants(db, coll, t);
    case Union(coll, body) =>
      SliceIsTenants(db, coll, t);
      if body.Steps? { StagesPass(db, env, body.stages, Collection(Slice(db, t), coll), t); }
    case GraphLookup(_, _, _, _) => JoinPasses(Slice(db, t), env, s, docs, t);
    case TenantMatch(tenant) => MatchPasses(docs, tenant, t);
    case _ =>
  }

  lemma MatchPasses(docs: seq<Doc>, tenant: string, t: string)
    requires AllOfTenant(docs, t)
    ensures AllOfTenant(TenantDocs(docs, tenant), t)
  {
    var left := TenantDocs(docs, tenant);
    forall i | 0 <= i < |left| ensures OfTenant(left[i], t) { assert left[i] in left && left[i] in docs; }
  }

  lemma {:induction false} StagesPass(db: Database, env: Env, stages: seq<Stage>, docs: seq<Doc>, t: string)
    requires PassesAll(stages) && AllOfTenant(docs, t)
    ensures AllOfTenant(Eval(Slice(db, t), env, stages, docs), t)
    decreases stages, 0
  {
    if stages != [] {
      StagePasses(db, env, stages[0], docs, t);
      StagesPass(db, env, stages[1..], Apply(Slice(db, t), env, stages[0], docs), t);
    }
  }

  lemma {:induction false} TidyKeeps(db: Database, env: Env, stages: seq<Stage>, docs: seq<Doc>, t: string)
    requires Tidy(stages) && AllOfTenant(docs, t)
    ensures Keeps(Slice(db, t), env, stages, docs, t)
    decreases stages, 0
  {
    if Every(FacetFree(), stages) {
      FacetFreeKeeps(Slice(db, t), env, stages, docs, t);
    } else {
      var s := stages[0];
      if s.Facet? {
        forall i | 0 <= i < |s.branches| ensures KeepsIn(Slice(db, t), env, s.branches[i].body, docs, t) {
          if s.branches[i].body.Steps? { TidyKeeps(db, env, s.branches[i].body.stages, docs, t); }
        }
        assert KeepsAt(Slice(db, t), env, s, docs, t);
        FacetFreeKeeps(Slice(db, t), env, stages[1..], Apply(Slice(db, t), env, s, docs), t);
      } else {
        PassesKeeps(db, env, s, docs, t);
        StagePasses(db, env, s, docs, t);
        TidyKeeps(db, env, stages[1..], Apply(Slice(db, t), env, s, docs), t);
      }
    }
  }

  lemma {:induction false} PassesKeeps(db: Database, env: Env, s: Stage, docs: seq<Doc>, t: string)
    requires Passes(s) && AllOfTenant(docs, t)
    ensures KeepsAt(Slice(db, t), env, s, docs, t)
    decreases s, 0
  {
    match s
    case Lookup(from, letting, _, body, _) =>
      SliceIsTenants(db, from, t);
      forall i | 0 <= i < |docs| ensures KeepsIn(Slice(db, t), letting(env, docs[i]), body, Collection(Slice(db, t), from), t) {
        if body.Steps? { TidyKeeps(db, letting(env, docs[i]), body.stages, Collection(Slice(db, t), from), t); }
      }
    case Union(coll, body) =>
      SliceIsTenants(db, coll, t);
      if body.Steps? {
        PassesAllIsTidy(body.stages);
        TidyKeeps(db, env, body.stages, Collection(Slice(db, t), coll), t);
      }
    case _ =>
  }

  /** The rewritten pipeline equals the original on the slice, for every database, when at every depth what
      comes before a $facet passes the tenant field on. */
  lemma TidyIsExact(db: Database, name: string, stages: seq<Stage>, t: string)
    requires ScopePipeline(stages, t).Ok? && Every(LeavingTenant(), stages) && Tidy(stages)
    ensures Eval(db, map[], ScopePipeline(stages, t).value, Collection(db, name))
         == Eval(Slice(db, t), map[], stages, Collection(Slice(db, t), name))
  {
    SliceIsTenants(db, name, t);
    TidyKeeps(db, map[], stages, Collection(Slice(db, t), name), t);
    RewritingPreservesMeaning(db, name, stages, t);
  }

  // ---- Where a $facet departs ----

  /** A $facet with one branch that lists what it is given. */
  function Listing(): Stage {
    Facet([Branch("all", Missing)])
  }

  /** The rewritten $facet lists exactly the tenant's documents among those that reach it, so it agrees
      with the original on every input that keeps the tenant field, and on no other. */
  lemma FacetExactly(db: Database, env: Env, docs: seq<Doc>, t: string)
    ensures ScopeStage(Listing(), t).Ok?
    ensures Apply(db, env, ScopeStage(Listing(), t).value, docs) == [map["all" := List(TenantDocs(docs, t))]]
    ensures Apply(db, env, Listing(), docs) == [map["all" := List(docs)]]
    ensures Apply(db, env, ScopeStage(Listing(), t).value, docs) == Apply(db, env, Listing(), docs) <==> AllOfTenant(docs, t)
  {
    AllOfTenantFiltered(docs, t);
    ListingScoped(t);
    OneStage(db, env, TenantMatch(t), docs);
    ListingResult(db, env, Steps([TenantMatch(t)]), docs);
    ListingResult(db, env, Missing, docs);
    var sliced: Doc := map["all" := List(TenantDocs(docs, t))];
    var whole: Doc := map["all" := List(docs)];
    assert sliced == whole ==> sliced["all"] == whole["all"];
    assert [sliced] == [whole] ==> [sliced][0] == [whole][0];
  }

  lemma ListingScoped(t: string)
    ensures ScopeStage(Listing(), t) == Ok(Facet([Branch("all", Steps([TenantMatch(t)]))]))
  {
    assert ScopeBranches(Listing(), t, 0) == Ok([]);
    var one := Branch("all", Steps([TenantMatch(t)]));
    assert ScopeBranches(Listing(), t, 1) == Ok([] + [one]);
    assert [] + [one] == [one];
  }

  lemma ListingResult(db: Database, env: Env, body: Body, docs: seq<Doc>)
    ensures Apply(db, env, Facet([Branch("all", body)]), docs) == [map["all" := List(EvalBody(db, env, body, docs))]]
  {
    var s := Facet([Branch("all", body)]);
    assert BranchResults(db, env, s, docs, 0) == map[];
    assert BranchResults(db, env, s, docs, 1) == map["all" := List(EvalBody(db, env, body, docs))];
  }

  /** A $facet the guard accepts, whose branches leave the tenant field of restrictions alone and are tidy. */
  ghost predicate PlainFacet(s: Stage, t: string) {
    && s.Facet? && ScopeStage(s, t).Ok? && EveryWithin(LeavingTenant(), s)
    && forall i :: 0 <= i < |s.branches| && s.branches[i].body.Steps? ==> Tidy(s.branches[i].body.stages)
  }

  /** On these documents the rewritten $facet means what the original does on the slice. */
  ghost predicate Agrees(db: Database, env: Env, s: Stage, docs: seq<Doc>, t: string) {
    ScopeStage(s, t).Ok? && Apply(db, env, ScopeStage(s, t).value, docs) == Apply(Slice(db, t), env, s, docs)
  }

  lemma PlainFacetAgrees(db: Database, env: Env, s: Stage, docs: seq<Doc>, t: string)
    requires PlainFacet(s, t) && AllOfTenant(docs, t)
    ensures Agrees(db, env, s, docs, t)
  {
    forall i | 0 <= i < |s.branches| ensures KeepsIn(Slice(db, t), env, s.branches[i].body, docs, t) {
      if s.branches[i].body.Steps? { TidyKeeps(db, env, s.branches[i].body.stages, docs, t); }
    }
    StageSliced(db, env, s, docs, t);
  }

  lemma ListingIsPlain(t: string)
    ensures PlainFacet(Listing(), t)
  {
    ListingScoped(t);
  }

  /** Every such $facet agrees with its original on the documents that reach it exactly when all of these
      are the tenant's. */
  lemma FacetsAgreeExactlyWhen(db: Database, env: Env, docs: seq<Doc>, t: string)
    ensures (forall s :: PlainFacet(s, t) ==> Agrees(db, env, s, docs, t)) <==> AllOfTenant(docs, t)
  {
    hide PlainFacet, Agrees;
    if AllOfTenant(docs, t) {
      forall s | PlainFacet(s, t) ensures Agrees(db, env, s, docs, t) { PlainFacetAgrees(db, env, s, docs, t); }
    } else {
      ListingIsPlain(t);
      ListingDiffers(db, env, docs, t);
    }
  }

  lemma ListingDiffers(db: Database, env: Env, docs: seq<Doc>, t: string)
    requires !AllOfTenant(docs, t)
    ensures !Agrees(db, env, Listing(), docs, t)
  {
    FacetExactly(db, env, docs, t);
    ListingResult(Slice(db, t), env, Missing, docs);
    ListingResult(db, env, Missing, docs);
  }

  /** A tenant whose own documents vanish: a projection drops the tenant field before the $facet. */
  function WithoutTenant(docs: seq<Doc>): seq<Doc> {
    if docs == [] then [] else [docs[0] - {TENANT}] + WithoutTenant(docs[1..])
  }

  function Projection(): Stage {
    Reshape((env: Env, docs: seq<Doc>) => WithoutTenant(docs))
  }

  lemma FacetAfterProjectionFails()
    ensures ScopePipeline([Projection(), Listing()], "dojo").Ok?
    ensures var db := map["members" := [map[TENANT := Text("dojo"), "name" := Text("kim")]]];
            && Eval(db, map[], ScopePipeline([Projection(), Listing()], "dojo").value, db["members"]) == [map["all" := List([])]]
            && Eval(Slice(db, "dojo"), map[], [Projection(), Listing()], db["members"]) == [map["all" := List([map["name" := Text("kim")]])]]
  {
    var kim: Doc := map[TENANT := Text("dojo"), "name" := Text("kim")];
    var bare: Doc := map["name" := Text("kim")];
    var db: Database := map["members" := [kim]];
    assert kim - {TENANT} == bare;
    assert WithoutTenant([kim]) == [bare];
    var facet := ScopeStage(Listing(), "dojo").value;
    FacetExactly(db, map[], [bare], "dojo");
    FacetExactly(Slice(db, "dojo"), map[], [bare], "dojo");
    ScopeTwo(Projection(), Listing(), "dojo");
    assert TenantDocs([kim], "dojo") == [kim];
    TwoStages(db, TenantMatch("dojo"), [Projection(), facet], [kim]);
    TwoStages(db, Projection(), [facet], [kim]);
    OneStage(db, map[], facet, [bare]);
    TwoStages(Slice(db, "dojo"), Projection(), [Listing()], [kim]);
    OneStage(Slice(db, "dojo"), map[], Listing(), [bare]);
    assert TenantDocs([bare], "dojo") == [];
  }

  lemma ScopeTwo(a: Stage, b: Stage, t: string)
    requires ScopeStage(a, t).Ok? && ScopeStage(b, t).Ok?
    ensures ScopeStages([a, b], t) == Ok([ScopeStage(a, t).value, ScopeStage(b, t).value])
  {
    var x, y := ScopeStage(a, t).value, ScopeStage(b, t).value;
    assert [a, b][1..] == [b] && [b][1..] == [];
    assert ScopeStages([], t) == Ok([]);
    assert ScopeStages([b], t) == Ok([y] + []);
    assert [x] + ([y] + []) == [x, y];
  }

  lemma TwoStages(db: Database, s: Stage, rest: seq<Stage>, docs: seq<Doc>)
    ensures Eval(db, map[], [s] + rest, docs) == Eval(db, map[], rest, Apply(db, map[], s, docs))
  {
    assert ([s] + rest)[1..] == rest;
  }
}
