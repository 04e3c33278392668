/** What the rewriting guarantees: which pipelines it accepts, that an accepted pipeline cannot see other
    tenants, and that it means what the original means on the tenant's own slice. */
module TenantIsolation {
  import opened TenantQuery
  import opened TenantGuard

  // ---- A property of every stage, at any depth ----

  predicate Every(p: Stage -> bool, stages: seq<Stage>)
    decreases stages, 0
  {
    forall i :: 0 <= i < |stages| ==> p(stages[i]) && EveryWithin(p, stages[i])
  }

  predicate EveryIn(p: Stage -> bool, b: Body)
    decreases b, 1
  {
    b.Steps? ==> Every(p, b.stages)
  }

  predicate EveryWithin(p: Stage -> bool, s: Stage)
    decreases s, 2
  {
    match s
    case Lookup(_, _, _, body, _) => EveryIn(p, body)
    case Union(_, body) => EveryIn(p, body)
    case Facet(branches) => forall i :: 0 <= i < |branches| ==> EveryIn(p, branches[i].body)
    case _ => true
  }

  lemma {:induction false} EveryMeans(p: Stage -> bool, stages: seq<Stage>)
    ensures Every(p, stages) <==> forall x :: Occurs(x, stages) ==> p(x)
    decreases stages, 0
  {
    forall i | 0 <= i < |stages| ensures EveryWithin(p, stages[i]) <==> forall x :: OccursWithin(x, stages[i]) ==> p(x) {
      EveryWithinMeans(p, stages[i]);
    }
    if Every(p, stages) {
      forall x | Occurs(x, stages) ensures p(x) {
        var i :| 0 <= i < |stages| && (stages[i] == x || OccursWithin(x, stages[i]));
      }
    } else {
      var i :| 0 <= i < |stages| && !(p(stages[i]) && EveryWithin(p, stages[i]));
      if !p(stages[i]) {
        assert Occurs(stages[i], stages);
      } else {
        var x :| OccursWithin(x, stages[i]) && !p(x);
        assert Occurs(x, stages);
      }
    }
  }

  lemma {:induction false} EveryInMeans(p: Stage -> bool, b: Body)
    ensures EveryIn(p, b) <==> forall x :: OccursIn(x, b) ==> p(x)
    decreases b, 1
  {
    if b.Steps? { EveryMeans(p, b.stages); }
  }

  lemma {:induction false} EveryWithinMeans(p: Stage -> bool, s: Stage)
    ensures EveryWithin(p, s) <==> forall x :: OccursWithin(x, s) ==> p(x)
    decreases s, 2
  {
    match s
    case Lookup(_, _, _, body, _) => EveryInMeans(p, body);
    case Union(_, body) => EveryInMeans(p, body);
    case Facet(branches) =>
      forall i | 0 <= i < |branches| ensures EveryIn(p, branches[i].body) <==> forall x :: OccursIn(x, branches[i].body) ==> p(x) {
        EveryInMeans(p, branches[i].body);
      }
      if !EveryWithin(p, s) {
        var i :| 0 <= i < |branches| && !EveryIn(p, branches[i].body);
        var x :| OccursIn(x, branches[i].body) && !p(x);
        assert OccursWithin(x, s);
      }
    case _ =>
  }

  // ---- What is accepted ----

  function Harmless(): Stage -> bool {
    s => !Unsafe(s)
  }

  lemma {:induction false} BranchesAccepted(s: Stage, t: string, n: nat)
    requires s.Facet? && n <= |s.branches|
    ensures ScopeBranches(s, t, n).Ok?
       <==> forall i :: 0 <= i < n ==> !s.branches[i].body.NotAnArray? && EveryIn(Harmless(), s.branches[i].body)
    decreases s, 2, n
  {
    if n > 0 {
      BranchesAccepted(s, t, n - 1);
      BodyAccepted(s.branches[n - 1].body, t);
    }
  }

  lemma {:induction false} BodyAccepted(b: Body, t: string)
    ensures ScopeBody(b, t).Ok? <==> !b.NotAnArray? && EveryIn(Harmless(), b)
    decreases b, 1, 0
  {
    if b.Steps? { StagesAccepted(b.stages, t); }
  }

  lemma {:induction false} StageAccepted(s: Stage, t: string)
    ensures ScopeStage(s, t).Ok? <==> !Unsafe(s) && EveryWithin(Harmless(), s)
    decreases s, 3, 0
  {
    if s.Lookup? || s.Union? { BodyAccepted(s.body, t); }
    else if s.Facet? { BranchesAccepted(s, t, |s.branches|); }
  }

  lemma {:induction false} StagesAccepted(stages: seq<Stage>, t: string)
    ensures ScopeStages(stages, t).Ok? <==> Every(Harmless(), stages)
    decreases stages, 0, 0
  {
    if stages != [] {
      StageAccepted(stages[0], t);
      StagesAccepted(stages[1..], t);
      EverySplits(Harmless(), stages);
    }
  }

  lemma EverySplits(p: Stage -> bool, stages: seq<Stage>)
    requires stages != []
    ensures Every(p, stages) <==> p(stages[0]) && EveryWithin(p, stages[0]) && Every(p, stages[1..])
  {
    assert stages == [stages[0]] + stages[1..];
  }

  /** A pipeline is accepted exactly when nothing banned or ill-formed occurs in it, at any depth. */
  lemma AcceptedExactly(stages: seq<Stage>, t: string)
    ensures ScopePipeline(stages, t).Ok? <==> forall x :: Occurs(x, stages) ==> !Unsafe(x)
  {
    StagesAccepted(stages, t);
    EveryMeans(Harmless(), stages);
  }

  // ---- What an accepted pipeline has become ----

  predicate BeginsScoped(b: Body, t: string) {
    b.Steps? && b.stages != [] && b.stages[0] == TenantMatch(t)
  }

  /** The stage writes nothing and opens no collection but through the tenant's match. */
  predicate Confined(s: Stage, t: string) {
    match s
    case Lookup(_, _, join, body, _) => join.None? && BeginsScoped(body, t)
    case Union(_, body) => BeginsScoped(body, t)
    case GraphLookup(_, _, restriction, _) =>
      restriction.Restrict? && TENANT in restriction.filter && restriction.filter[TENANT] == Is(Text(t))
    case Facet(branches) => forall i :: 0 <= i < |branches| ==> BeginsScoped(branches[i].body, t)
    case Reshape(_) => true
    case TenantMatch(_) => true
    case _ => false
  }

  function ConfinedTo(t: string): Stage -> bool {
    s => Confined(s, t)
  }

  /** The stages of a scoped body, in terms of the original's. */
  lemma {:induction false} BranchesScoped(s: Stage, t: string, n: nat, i: nat)
    requires s.Facet? && i < n <= |s.branches| && ScopeBranches(s, t, n).Ok?
    ensures ScopeBody(s.branches[i].body, t).Ok?
    ensures ScopeBranches(s, t, n).value[i] == Branch(s.branches[i].name, ScopeBody(s.branches[i].body, t).value)
  {
    if i < n - 1 { BranchesScoped(s, t, n - 1, i); }
  }

  lemma {:induction false} BodyConfined(b: Body, t: string)
    requires ScopeBody(b, t).Ok?
    ensures BeginsScoped(ScopeBody(b, t).value, t) && EveryIn(ConfinedTo(t), ScopeBody(b, t).value)
    decreases b, 1, 0
  {
    if b.Steps? {
      StagesConfined(b.stages, t);
      EverySplits(ConfinedTo(t), ScopeBody(b, t).value.stages);
      assert ScopeBody(b, t).value.stages[1..] == ScopeStages(b.stages, t).value;
    }
  }

  lemma {:induction false} StageConfined(s: Stage, t: string)
    requires ScopeStage(s, t).Ok?
    ensures Confined(ScopeStage(s, t).value, t) && EveryWithin(ConfinedTo(t), ScopeStage(s, t).value)
    decreases s, 2, 0
  {
    match s
    case Lookup(_, _, _, body, _) => BodyConfined(body, t);
    case Union(_, body) => BodyConfined(body, t);
    case UnionName(_) => EverySplits(ConfinedTo(t), [TenantMatch(t)]);
    case Facet(branches) =>
      forall i | 0 <= i < |branches|
        ensures BeginsScoped(ScopeStage(s, t).value.branches[i].body, t)
        ensures EveryIn(ConfinedTo(t), ScopeStage(s, t).value.branches[i].body)
      {
        BranchesScoped(s, t, |branches|, i);
        BodyConfined(branches[i].body, t);
      }
    case _ =>
  }

  lemma {:induction false} StagesConfined(stages: seq<Stage>, t: string)
    requires ScopeStages(stages, t).Ok?
    ensures Every(ConfinedTo(t), ScopeStages(stages, t).value)
    decreases stages, 0, 0
  {
    if stages != [] {
      StageConfined(stages[0], t);
      StagesConfined(stages[1..], t);
      var scoped := ScopeStages(stages, t).value;
      assert scoped[1..] == ScopeStages(stages[1..], t).value;
      EverySplits(ConfinedTo(t), scoped);
    }
  }

  /** At no depth does an accepted pipeline hold a write stage, an unfiltered join, or a collection opened
      without the tenant's match. */
  lemma AcceptedIsConfined(stages: seq<Stage>, t: string)
    requires ScopePipeline(stages, t).Ok?
    ensures forall x :: Occurs(x, ScopePipeline(stages, t).value) ==> Confined(x, t)
    ensures Every(ConfinedTo(t), ScopePipeline(stages, t).value)
  {
    StagesConfined(stages, t);
    var scoped := ScopePipeline(stages, t).value;
    assert scoped[1..] == ScopeStages(stages, t).value;
    EverySplits(ConfinedTo(t), scoped);
    EveryMeans(ConfinedTo(t), scoped);
  }

  // ---- Isolation ----

  lemma OneStage(db: Database, env: Env, s: Stage, docs: seq<Doc>)
    ensures Eval(db, env, [s], docs) == Apply(db, env, s, docs)
  {
    assert [s][1..] == [];
    assert Eval(db, env, [], Apply(db, env, s, docs)) == Apply(db, env, s, docs);
  }

  lemma {:induction false} PinnedCandidates(docs: seq<Doc>, f: Filter, t: string)
    requires TENANT in f && f[TENANT] == Is(Text(t))
    ensures Filtered(docs, f) == Filtered(TenantDocs(docs, t), f)
  {
    if docs != [] {
      PinnedCandidates(docs[1..], f, t);
      assert Matches(f, docs[0]) ==> Satisfies(docs[0], TENANT, f[TENANT]);
      if OfTenant(docs[0], t) {
        assert TenantDocs(docs, t) == [docs[0]] + TenantDocs(docs[1..], t);
        assert TenantDocs(docs, t)[1..] == TenantDocs(docs[1..], t);
      }
    }
  }

  /** A body that begins with the tenant's match sees the tenant's documents only. */
  lemma {:induction false} BodyIsolated(a: Database, b: Database, env: Env, body: Body, name: string, t: string)
    requires AgreeOn(a, b, t) && BeginsScoped(body, t) && EveryIn(ConfinedTo(t), body)
    ensures EvalBody(a, env, body, Collection(a, name)) == EvalBody(b, env, body, Collection(b, name))
    decreases body, 1, 0
  {
    EverySplits(ConfinedTo(t), body.stages);
    var docs := TenantDocs(Collection(a, name), t);
    assert Apply(a, env, body.stages[0], Collection(a, name)) == docs == Apply(b, env, body.stages[0], Collection(b, name));
    Isolated(a, b, env, body.stages[1..], docs, t);
  }

  lemma {:induction false} StageIsolated(a: Database, b: Database, env: Env, s: Stage, docs: seq<Doc>, t: string)
    requires AgreeOn(a, b, t) && Confined(s, t) && EveryWithin(ConfinedTo(t), s)
    ensures Apply(a, env, s, docs) == Apply(b, env, s, docs)
    decreases s, 3, 0
  {
    match s
    case Lookup(_, _, _, _, _) => JoinIsolated(a, b, env, s, docs, t);
    case Union(coll, body) => BodyIsolated(a, b, env, body, coll, t);
    case GraphLookup(_, _, _, _) => WalkIsolated(a, b, env, s, docs, t);
    case Facet(branches) => BranchesIsolated(a, b, env, s, docs, t, |branches|);
    case _ =>
  }

  lemma {:induction false} JoinIsolated(a: Database, b: Database, env: Env, s: Stage, docs: seq<Doc>, t: string)
    requires AgreeOn(a, b, t) && s.Lookup? && Confined(s, t) && EveryIn(ConfinedTo(t), s.body)
    ensures Joined(a, env, s, docs) == Joined(b, env, s, docs)
    decreases s, 2, |docs|
  {
    if docs != [] {
      BodyIsolated(a, b, s.letting(env, docs[0]), s.body, s.from, t);
      JoinIsolated(a, b, env, s, docs[1..], t);
    }
  }

  lemma {:induction false} WalkIsolated(a: Database, b: Database, env: Env, s: Stage, docs: seq<Doc>, t: string)
    requires AgreeOn(a, b, t) && s.GraphLookup? && Confined(s, t)
    ensures Walked(a, env, s, docs) == Walked(b, env, s, docs)
    decreases s, 2, |docs|
  {
    if docs != [] {
      PinnedCandidates(Collection(a, s.from), s.restriction.filter, t);
      PinnedCandidates(Collection(b, s.from), s.restriction.filter, t);
      WalkIsolated(a, b, env, s, docs[1..], t);
    }
  }

  lemma {:induction false} BranchesIsolated(a: Database, b: Database, env: Env, s: Stage, docs: seq<Doc>, t: string, n: nat)
    requires AgreeOn(a, b, t) && s.Facet? && EveryWithin(ConfinedTo(t), s) && n <= |s.branches|
    ensures BranchResults(a, env, s, docs, n) == BranchResults(b, env, s, docs, n)
    decreases s, 2, n
  {
    if n > 0 {
      BranchesIsolated(a, b, env, s, docs, t, n - 1);
      var body := s.branches[n - 1].body;
      assert EveryIn(ConfinedTo(t), body);
      if body.Steps? { Isolated(a, b, env, body.stages, docs, t); }
    }
  }

  lemma {:induction false} Isolated(a: Database, b: Database, env: Env, stages: seq<Stage>, docs: seq<Doc>, t: string)
    requires AgreeOn(a, b, t) && Every(ConfinedTo(t), stages)
    ensures Eval(a, env, stages, docs) == Eval(b, env, stages, docs)
    decreases stages, 0, 0
  {
    if stages != [] {
      EverySplits(ConfinedTo(t), stages);
      StageIsolated(a, b, env, stages[0], docs, t);
      Isolated(a, b, env, stages[1..], Apply(a, env, stages[0], docs), t);
    }
  }

  /** Non-interference: on two databases that agree on the tenant's documents, and differ in any way
      elsewhere, an accepted pipeline over any collection yields the same. */
  lemma TenantsDoNotInterfere(a: Database, b: Database, name: string, stages: seq<Stage>, t: string)
    requires AgreeOn(a, b, t) && ScopePipeline(stages, t).Ok?
    ensures var scoped := ScopePipeline(stages, t).value;
            Eval(a, map[], scoped, Collection(a, name)) == Eval(b, map[], scoped, Collection(b, name))
  {
    var scoped := ScopePipeline(stages, t).value;
    AcceptedIsConfined(stages, t);
    EverySplits(ConfinedTo(t), scoped);
    Isolated(a, b, map[], scoped[1..], TenantDocs(Collection(a, name), t), t);
  }
}
