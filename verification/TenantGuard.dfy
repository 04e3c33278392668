/** The tenant guard: how queries, documents and aggregation pipelines are rewritten so that they stay
    inside the active tenant. */
module TenantGuard {
  import opened Outcomes
  import opened TenantQuery

  datatype GuardError =
    | UnsafeAggregation(reason: string)
    | CrossTenantWrite(tenant: string, found: Value)

  // ---- What cannot be made safe ----

  /** Banned or ill-formed as it stands, whatever its sub-pipelines hold. */
  predicate Unsafe(s: Stage) {
    match s
    case Lookup(_, _, join, body, _) => join.Some? || body.NotAnArray?
    case Union(_, body) => body.NotAnArray?
    case GraphLookup(_, _, restriction, _) => restriction.NotAnObject?
    case Facet(branches) => exists i :: 0 <= i < |branches| && branches[i].body.NotAnArray?
    case Malformed => true
    case Merge(_) => true
    case Out(_) => true
    case _ => false
  }

  // ---- The rewriting ----

  function Pinned(f: Filter, t: string): Filter {
    f[TENANT := Is(Text(t))]
  }

  function ScopedRestriction(r: Restriction, t: string): Restriction {
    Restrict(Pinned(if r.Restrict? then r.filter else map[], t))
  }

  function ScopeStage(s: Stage, t: string): Result<Stage, GuardError>
    decreases s, 2
  {
    match s
    case Merge(_) => Err(UnsafeAggregation("$merge"))
    case Out(_) => Err(UnsafeAggregation("$out"))
    case Malformed => Err(UnsafeAggregation("shape"))
    case Lookup(from, letting, join, body, into) =>
      if join.Some? then Err(UnsafeAggregation("localField"))
      else
        (match ScopeBody(body, t)
         case Err(e) => Err(e)
         case Ok(b) => Ok(Lookup(from, letting, None, b, into)))
    case UnionName(coll) => Ok(Union(coll, Steps([TenantMatch(t)])))
    case Union(coll, body) =>
      (match ScopeBody(body, t)
       case Err(e) => Err(e)
       case Ok(b) => Ok(Union(coll, b)))
    case GraphLookup(from, search, restriction, into) =>
      if restriction.NotAnObject? then Err(UnsafeAggregation("restrictSearchWithMatch"))
      else Ok(GraphLookup(from, search, ScopedRestriction(restriction, t), into))
    case Facet(branches) =>
      (match ScopeBranches(s, t, |branches|)
       case Err(e) => Err(e)
       case Ok(bs) => Ok(Facet(bs)))
    case _ => Ok(s)
  }

  /** A missing pipeline counts as empty; every stage is scoped, and the tenant match goes in front. */
  function ScopeBody(b: Body, t: string): (r: Result<Body, GuardError>)
    ensures r.Ok? ==> r.value.Steps?
    decreases b, 1
  {
    match b
    case NotAnArray => Err(UnsafeAggregation("pipeline"))
    case Missing => Ok(Steps([TenantMatch(t)]))
    case Steps(stages) =>
      match ScopeStages(stages, t)
      case Err(e) => Err(e)
      case Ok(ss) => Ok(Steps([TenantMatch(t)] + ss))
  }

  function ScopeStages(stages: seq<Stage>, t: string): (r: Result<seq<Stage>, GuardError>)
    ensures r.Ok? ==> |r.value| == |stages|
    decreases stages, 0
  {
    if stages == [] then Ok([])
    else
      match ScopeStage(stages[0], t)
      case Err(e) => Err(e)
      case Ok(s) => After([s], ScopeStages(stages[1..], t))
  }

  function After(done: seq<Stage>, rest: Result<seq<Stage>, GuardError>): Result<seq<Stage>, GuardError> {
    match rest
    case Err(e) => Err(e)
    case Ok(ss) => Ok(done + ss)
  }

  function ScopeBranches(s: Stage, t: string, n: nat): (r: Result<seq<Branch>, GuardError>)
    requires s.Facet? && n <= |s.branches|
    ensures r.Ok? ==> |r.value| == n
    decreases s, 1, n
  {
    if n == 0 then Ok([])
    else
      match ScopeBranches(s, t, n - 1)
      case Err(e) => Err(e)
      case Ok(before) =>
        match ScopeBody(s.branches[n - 1].body, t)
        case Err(e) => Err(e)
        case Ok(b) => Ok(before + [Branch(s.branches[n - 1].name, b)])
  }

  function ScopePipeline(stages: seq<Stage>, t: string): Result<seq<Stage>, GuardError> {
    match ScopeStages(stages, t)
    case Err(e) => Err(e)
    case Ok(ss) => Ok([TenantMatch(t)] + ss)
  }

  // ---- As the hooks do it: in place, stage by stage ----

  method ScopeAggregationStage(s: Stage, t: string) returns (r: Result<Stage, GuardError>)
    ensures r == ScopeStage(s, t)
    decreases s, 2
  {
    match s
    case Merge(_) => return Err(UnsafeAggregation("$merge"));
    case Out(_) => return Err(UnsafeAggregation("$out"));
    case Malformed => return Err(UnsafeAggregation("shape"));
    case Lookup(from, letting, join, body, into) =>
      if join.Some? {
        return Err(UnsafeAggregation("localField"));
      }
      var b := ScopeSubPipeline(body, t);
      return if b.Err? then Err(b.error) else Ok(Lookup(from, letting, None, b.value, into));
    case UnionName(coll) => return Ok(Union(coll, Steps([TenantMatch(t)])));
    case Union(coll, body) =>
      var b := ScopeSubPipeline(body, t);
      return if b.Err? then Err(b.error) else Ok(Union(coll, b.value));
    case GraphLookup(from, search, restriction, into) =>
      if restriction.NotAnObject? {
        return Err(UnsafeAggregation("restrictSearchWithMatch"));
      }
      return Ok(GraphLookup(from, search, ScopedRestriction(restriction, t), into));
    case Facet(branches) =>
      var spec := [];
      for i := 0 to |branches|
        invariant ScopeBranches(s, t, i) == Ok(spec)
      {
        var b := ScopeSubPipeline(branches[i].body, t);
        if b.Err? {
          BranchErrorWins(s, t, i + 1);
          return Err(b.error);
        }
        spec := spec + [Branch(branches[i].name, b.value)];
      }
      return Ok(Facet(spec));
    case _ => return Ok(s);
  }

  lemma {:induction false} BranchErrorWins(s: Stage, t: string, n: nat)
    requires s.Facet? && n <= |s.branches| && ScopeBranches(s, t, n).Err?
    ensures ScopeBranches(s, t, |s.branches|) == ScopeBranches(s, t, n)
    decreases |s.branches| - n
  {
    if n < |s.branches| { BranchErrorWins(s, t, n + 1); }
  }

  method ScopeSubPipeline(b: Body, t: string) returns (r: Result<Body, GuardError>)
    ensures r == ScopeBody(b, t)
    decreases b, 1
  {
    if b.NotAnArray? {
      return Err(UnsafeAggregation("pipeline"));
    }
    var inner := StagesOf(b);
    var i := 0;
    ghost var original := inner;
    AfterNothing(original, t);
    while i < |inner|
      invariant |inner| == |original| && i <= |inner|
      invariant ScopeStages(original, t) == After(inner[..i], ScopeStages(original[i..], t))
      invariant inner[i..] == original[i..]
    {
      assert inner[i] == inner[i..][0] == original[i..][0];
      assert original[i..][1..] == original[i + 1..];
      var s := ScopeAggregationStage(inner[i], t);
      if s.Err? {
        return Err(s.error);
      }
      OneMoreScoped(inner, i, s.value, ScopeStages(original[i + 1..], t));
      inner := inner[i := s.value];
      i := i + 1;
    }
    assert inner[..i] + [] == inner;
    assert b.Missing? ==> [TenantMatch(t)] + inner == [TenantMatch(t)];
    return Ok(Steps([TenantMatch(t)] + inner));
  }

  lemma AfterNothing(stages: seq<Stage>, t: string)
    ensures After(stages[..0], ScopeStages(stages[0..], t)) == ScopeStages(stages, t)
  {
    assert stages[0..] == stages;
    var r := ScopeStages(stages, t);
    if r.Ok? { assert [] + r.value == r.value; }
  }

  lemma OneMoreScoped(stages: seq<Stage>, i: nat, s: Stage, rest: Result<seq<Stage>, GuardError>)
    requires i < |stages|
    ensures After(stages[..i], After([s], rest)) == After(stages[i := s][..i + 1], rest)
    ensures stages[i := s][i + 1..] == stages[i..][1..]
  {
    assert stages[i := s][..i + 1] == stages[..i] + [s];
    if rest.Ok? { assert stages[..i] + ([s] + rest.value) == stages[..i] + [s] + rest.value; }
  }

  /** The aggregate a pre-hook is bound to; the hook rewrites its pipeline in place. */
  class Aggregate {
    var pipeline: seq<Stage>

    constructor (pipeline: seq<Stage>)
      ensures this.pipeline == pipeline
    {
      this.pipeline := pipeline;
    }

    /** On success the pipeline is the scoped one. On an unsafe stage nothing may run, and the stages
        before it are already rewritten. */
    method Scope(t: string) returns (error: Option<GuardError>)
      modifies this
      ensures match ScopePipeline(old(pipeline), t)
              case Ok(scoped) => error == None && pipeline == scoped
              case Err(e) => error == Some(e) && |pipeline| == |old(pipeline)|
                             && exists i :: 0 <= i < |pipeline| && PrefixScoped(old(pipeline), pipeline, t, i)
    {
      var i := 0;
      AfterNothing(pipeline, t);
      while i < |pipeline|
        invariant |pipeline| == |old(pipeline)| && i <= |pipeline|
        invariant ScopeStages(old(pipeline), t) == After(pipeline[..i], ScopeStages(old(pipeline)[i..], t))
        invariant pipeline[i..] == old(pipeline)[i..]
        invariant forall j :: 0 <= j < i ==> Ok(pipeline[j]) == ScopeStage(old(pipeline)[j], t)
      {
        assert pipeline[i] == pipeline[i..][0] == old(pipeline)[i..][0];
        assert old(pipeline)[i..][1..] == old(pipeline)[i + 1..];
        var s := ScopeAggregationStage(pipeline[i], t);
        if s.Err? {
          assert PrefixScoped(old(pipeline), pipeline, t, i);
          return Some(s.error);
        }
        OneMoreScoped(pipeline, i, s.value, ScopeStages(old(pipeline)[i + 1..], t));
        pipeline := pipeline[i := s.value];
        i := i + 1;
      }
      assert pipeline[..i] + [] == pipeline;
      pipeline := [TenantMatch(t)] + pipeline;
      return None;
    }
  }

  /** The first i stages are rewritten, the rest are as they were, and stage i is refused. */
  ghost predicate PrefixScoped(was: seq<Stage>, now: seq<Stage>, t: string, i: nat)
    requires |was| == |now| && i < |was|
  {
    (forall j :: 0 <= j < i ==> Ok(now[j]) == ScopeStage(was[j], t)) && now[i..] == was[i..] && ScopeStage(was[i], t).Err?
  }

  // ---- Query filters ----

  /** The filter says nothing about the tenant field, or restates the active tenant. */
  predicate AtHome(f: Filter, t: string) {
    TENANT !in f || (f[TENANT].Is? && f[TENANT].value == Text(t))
  }

  function ScopeFilter(f: Filter, t: string): Result<Filter, GuardError> {
    if !AtHome(f, t)
    then Err(CrossTenantWrite(t, if f[TENANT].Is? then f[TENANT].value else Null))
    else Ok(Pinned(f, t))
  }

  lemma PinnedMatches(f: Filter, t: string, d: Doc)
    ensures Matches(Pinned(f, t), d) ==> OfTenant(d, t)
    ensures AtHome(f, t) ==> (Matches(Pinned(f, t), d) <==> Matches(f, d) && OfTenant(d, t))
  {
    var g := Pinned(f, t);
    assert TENANT in g && g[TENANT] == Is(Text(t));
    assert forall field :: field in f && field != TENANT ==> field in g && g[field] == f[field];
    assert forall field :: field in g && field != TENANT ==> field in f;
    assert Matches(g, d) ==> Satisfies(d, TENANT, g[TENANT]);
    if AtHome(f, t) && Matches(g, d) {
      forall field | field in f ensures Satisfies(d, field, f[field]) {
        assert Satisfies(d, field, g[field]);
      }
    }
  }

  /** A guarded query sees exactly the tenant's documents that the query asked for; it is refused exactly
      when it names the tenant field in any other way. */
  lemma ScopedFilterExact(f: Filter, t: string, d: Doc)
    ensures ScopeFilter(f, t).Err? <==> TENANT in f && f[TENANT] != Is(Text(t))
    ensures ScopeFilter(f, t).Ok? ==> (Matches(ScopeFilter(f, t).value, d) <==> Matches(f, d) && OfTenant(d, t))
  {
    PinnedMatches(f, t, d);
  }

  // ---- Documents on their way in ----

  predicate Foreign(d: Doc, t: string) {
    TENANT in d && d[TENANT] != Null && d[TENANT] != Text(t)
  }

  function StampDoc(d: Doc, t: string): (r: Result<Doc, GuardError>)
    ensures r.Err? <==> Foreign(d, t)
    ensures r.Ok? ==> OfTenant(r.value, t) && r.value - {TENANT} == d - {TENANT}
  {
    if TENANT !in d || d[TENANT] == Null then Ok(d[TENANT := Text(t)])
    else if d[TENANT] != Text(t) then Err(CrossTenantWrite(t, d[TENANT]))
    else Ok(d)
  }

  /** The `insertMany` hook: every document is stamped in place, up to the first that belongs to another
      tenant; an error means that nothing is inserted. */
  method StampAll(docs: array<Doc>, t: string) returns (error: Option<GuardError>)
    modifies docs
    ensures error.None? <==> forall i :: 0 <= i < docs.Length ==> !Foreign(old(docs[i]), t)
    ensures error.None? ==> forall i :: 0 <= i < docs.Length ==> Ok(docs[i]) == StampDoc(old(docs[i]), t)
    ensures error.None? ==> forall d :: d in docs[..] ==> OfTenant(d, t)
  {
    for i := 0 to docs.Length
      invariant forall j :: 0 <= j < i ==> !Foreign(old(docs[j]), t) && Ok(docs[j]) == StampDoc(old(docs[j]), t)
      invariant forall j :: i <= j < docs.Length ==> docs[j] == old(docs[j])
    {
      var stamped := StampDoc(docs[i], t);
      if stamped.Err? {
        return Some(stamped.error);
      }
      docs[i] := stamped.value;
    }
    return None;
  }
}
