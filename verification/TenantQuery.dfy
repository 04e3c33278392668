/** A small aggregation language over a multi-tenant document store, with its meaning. The stages whose
    result depends on the incoming documents alone ($match, $project, $group, $sort, …) are one
    constructor; the stages that reach into other collections, or hold a pipeline of their own, are
    spelled out. */
module TenantQuery {
  import opened Outcomes

  datatype Value = Null | Text(text: string) | Number(number: int) | List(docs: seq<Doc>)

  type Doc = map<string, Value>

  /** The variables of the enclosing $lookup stages. */
  type Env = map<string, Value>

  type Database = map<string, seq<Doc>>

  const TENANT: string := "tenantId"

  predicate OfTenant(d: Doc, t: string) {
    TENANT in d && d[TENANT] == Text(t)
  }

  // ---- Filters ----

  /** One clause of a filter document: a literal value, or any other condition on the document. */
  datatype Clause = Is(value: Value) | Where(holds: Doc -> bool)

  type Filter = map<string, Clause>

  predicate Satisfies(d: Doc, field: string, clause: Clause) {
    match clause
    case Is(v) => field in d && d[field] == v
    case Where(holds) => holds(d)
  }

  predicate Matches(f: Filter, d: Doc) {
    forall field :: field in f ==> Satisfies(d, field, f[field])
  }

  // ---- Pipelines ----

  /** The value found where a sub-pipeline is expected. */
  datatype Body = Missing | NotAnArray | Steps(stages: seq<Stage>)

  datatype Restriction = Unrestricted | NotAnObject | Restrict(filter: Filter)

  datatype Stage =
    | Reshape(apply: (Env, seq<Doc>) -> seq<Doc>)
    | TenantMatch(tenant: string)
    | Lookup(from: string, letting: (Env, Doc) -> Env, join: Option<(Doc, seq<Doc>) -> seq<Doc>>, body: Body, into: string)
    | UnionName(coll: string)
    | Union(coll: string, body: Body)
    | GraphLookup(from: string, search: (Env, Doc, seq<Doc>) -> seq<Doc>, restriction: Restriction, into: string)
    | Facet(branches: seq<Branch>)
    /** $lookup, $unionWith, $graphLookup or $facet whose value has the wrong shape. */
    | Malformed
    | Merge(target: string)
    | Out(target: string)

  datatype Branch = Branch(name: string, body: Body)

  function Collection(db: Database, name: string): seq<Doc> {
    if name in db then db[name] else []
  }

  function TenantDocs(docs: seq<Doc>, t: string): (r: seq<Doc>)
    ensures forall d :: d in r <==> d in docs && OfTenant(d, t)
  {
    if docs == [] then []
    else if OfTenant(docs[0], t) then [docs[0]] + TenantDocs(docs[1..], t)
    else TenantDocs(docs[1..], t)
  }

  function Filtered(docs: seq<Doc>, f: Filter): seq<Doc> {
    if docs == [] then []
    else if Matches(f, docs[0]) then [docs[0]] + Filtered(docs[1..], f)
    else Filtered(docs[1..], f)
  }

  /** The rows a $graphLookup may walk over. */
  function Candidates(docs: seq<Doc>, r: Restriction): seq<Doc> {
    if r.Restrict? then Filtered(docs, r.filter) else docs
  }

  function StagesOf(b: Body): seq<Stage> {
    if b.Steps? then b.stages else []
  }

  // ---- Meaning ----

  /** The documents a pipeline yields. The write stages yield none; a malformed stage passes its input. */
  function Eval(db: Database, env: Env, stages: seq<Stage>, docs: seq<Doc>): seq<Doc>
    decreases stages, 0, 0
  {
    if stages == [] then docs else Eval(db, env, stages[1..], Apply(db, env, stages[0], docs))
  }

  function EvalBody(db: Database, env: Env, b: Body, docs: seq<Doc>): seq<Doc>
    decreases b, 1, 0
  {
    if b.Steps? then Eval(db, env, b.stages, docs) else docs
  }

  function Apply(db: Database, env: Env, s: Stage, docs: seq<Doc>): seq<Doc>
    decreases s, 3, 0
  {
    match s
    case Reshape(apply) => apply(env, docs)
    case TenantMatch(t) => TenantDocs(docs, t)
    case Lookup(_, _, _, _, _) => Joined(db, env, s, docs)
    case UnionName(coll) => docs + Collection(db, coll)
    case Union(coll, body) => docs + EvalBody(db, env, body, Collection(db, coll))
    case GraphLookup(_, _, _, _) => Walked(db, env, s, docs)
    case Facet(branches) => [BranchResults(db, env, s, docs, |branches|)]
    case Malformed => docs
    case Merge(_) => []
    case Out(_) => []
  }

  /** $lookup: every document gains the sub-pipeline's result, run with that document's variables. */
  function Joined(db: Database, env: Env, s: Stage, docs: seq<Doc>): seq<Doc>
    requires s.Lookup?
    decreases s, 2, |docs|
  {
    if docs == [] then []
    else
      var foreign := Collection(db, s.from);
      var rows := if s.join.Some? then s.join.value(docs[0], foreign) else foreign;
      [docs[0][s.into := List(EvalBody(db, s.letting(env, docs[0]), s.body, rows))]] + Joined(db, env, s, docs[1..])
  }

  /** $graphLookup: every document gains what the recursive search reaches among the candidate rows. */
  function Walked(db: Database, env: Env, s: Stage, docs: seq<Doc>): seq<Doc>
    requires s.GraphLookup?
    decreases s, 2, |docs|
  {
    if docs == [] then []
    else
      [docs[0][s.into := List(s.search(env, docs[0], Candidates(Collection(db, s.from), s.restriction)))]]
      + Walked(db, env, s, docs[1..])
  }

  /** $facet: one document with the result of each of the first n branches, all run on the same input. */
  function BranchResults(db: Database, env: Env, s: Stage, docs: seq<Doc>, n: nat): Doc
    requires s.Facet? && n <= |s.branches|
    decreases s, 2, n
  {
    if n == 0 then map[]
    else BranchResults(db, env, s, docs, n - 1)[s.branches[n - 1].name := List(EvalBody(db, env, s.branches[n - 1].body, docs))]
  }

  // ---- What occurs in a pipeline, at any depth ----

  ghost predicate Occurs(x: Stage, stages: seq<Stage>)
    decreases stages, 0
  {
    exists i :: 0 <= i < |stages| && (stages[i] == x || OccursWithin(x, stages[i]))
  }

  ghost predicate OccursIn(x: Stage, b: Body)
    decreases b, 1
  {
    b.Steps? && Occurs(x, b.stages)
  }

  ghost predicate OccursWithin(x: Stage, s: Stage)
    decreases s, 2
  {
    match s
    case Lookup(_, _, _, body, _) => OccursIn(x, body)
    case Union(_, body) => OccursIn(x, body)
    case Facet(branches) => exists i :: 0 <= i < |branches| && OccursIn(x, branches[i].body)
    case _ => false
  }

  // ---- The slice of one tenant ----

  function Slice(db: Database, t: string): Database {
    map name | name in db :: TenantDocs(db[name], t)
  }

  /** Two databases hold the same documents of tenant t; nothing is said of the others. */
  ghost predicate AgreeOn(a: Database, b: Database, t: string) {
    forall name :: TenantDocs(Collection(a, name), t) == TenantDocs(Collection(b, name), t)
  }
}
