/** The rank eligibility evaluator: AND/OR trees of criteria over a student's record, what blocks a
    promotion, and the three-valued status. Dates are those of the tenant's zone. */
module RankEngine {
  import opened Outcomes
  import opened Calendar

  datatype Enforcement = Required | Advisory

  datatype Role = Instructor | Owner

  datatype LeafType =
    MinTimeAtStep | MinClassesSinceLastPromotion | MinTotalClasses | MinAge | PrerequisiteStep
    | RequiredCurriculumItems | PassedGradingEvent | ManualInstructorSignOff

  datatype Leaf =
    | TimeAtStep(months: nat, days: nat)
    | ClassesSince(count: nat)
    | TotalClasses(count: nat)
    | Age(years: nat)
    | Prerequisite(stepId: string)
    | CurriculumItems(itemIds: seq<string>)
    | PassedGrading
    | SignOff(role: Option<Role>)

  /** A tree whose inner nodes demand all, or any, of their children. */
  datatype Criterion =
    | Single(leaf: Leaf, enforcement: Enforcement)
    | AllOf(criteria: seq<Criterion>)
    | AnyOf(criteria: seq<Criterion>)

  datatype StepKind = RankStep | Marker | Dan | Level

  datatype LadderStep = LadderStep(
    id: string, kind: StepKind, order: int, track: string, parent: Option<string>,
    criteria: Criterion, curriculum: Option<string>)

  datatype Student = Student(
    track: string, currentStep: Option<string>,
    entered: Date, born: Option<Date>,
    classesSince: int, classesTotal: int,
    items: set<string>,
    gradings: set<(string, bool)>,
    signOffs: set<(string, Role)>)

  /** What one evaluation looks at: the record, today's date, the ladder, and the step aimed at. */
  datatype Env = Env(student: Student, today: Date, ladder: seq<LadderStep>, target: string)

  datatype Evaluation = Evaluation(kind: LeafType, enforcement: Enforcement, satisfied: bool, current: int, target: int)

  datatype NodeEval = NodeEval(satisfied: bool, blocking: seq<LeafType>, evaluations: seq<Evaluation>)

  // ---- Leaves ----

  /** Progress clamped into 0..1, in exact arithmetic. */
  function Fraction(current: int, target: int): real {
    if target <= 0 then 1.0
    else
      var f := current as real / target as real;
      if f < 0.0 then 0.0 else if f > 1.0 then 1.0 else f
  }

  /** `new Map(ladder.map(s => [s.id, s]))`: a later step with the same id replaces an earlier one. */
  function StepById(ladder: seq<LadderStep>, id: string): Option<LadderStep> {
    if ladder == [] then None
    else if ladder[|ladder| - 1].id == id then Some(ladder[|ladder| - 1])
    else StepById(ladder[..|ladder| - 1], id)
  }

  /** Complete years between two dates. */
  function YearsBetween(a: Date, b: Date): int {
    if Before(b, a) then -CompleteYears(b, a) else CompleteYears(a, b)
  }

  function CompleteYears(a: Date, b: Date): int {
    b.year - a.year - (if b.month < a.month || (b.month == a.month && b.day < a.day) then 1 else 0)
  }

  function Threshold(entered: Date, months: nat, days: nat): Date
    requires Valid(entered)
  {
    AddMonthsExact(entered, months);
    DatePlus(AddMonths(entered, months), days)
  }

  function Max0(x: int): int { if x < 0 then 0 else x }

  function CountIn(ids: seq<string>, have: set<string>): nat {
    if ids == [] then 0 else CountIn(ids[..|ids| - 1], have) + (if ids[|ids| - 1] in have then 1 else 0)
  }

  predicate ValidEnv(env: Env) {
    Valid(env.student.entered) && Valid(env.today) && (env.student.born.Some? ==> Valid(env.student.born.value))
  }

  function Numeric(kind: LeafType, enforcement: Enforcement, current: int, target: int): Evaluation {
    Evaluation(kind, enforcement, current >= target, current, target)
  }

  function Boolean(kind: LeafType, enforcement: Enforcement, met: bool): Evaluation {
    Evaluation(kind, enforcement, met, if met then 1 else 0, 1)
  }

  predicate PrerequisiteMet(env: Env, stepId: string) {
    var pre := StepById(env.ladder, stepId);
    var current := if env.student.currentStep.Some? then StepById(env.ladder, env.student.currentStep.value) else None;
    if pre.Some? && current.Some? && current.value.track == pre.value.track then current.value.order >= pre.value.order
    else env.student.currentStep == Some(stepId)
  }

  predicate SignedOff(env: Env, role: Option<Role>) {
    exists s :: s in env.student.signOffs && s.0 == env.target && (role.None? || s.1 == role.value)
  }

  function EvaluateLeaf(leaf: Leaf, enforcement: Enforcement, env: Env): Evaluation
    requires ValidEnv(env)
  {
    match leaf
    case TimeAtStep(months, days) =>
      var threshold := Threshold(env.student.entered, months, days);
      Evaluation(MinTimeAtStep, enforcement, !Before(env.today, threshold),
                 Max0(DayNumber(env.today) - DayNumber(env.student.entered)),
                 DayNumber(threshold) - DayNumber(env.student.entered))
    case ClassesSince(count) => Numeric(MinClassesSinceLastPromotion, enforcement, env.student.classesSince, count)
    case TotalClasses(count) => Numeric(MinTotalClasses, enforcement, env.student.classesTotal, count)
    case Age(years) =>
      Numeric(MinAge, enforcement, if env.student.born.Some? then YearsBetween(env.student.born.value, env.today) else 0, years)
    case Prerequisite(stepId) => Boolean(PrerequisiteStep, enforcement, PrerequisiteMet(env, stepId))
    case CurriculumItems(itemIds) =>
      Numeric(RequiredCurriculumItems, enforcement, CountIn(itemIds, env.student.items), |itemIds|)
    case PassedGrading => Boolean(PassedGradingEvent, enforcement, (env.target, true) in env.student.gradings)
    case SignOff(role) => Boolean(ManualInstructorSignOff, enforcement, SignedOff(env, role))
  }

  // ---- Trees ----

  function Evaluate(node: Criterion, env: Env): NodeEval
    requires ValidEnv(env)
    decreases node, 1
  {
    match node
    case Single(leaf, enforcement) =>
      var ev := EvaluateLeaf(leaf, enforcement, env);
      NodeEval(ev.satisfied, if ev.enforcement == Required && !ev.satisfied then [ev.kind] else [], [ev])
    case AllOf(criteria) =>
      var parts := EvaluateAll(criteria, env);
      NodeEval(forall i :: 0 <= i < |parts| ==> parts[i].satisfied, BlockingOf(parts), EvaluationsOf(parts))
    case AnyOf(criteria) =>
      var parts := EvaluateAll(criteria, env);
      var satisfied := exists i :: 0 <= i < |parts| && parts[i].satisfied;
      NodeEval(satisfied, if satisfied then [] else BlockingOf(parts), EvaluationsOf(parts))
  }

  function EvaluateAll(criteria: seq<Criterion>, env: Env): (parts: seq<NodeEval>)
    requires ValidEnv(env)
    ensures |parts| == |criteria|
    ensures forall i :: 0 <= i < |criteria| ==> parts[i] == Evaluate(criteria[i], env)
    decreases criteria, 0
  {
    if criteria == [] then [] else [Evaluate(criteria[0], env)] + EvaluateAll(criteria[1..], env)
  }

  function BlockingOf(parts: seq<NodeEval>): seq<LeafType> {
    if parts == [] then [] else parts[0].blocking + BlockingOf(parts[1..])
  }

  function EvaluationsOf(parts: seq<NodeEval>): seq<Evaluation> {
    if parts == [] then [] else parts[0].evaluations + EvaluationsOf(parts[1..])
  }

  // ---- A step ----

  datatype Status = NotYet | Close | Ready

  function StatusRank(s: Status): nat {
    match s case NotYet => 0 case Close => 1 case Ready => 2
  }

  datatype StepEligibility = StepEligibility(
    stepId: string, status: Status, criteria: seq<Evaluation>, unmetRequired: seq<LeafType>, unmetAdvisory: seq<LeafType>)

  /** `[...new Set(xs)]`: first occurrences, in order. */
  function Dedupe(xs: seq<LeafType>): (r: seq<LeafType>)
    ensures forall x :: x in r <==> x in xs
    ensures forall i, j :: 0 <= i < j < |r| ==> r[i] != r[j]
  {
    if xs == [] then []
    else
      var before := Dedupe(xs[..|xs| - 1]);
      if xs[|xs| - 1] in before then before else before + [xs[|xs| - 1]]
  }

  predicate IsBlocking(e: Evaluation, unmet: seq<LeafType>) {
    !e.satisfied && e.enforcement == Required && e.kind in unmet
  }

  /** The unsatisfied required evaluations whose kind blocks. */
  function BlockingEvaluations(evs: seq<Evaluation>, unmet: seq<LeafType>): seq<Evaluation> {
    if evs == [] then []
    else (if IsBlocking(evs[0], unmet) then [evs[0]] else []) + BlockingEvaluations(evs[1..], unmet)
  }

  function MinFraction(evs: seq<Evaluation>): real {
    if evs == [] then 1.0
    else
      var f, rest := Fraction(evs[0].current, evs[0].target), MinFraction(evs[1..]);
      if f < rest then f else rest
  }

  function AdvisoryUnmet(evs: seq<Evaluation>): seq<LeafType> {
    if evs == [] then []
    else (if evs[0].enforcement == Advisory && !evs[0].satisfied then [evs[0].kind] else []) + AdvisoryUnmet(evs[1..])
  }

  function StatusOf(node: NodeEval): Status {
    var unmet := Dedupe(node.blocking);
    if |unmet| == 0 then Ready
    else
      var blocking := BlockingEvaluations(node.evaluations, unmet);
      var minFraction := if |blocking| > 0 then MinFraction(blocking) else 0.0;
      if minFraction >= 0.5 then Close else NotYet
  }

  function EvaluateStep(ladder: seq<LadderStep>, step: LadderStep, student: Student, today: Date): StepEligibility
    requires ValidEnv(Env(student, today, ladder, step.id))
  {
    var node := Evaluate(step.criteria, Env(student, today, ladder, step.id));
    StepEligibility(step.id, StatusOf(node), node.evaluations, Dedupe(node.blocking), Dedupe(AdvisoryUnmet(node.evaluations)))
  }

  // ---- Promotion ----

  datatype Award = Award(toStep: string, byRole: Role, user: string, overrideReason: Option<string>)

  datatype LogEntry = LogEntry(
    fromStep: Option<string>, toStep: string, awardedAt: Date, byRole: Role, user: string,
    snapshot: seq<Evaluation>, overrideReason: Option<string>)

  datatype PromoteError = UnknownStep | RequiredCriteriaUnmet(unmet: seq<LeafType>)

  function FindStep(ladder: seq<LadderStep>, id: string): Option<LadderStep> {
    if ladder == [] then None
    else if ladder[0].id == id then Some(ladder[0])
    else FindStep(ladder[1..], id)
  }

  function Promote(ladder: seq<LadderStep>, student: Student, award: Award, today: Date): Result<LogEntry, PromoteError>
    requires ValidEnv(Env(student, today, ladder, award.toStep))
  {
    match FindStep(ladder, award.toStep)
    case None => Err(UnknownStep)
    case Some(step) =>
      var elig := EvaluateStep(ladder, step, student, today);
      if |elig.unmetRequired| > 0 && award.overrideReason.None? then Err(RequiredCriteriaUnmet(elig.unmetRequired))
      else Ok(LogEntry(student.currentStep, award.toStep, today, award.byRole, award.user, elig.criteria, award.overrideReason))
  }
}
