/** When a criterion is met, said in terms of the student's record, and that the evaluator decides just that. */
module RankMeaning {
  import opened Outcomes
  import opened Calendar
  import opened RankEngine

  function KindOf(leaf: Leaf): LeafType {
    match leaf
    case TimeAtStep(_, _) => MinTimeAtStep
    case ClassesSince(_) => MinClassesSinceLastPromotion
    case TotalClasses(_) => MinTotalClasses
    case Age(_) => MinAge
    case Prerequisite(_) => PrerequisiteStep
    case CurriculumItems(_) => RequiredCurriculumItems
    case PassedGrading => PassedGradingEvent
    case SignOff(_) => ManualInstructorSignOff
  }

  /** The step an id names: the last one that carries it. */
  predicate Names(ladder: seq<LadderStep>, id: string, s: LadderStep) {
    exists i :: 0 <= i < |ladder| && ladder[i] == s && s.id == id && forall j :: i < j < |ladder| ==> ladder[j].id != id
  }

  /** On the day `today` the anniversary of that many years has come. */
  predicate BirthdayReached(born: Date, years: int, today: Date) {
    !Before(today, Date(born.year + years, born.month, born.day))
  }

  /** The day on which the time at the step is up. */
  function TimeUp(entered: Date, months: nat, days: nat): int
    requires Valid(entered)
  {
    AddMonthsExact(entered, months);
    DayNumber(AddMonths(entered, months)) + days
  }

  /** The student's step stands at least as high on the track of the named one. */
  predicate Passed(env: Env, stepId: string, pre: LadderStep, current: LadderStep) {
    && Names(env.ladder, stepId, pre)
    && env.student.currentStep.Some? && Names(env.ladder, env.student.currentStep.value, current)
    && current.track == pre.track && pre.order <= current.order
  }

  predicate HasPassed(env: Env, stepId: string) {
    exists i, j :: 0 <= i < |env.ladder| && 0 <= j < |env.ladder| && Passed(env, stepId, env.ladder[i], env.ladder[j])
  }

  /** A date of birth up to a year ahead counts as age 0. */
  predicate OldEnough(born: Option<Date>, years: nat, today: Date) {
    match born
    case None => years == 0
    case Some(b) =>
      if Before(today, b) then years == 0 && !BirthdayReached(today, 1, b) else BirthdayReached(b, years, today)
  }

  /** The criterion is met. */
  predicate Met(leaf: Leaf, env: Env)
    requires ValidEnv(env)
  {
    match leaf
    case TimeAtStep(months, days) => TimeUp(env.student.entered, months, days) <= DayNumber(env.today)
    case ClassesSince(count) => count <= env.student.classesSince
    case TotalClasses(count) => count <= env.student.classesTotal
    case Age(years) => OldEnough(env.student.born, years, env.today)
    case Prerequisite(stepId) => env.student.currentStep == Some(stepId) || HasPassed(env, stepId)
    case CurriculumItems(itemIds) => forall item :: item in itemIds ==> item in env.student.items
    case PassedGrading => exists g :: g in env.student.gradings && g.0 == env.target && g.1
    case SignOff(role) => exists s :: s in env.student.signOffs && s.0 == env.target && (role.Some? ==> s.1 == role.value)
  }

  function Done(ids: seq<string>, have: set<string>): set<int> {
    set i | 0 <= i < |ids| && ids[i] in have
  }

  /** At least half of what is asked is there. */
  predicate HalfMet(leaf: Leaf, env: Env)
    requires ValidEnv(env)
  {
    match leaf
    case TimeAtStep(months, days) =>
      var start, end, today := DayNumber(env.student.entered), TimeUp(env.student.entered, months, days), DayNumber(env.today);
      end <= start || end - start <= 2 * (today - start)
    case ClassesSince(count) => count == 0 || count <= 2 * env.student.classesSince
    case TotalClasses(count) => count == 0 || count <= 2 * env.student.classesTotal
    case Age(years) =>
      years == 0 || (env.student.born.Some? && BirthdayReached(env.student.born.value, (years + 1) / 2, env.today))
    case CurriculumItems(itemIds) => |itemIds| <= 2 * |Done(itemIds, env.student.items)|
    case _ => Met(leaf, env)
  }

  // ---- The evaluator decides this ----

  lemma {:induction false} NamedIsFound(ladder: seq<LadderStep>, id: string, s: LadderStep)
    ensures StepById(ladder, id) == Some(s) <==> Names(ladder, id, s)
  {
    if ladder != [] {
      var rest, last := ladder[..|ladder| - 1], ladder[|ladder| - 1];
      NamedIsFound(rest, id, s);
      if last.id == id {
        assert Names(ladder, id, last);
      } else {
        if i :| 0 <= i < |ladder| && ladder[i] == s && s.id == id && forall j :: i < j < |ladder| ==> ladder[j].id != id {
          assert rest[i] == s;
        }
        if i :| 0 <= i < |rest| && rest[i] == s && s.id == id && forall j :: i < j < |rest| ==> rest[j].id != id {
          assert ladder[i] == s;
        }
      }
    }
  }

  lemma PrerequisiteExactly(env: Env, stepId: string)
    ensures PrerequisiteMet(env, stepId) <==> env.student.currentStep == Some(stepId) || HasPassed(env, stepId)
  {
    var pre := StepById(env.ladder, stepId);
    var current := if env.student.currentStep.Some? then StepById(env.ladder, env.student.currentStep.value) else None;
    hide StepById;
    forall s ensures StepById(env.ladder, stepId) == Some(s) <==> Names(env.ladder, stepId, s) { NamedIsFound(env.ladder, stepId, s); }
    if env.student.currentStep.Some? {
      forall s ensures StepById(env.ladder, env.student.currentStep.value) == Some(s) <==> Names(env.ladder, env.student.currentStep.value, s) {
        NamedIsFound(env.ladder, env.student.currentStep.value, s);
      }
    }
    if pre.Some? && current.Some? && current.value.track == pre.value.track && pre.value.order <= current.value.order {
      var i :| 0 <= i < |env.ladder| && env.ladder[i] == pre.value;
      var j :| 0 <= j < |env.ladder| && env.ladder[j] == current.value;
      assert Passed(env, stepId, env.ladder[i], env.ladder[j]);
    }
  }

  lemma AgeExactly(born: Option<Date>, years: nat, today: Date)
    requires Valid(today) && (born.Some? ==> Valid(born.value))
    ensures (if born.Some? then YearsBetween(born.value, today) else 0) >= years <==> OldEnough(born, years, today)
  {
  }

  lemma TimeExactly(entered: Date, months: nat, days: nat, today: Date)
    requires Valid(entered) && Valid(today)
    ensures DayNumber(Threshold(entered, months, days)) == TimeUp(entered, months, days)
    ensures !Before(today, Threshold(entered, months, days)) <==> TimeUp(entered, months, days) <= DayNumber(today)
  {
    AddMonthsExact(entered, months);
    DatePlusCounts(AddMonths(entered, months), days);
    DayNumberOrders(today, Threshold(entered, months, days));
    hide DayNumber, AddMonths, DatePlus;
  }

  lemma {:induction false} CountIsDone(ids: seq<string>, have: set<string>)
    ensures CountIn(ids, have) == |Done(ids, have)| <= |ids|
    ensures CountIn(ids, have) == |ids| <==> forall item :: item in ids ==> item in have
  {
    if ids != [] {
      var n := |ids| - 1;
      CountIsDone(ids[..n], have);
      assert Done(ids, have) == Done(ids[..n], have) + if ids[n] in have then {n} else {};
      assert forall item :: item in ids <==> item in ids[..n] || item == ids[n];
    } else {
      assert Done(ids, have) == {};
    }
  }

  lemma HalfOf(current: int, target: int)
    ensures 0.5 <= Fraction(current, target) <==> target <= 0 || target <= 2 * current
  {
    if target > 0 { HalfReached(current as real, target as real); }
  }

  lemma HalfReached(x: real, y: real)
    requires 0.0 < y
    ensures 0.5 <= x / y <==> y <= 2.0 * x
  {
    var f := x / y;
    assert f * y == x;
    if 0.5 <= f { assert 0.5 * y <= f * y; } else { assert f * y < 0.5 * y; }
  }

  lemma HalfAgeExactly(born: Date, years: nat, today: Date)
    requires Valid(today) && Valid(born) && years > 0
    ensures years <= 2 * YearsBetween(born, today) <==> BirthdayReached(born, (years + 1) / 2, today)
  {
  }

  /** What one evaluation says: the kind and weight of its criterion, whether the record meets it, and how
      far it is on the way. */
  predicate Says(e: Evaluation, leaf: Leaf, enforcement: Enforcement, env: Env)
    requires ValidEnv(env)
  {
    && e.kind == KindOf(leaf) && e.enforcement == enforcement
    && (e.satisfied <==> Met(leaf, env))
    && (0.5 <= Fraction(e.current, e.target) <==> HalfMet(leaf, env))
  }

  lemma EvaluationSays(leaf: Leaf, enforcement: Enforcement, env: Env)
    requires ValidEnv(env)
    ensures Says(EvaluateLeaf(leaf, enforcement, env), leaf, enforcement, env)
  {
    hide Fraction, YearsBetween, Threshold, TimeUp, DayNumber, Before, StepById, HasPassed, PrerequisiteMet, CountIn, Done, BirthdayReached, Valid;
    var e := EvaluateLeaf(leaf, enforcement, env);
    HalfOf(e.current, e.target);
    match leaf
    case TimeAtStep(months, days) => TimeExactly(env.student.entered, months, days, env.today);
    case Age(years) =>
      AgeExactly(env.student.born, years, env.today);
      if env.student.born.Some? && years > 0 { HalfAgeExactly(env.student.born.value, years, env.today); }
    case Prerequisite(stepId) => PrerequisiteExactly(env, stepId);
    case CurriculumItems(itemIds) => CountIsDone(itemIds, env.student.items);
    case PassedGrading => GradingExactly(env);
    case _ =>
  }

  lemma GradingExactly(env: Env)
    ensures (env.target, true) in env.student.gradings <==> exists g :: g in env.student.gradings && g.0 == env.target && g.1
  {
    if (env.target, true) in env.student.gradings {
      var g := (env.target, true);
      assert g in env.student.gradings && g.0 == env.target && g.1;
    }
  }

  // ---- Trees ----

  /** The tree demands no more than the record shows. */
  predicate Holds(node: Criterion, env: Env)
    requires ValidEnv(env)
    decreases node
  {
    match node
    case Single(leaf, _) => Met(leaf, env)
    case AllOf(criteria) => forall i :: 0 <= i < |criteria| ==> Holds(criteria[i], env)
    case AnyOf(criteria) => exists i :: 0 <= i < |criteria| && Holds(criteria[i], env)
  }

  lemma {:induction false} SatisfiedIsHolds(node: Criterion, env: Env)
    requires ValidEnv(env)
    ensures Evaluate(node, env).satisfied <==> Holds(node, env)
    decreases node
  {
    if node.Single? {
      EvaluationSays(node.leaf, node.enforcement, env);
    } else {
      hide EvaluateLeaf, Met;
      var parts := EvaluateAll(node.criteria, env);
      forall i | 0 <= i < |parts| ensures parts[i].satisfied <==> Holds(node.criteria[i], env) { SatisfiedIsHolds(node.criteria[i], env); }
    }
  }

  datatype Test = Test(leaf: Leaf, enforcement: Enforcement)

  /** The criteria at the leaves, in order. */
  function Tests(node: Criterion): seq<Test>
    decreases node, 1
  {
    if node.Single? then [Test(node.leaf, node.enforcement)] else TestsOf(node.criteria)
  }

  function TestsOf(criteria: seq<Criterion>): seq<Test>
    decreases criteria, 0
  {
    if criteria == [] then [] else Tests(criteria[0]) + TestsOf(criteria[1..])
  }

  /** One evaluation for each criterion, in order. */
  predicate SaysAll(evs: seq<Evaluation>, tests: seq<Test>, env: Env)
    requires ValidEnv(env)
  {
    |evs| == |tests| && forall i :: 0 <= i < |evs| ==> Says(evs[i], tests[i].leaf, tests[i].enforcement, env)
  }

  lemma {:induction false} EvaluationsSayAll(node: Criterion, env: Env)
    requires ValidEnv(env)
    ensures SaysAll(Evaluate(node, env).evaluations, Tests(node), env)
    decreases node, 1
  {
    if node.Single? {
      EvaluationSays(node.leaf, node.enforcement, env);
    } else {
      PartsSayAll(node.criteria, env);
    }
  }

  lemma {:induction false} PartsSayAll(criteria: seq<Criterion>, env: Env)
    requires ValidEnv(env)
    ensures SaysAll(EvaluationsOf(EvaluateAll(criteria, env)), TestsOf(criteria), env)
    decreases criteria, 0
  {
    hide Says, SaysAll, Evaluate, Tests;
    if criteria == [] {
      NothingSaid(env);
    } else {
      EvaluationsSayAll(criteria[0], env);
      PartsSayAll(criteria[1..], env);
      var parts := EvaluateAll(criteria, env);
      assert parts[0] == Evaluate(criteria[0], env) && parts[1..] == EvaluateAll(criteria[1..], env);
      SaidTogether(parts[0].evaluations, EvaluationsOf(parts[1..]), Tests(criteria[0]), TestsOf(criteria[1..]), env);
    }
  }

  lemma NothingSaid(env: Env)
    requires ValidEnv(env)
    ensures SaysAll([], [], env)
  {
  }

  lemma SaidTogether(a: seq<Evaluation>, b: seq<Evaluation>, x: seq<Test>, y: seq<Test>, env: Env)
    requires ValidEnv(env) && SaysAll(a, x, env) && SaysAll(b, y, env)
    ensures SaysAll(a + b, x + y, env)
  {
    hide Says;
  }
}
