/** What the evaluator guarantees: which leaves block, that a better record never lowers the outcome, and
    exactly when a promotion is refused. */
module RankMonotone {
  import opened Outcomes
  import opened Calendar
  import opened RankEngine
  import opened RankLadder
  import opened RankMeaning

  // ---- What blocks ----

  /** The leaf at this path is required and not met, and no anyOf above it holds. */
  predicate Blocks(node: Criterion, env: Env, path: seq<nat>, kind: LeafType)
    requires ValidEnv(env)
    decreases node
  {
    match node
    case Single(leaf, enforcement) =>
      path == [] && enforcement == Required && !Met(leaf, env) && KindOf(leaf) == kind
    case AllOf(criteria) =>
      path != [] && path[0] < |criteria| && Blocks(criteria[path[0]], env, path[1..], kind)
    case AnyOf(criteria) =>
      !Holds(node, env)
      && path != [] && path[0] < |criteria| && Blocks(criteria[path[0]], env, path[1..], kind)
  }

  lemma {:induction false} InBlockingOf(parts: seq<NodeEval>, kind: LeafType)
    ensures kind in BlockingOf(parts) <==> exists i :: 0 <= i < |parts| && kind in parts[i].blocking
  {
    if parts != [] {
      InBlockingOf(parts[1..], kind);
      if i :| 0 <= i < |parts| && kind in parts[i].blocking {
        if i > 0 { assert parts[1..][i - 1] == parts[i]; }
      }
    }
  }

  lemma {:induction false} PathBlocks(node: Criterion, env: Env, path: seq<nat>, kind: LeafType)
    requires ValidEnv(env) && Blocks(node, env, path, kind)
    ensures kind in Evaluate(node, env).blocking
    decreases node
  {
    hide Met, EvaluateLeaf;
    SatisfiedIsHolds(node, env);
    if node.Single? {
      EvaluationSays(node.leaf, node.enforcement, env);
    } else {
      PathBlocks(node.criteria[path[0]], env, path[1..], kind);
      var parts := EvaluateAll(node.criteria, env);
      InBlockingOf(parts, kind);
      assert kind in parts[path[0]].blocking;
    }
  }

  lemma {:induction false} BlockingHasPath(node: Criterion, env: Env, kind: LeafType) returns (path: seq<nat>)
    requires ValidEnv(env) && kind in Evaluate(node, env).blocking
    ensures Blocks(node, env, path, kind)
    decreases node
  {
    hide Met, EvaluateLeaf;
    SatisfiedIsHolds(node, env);
    if node.Single? {
      EvaluationSays(node.leaf, node.enforcement, env);
      path := [];
    } else {
      var parts := EvaluateAll(node.criteria, env);
      InBlockingOf(parts, kind);
      var i :| 0 <= i < |parts| && kind in parts[i].blocking;
      var rest := BlockingHasPath(node.criteria[i], env, kind);
      path := [i] + rest;
      assert path[1..] == rest;
    }
  }

  ghost predicate HasBlockingLeaf(node: Criterion, env: Env, kind: LeafType)
    requires ValidEnv(env)
  {
    exists path: seq<nat> :: Blocks(node, env, path, kind)
  }

  /** A kind of criterion blocks exactly when some required leaf of it is unmet and no anyOf above that
      leaf is satisfied. */
  lemma BlockingExactly(node: Criterion, env: Env, kind: LeafType)
    requires ValidEnv(env)
    ensures kind in Evaluate(node, env).blocking <==> HasBlockingLeaf(node, env, kind)
  {
    if kind in Evaluate(node, env).blocking {
      var path := BlockingHasPath(node, env, kind);
    }
    if HasBlockingLeaf(node, env, kind) {
      var path: seq<nat> :| Blocks(node, env, path, kind);
      PathBlocks(node, env, path, kind);
    }
  }

  /** A tree that holds blocks nothing. */
  lemma {:induction false} SatisfiedDoesNotBlock(node: Criterion, env: Env, path: seq<nat>, kind: LeafType)
    requires ValidEnv(env) && Holds(node, env)
    ensures !Blocks(node, env, path, kind)
    decreases node
  {
    hide Met;
    if node.AllOf? && path != [] && path[0] < |node.criteria| {
      SatisfiedDoesNotBlock(node.criteria[path[0]], env, path[1..], kind);
    }
  }

  // ---- A better record ----

  /** The same student on the same step, with at least as much of everything, on the same day or later. */
  predicate Improves(a: Env, b: Env) {
    && b.ladder == a.ladder && b.target == a.target
    && !Before(b.today, a.today)
    && b.student.track == a.student.track && b.student.currentStep == a.student.currentStep
    && b.student.entered == a.student.entered && b.student.born == a.student.born
    && a.student.classesSince <= b.student.classesSince && a.student.classesTotal <= b.student.classesTotal
    && a.student.items <= b.student.items
    && a.student.gradings <= b.student.gradings && a.student.signOffs <= b.student.signOffs
  }

  predicate Better(x: Evaluation, y: Evaluation) {
    && y.kind == x.kind && y.enforcement == x.enforcement && y.target == x.target
    && x.current <= y.current && (x.satisfied ==> y.satisfied)
  }

  predicate AllBetter(xs: seq<Evaluation>, ys: seq<Evaluation>) {
    |xs| == |ys| && forall i :: 0 <= i < |xs| ==> Better(xs[i], ys[i])
  }

  predicate BetterNode(x: NodeEval, y: NodeEval) {
    && (x.satisfied ==> y.satisfied)
    && (forall k :: k in y.blocking ==> k in x.blocking)
    && AllBetter(x.evaluations, y.evaluations)
  }

  lemma {:induction false} CountGrows(ids: seq<string>, a: set<string>, b: set<string>)
    requires a <= b
    ensures CountIn(ids, a) <= CountIn(ids, b)
  {
    if ids != [] { CountGrows(ids[..|ids| - 1], a, b); }
  }

  lemma YearsGrow(born: Date, a: Date, b: Date)
    requires !Before(b, a)
    ensures YearsBetween(born, a) <= YearsBetween(born, b)
  {
  }

  lemma LeafBetter(leaf: Leaf, enforcement: Enforcement, a: Env, b: Env)
    requires ValidEnv(a) && ValidEnv(b) && Improves(a, b)
    ensures Better(EvaluateLeaf(leaf, enforcement, a), EvaluateLeaf(leaf, enforcement, b))
  {
    match leaf
    case TimeAtStep(months, days) =>
      var threshold := Threshold(a.student.entered, months, days);
      DayNumberOrders(a.today, b.today);
      DayNumberOrders(b.today, a.today);
      DayNumberOrders(a.today, threshold);
      DayNumberOrders(b.today, threshold);
    case Age(_) => if a.student.born.Some? { YearsGrow(a.student.born.value, a.today, b.today); }
    case CurriculumItems(itemIds) => CountGrows(itemIds, a.student.items, b.student.items);
    case _ =>
  }

  lemma {:induction false} ListsBetter(xs: seq<NodeEval>, ys: seq<NodeEval>)
    requires |xs| == |ys| && forall i :: 0 <= i < |xs| ==> BetterNode(xs[i], ys[i])
    ensures forall k :: k in BlockingOf(ys) ==> k in BlockingOf(xs)
    ensures AllBetter(EvaluationsOf(xs), EvaluationsOf(ys))
  {
    if xs != [] {
      assert forall i :: 0 <= i < |xs[1..]| ==> xs[1..][i] == xs[i + 1] && ys[1..][i] == ys[i + 1];
      ListsBetter(xs[1..], ys[1..]);
      assert BetterNode(xs[0], ys[0]);
    }
  }

  lemma {:induction false} NodeBetter(node: Criterion, a: Env, b: Env)
    requires ValidEnv(a) && ValidEnv(b) && Improves(a, b)
    ensures BetterNode(Evaluate(node, a), Evaluate(node, b))
    decreases node
  {
    if node.Single? {
      LeafBetter(node.leaf, node.enforcement, a, b);
    } else {
      var xs, ys := EvaluateAll(node.criteria, a), EvaluateAll(node.criteria, b);
      forall i | 0 <= i < |xs| ensures BetterNode(xs[i], ys[i]) {
        NodeBetter(node.criteria[i], a, b);
      }
      ListsBetter(xs, ys);
    }
  }

  // ---- Status ----

  lemma FractionGrows(a: int, b: int, target: int)
    requires a <= b
    ensures Fraction(a, target) <= Fraction(b, target)
  {
    if target > 0 { DivideGrows(a as real, b as real, target as real); }
  }

  lemma DivideGrows(a: real, b: real, t: real)
    requires a <= b && t > 0.0
    ensures a / t <= b / t
  {
    var x, y := a / t, b / t;
    assert x * t == a && y * t == b;
    assert x > y ==> (x - y) * t > 0.0;
  }

  predicate AtLeast(evs: seq<Evaluation>, f: real) {
    forall i :: 0 <= i < |evs| ==> f <= Fraction(evs[i].current, evs[i].target)
  }

  lemma {:induction false} MinIsLeast(evs: seq<Evaluation>, f: real)
    requires f <= 1.0
    ensures f <= MinFraction(evs) <==> AtLeast(evs, f)
  {
    if evs != [] {
      MinIsLeast(evs[1..], f);
      assert AtLeast(evs, f) <==> f <= Fraction(evs[0].current, evs[0].target) && AtLeast(evs[1..], f) by {
        assert evs == [evs[0]] + evs[1..];
      }
    }
  }

  lemma {:induction false} BlockingEvaluationsAre(evs: seq<Evaluation>, unmet: seq<LeafType>)
    ensures forall e :: e in BlockingEvaluations(evs, unmet) <==> e in evs && IsBlocking(e, unmet)
  {
    if evs != [] { BlockingEvaluationsAre(evs[1..], unmet); }
  }

  /** Close means: every unmet required criterion of a blocking kind is at least half way there. */
  predicate HalfWay(evs: seq<Evaluation>, unmet: seq<LeafType>) {
    forall i :: 0 <= i < |evs| && IsBlocking(evs[i], unmet) ==> 0.5 <= Fraction(evs[i].current, evs[i].target)
  }

  lemma StatusMeans(node: NodeEval)
    requires forall k :: k in node.blocking ==> exists i :: 0 <= i < |node.evaluations| && node.evaluations[i].kind == k && IsBlocking(node.evaluations[i], node.blocking)
    ensures StatusOf(node) == Ready <==> node.blocking == []
    ensures StatusOf(node) == Close <==> node.blocking != [] && HalfWay(node.evaluations, node.blocking)
  {
    var unmet := Dedupe(node.blocking);
    if node.blocking != [] {
      assert node.blocking[0] in unmet;
      var blocking := BlockingEvaluations(node.evaluations, unmet);
      BlockingEvaluationsAre(node.evaluations, unmet);
      var i :| 0 <= i < |node.evaluations| && node.evaluations[i].kind == node.blocking[0] && IsBlocking(node.evaluations[i], node.blocking);
      assert node.evaluations[i] in blocking;
      MinIsLeast(blocking, 0.5);
      assert AtLeast(blocking, 0.5) <==> HalfWay(node.evaluations, node.blocking) by {
        HalfWayIsAtLeast(node.evaluations, node.blocking, unmet);
      }
    }
  }

  lemma HalfWayIsAtLeast(evs: seq<Evaluation>, blocking: seq<LeafType>, unmet: seq<LeafType>)
    requires forall k :: k in unmet <==> k in blocking
    ensures AtLeast(BlockingEvaluations(evs, unmet), 0.5) <==> HalfWay(evs, blocking)
  {
    var picked := BlockingEvaluations(evs, unmet);
    BlockingEvaluationsAre(evs, unmet);
    if AtLeast(picked, 0.5) {
      forall i | 0 <= i < |evs| && IsBlocking(evs[i], blocking) ensures 0.5 <= Fraction(evs[i].current, evs[i].target) {
        assert evs[i] in picked;
        var j :| 0 <= j < |picked| && picked[j] == evs[i];
      }
    }
    if HalfWay(evs, blocking) {
      forall j | 0 <= j < |picked| ensures 0.5 <= Fraction(picked[j].current, picked[j].target) {
        assert picked[j] in picked;
        var i :| 0 <= i < |evs| && evs[i] == picked[j];
      }
    }
  }

  /** Every blocking kind comes from an unmet required evaluation of the tree. */
  predicate Grounded(evs: seq<Evaluation>, kind: LeafType) {
    exists i :: 0 <= i < |evs| && evs[i].kind == kind && !evs[i].satisfied && evs[i].enforcement == Required
  }

  lemma {:induction false} GroundedIn(parts: seq<NodeEval>, i: nat, kind: LeafType)
    requires i < |parts| && Grounded(parts[i].evaluations, kind)
    ensures Grounded(EvaluationsOf(parts), kind)
  {
    if i == 0 {
      var k :| 0 <= k < |parts[0].evaluations| && parts[0].evaluations[k].kind == kind
               && !parts[0].evaluations[k].satisfied && parts[0].evaluations[k].enforcement == Required;
      assert EvaluationsOf(parts)[k] == parts[0].evaluations[k];
    } else {
      GroundedIn(parts[1..], i - 1, kind);
      var rest := EvaluationsOf(parts[1..]);
      var k :| 0 <= k < |rest| && rest[k].kind == kind && !rest[k].satisfied && rest[k].enforcement == Required;
      assert EvaluationsOf(parts)[|parts[0].evaluations| + k] == rest[k];
    }
  }

  lemma {:induction false} BlockingGrounded(node: Criterion, env: Env, kind: LeafType)
    requires ValidEnv(env) && kind in Evaluate(node, env).blocking
    ensures Grounded(Evaluate(node, env).evaluations, kind)
    decreases node
  {
    if node.Single? {
      assert Evaluate(node, env).evaluations[0].kind == kind;
    } else {
      var parts := EvaluateAll(node.criteria, env);
      InBlockingOf(parts, kind);
      var i :| 0 <= i < |parts| && kind in parts[i].blocking;
      BlockingGrounded(node.criteria[i], env, kind);
      GroundedIn(parts, i, kind);
    }
  }

  /** Every required criterion of a blocking kind that is not met is at least half way there. */
  predicate AllHalfMet(tests: seq<Test>, env: Env, blocking: seq<LeafType>)
    requires ValidEnv(env)
  {
    forall i :: 0 <= i < |tests| && tests[i].enforcement == Required && !Met(tests[i].leaf, env) && KindOf(tests[i].leaf) in blocking ==>
      HalfMet(tests[i].leaf, env)
  }

  lemma HalfWayIsHalfMet(evs: seq<Evaluation>, tests: seq<Test>, env: Env, blocking: seq<LeafType>)
    requires ValidEnv(env) && SaysAll(evs, tests, env)
    ensures HalfWay(evs, blocking) <==> AllHalfMet(tests, env, blocking)
  {
    hide Met, HalfMet, Fraction;
    forall i | 0 <= i < |evs| ensures Says(evs[i], tests[i].leaf, tests[i].enforcement, env) {
    }
  }

  lemma StatusFromEvaluations(node: Criterion, env: Env)
    requires ValidEnv(env)
    ensures var e := Evaluate(node, env);
            && (StatusOf(e) == Ready <==> e.blocking == [])
            && (StatusOf(e) == Close <==> e.blocking != [] && HalfWay(e.evaluations, e.blocking))
  {
    var e := Evaluate(node, env);
    hide Evaluate, StatusOf;
    forall k | k in e.blocking
      ensures exists i :: 0 <= i < |e.evaluations| && e.evaluations[i].kind == k && IsBlocking(e.evaluations[i], e.blocking)
    {
      BlockingGrounded(node, env, k);
      var i :| 0 <= i < |e.evaluations| && e.evaluations[i].kind == k && !e.evaluations[i].satisfied && e.evaluations[i].enforcement == Required;
      assert IsBlocking(e.evaluations[i], e.blocking);
    }
    StatusMeans(e);
  }

  /** A required criterion that is not met, of a kind that blocks. */
  ghost predicate BlockingTest(node: Criterion, env: Env, t: Test)
    requires ValidEnv(env)
  {
    t.enforcement == Required && !Met(t.leaf, env) && HasBlockingLeaf(node, env, KindOf(t.leaf))
  }

  /** Some criterion blocks, and of the kinds that block everything required and not met is half met. */
  ghost predicate HalfReady(node: Criterion, env: Env)
    requires ValidEnv(env)
  {
    && (exists kind :: HasBlockingLeaf(node, env, kind))
    && var tests := Tests(node);
       forall i :: 0 <= i < |tests| && BlockingTest(node, env, tests[i]) ==> HalfMet(tests[i].leaf, env)
  }

  /** The three buckets of a step, in terms of the record. */
  lemma StepStatusMeans(node: Criterion, env: Env)
    requires ValidEnv(env)
    ensures var e := Evaluate(node, env);
            && (StatusOf(e) == Ready <==> forall kind :: !HasBlockingLeaf(node, env, kind))
            && (StatusOf(e) == Close <==> HalfReady(node, env))
  {
    hide Evaluate, StatusOf, Met, HalfMet, HasBlockingLeaf, HalfWay;
    var e := Evaluate(node, env);
    StatusFromEvaluations(node, env);
    forall kind ensures kind in e.blocking <==> HasBlockingLeaf(node, env, kind) { BlockingExactly(node, env, kind); }
    assert e.blocking != [] ==> e.blocking[0] in e.blocking;
    EvaluationsSayAll(node, env);
    HalfWayIsHalfMet(e.evaluations, Tests(node), env, e.blocking);
  }

  /** Monotonicity, for every criterion tree: a better record only shrinks what blocks, and the status
      never drops. */
  lemma EligibilityIsMonotone(node: Criterion, a: Env, b: Env)
    requires ValidEnv(a) && ValidEnv(b) && Improves(a, b)
    ensures forall k :: k in Evaluate(node, b).blocking ==> k in Evaluate(node, a).blocking
    ensures StatusRank(StatusOf(Evaluate(node, a))) <= StatusRank(StatusOf(Evaluate(node, b)))
  {
    NodeBetter(node, a, b);
    StatusFromEvaluations(node, a);
    StatusFromEvaluations(node, b);
    var x, y := Evaluate(node, a), Evaluate(node, b);
    if y.blocking != [] {
      assert y.blocking[0] in x.blocking;
      if HalfWay(x.evaluations, x.blocking) {
        forall i | 0 <= i < |y.evaluations| && IsBlocking(y.evaluations[i], y.blocking)
          ensures 0.5 <= Fraction(y.evaluations[i].current, y.evaluations[i].target)
        {
          assert Better(x.evaluations[i], y.evaluations[i]);
          assert IsBlocking(x.evaluations[i], x.blocking);
          FractionGrows(x.evaluations[i].current, y.evaluations[i].current, x.evaluations[i].target);
        }
      }
    }
  }

  // ---- Promotion ----

  lemma {:induction false} FoundStep(ladder: seq<LadderStep>, id: string)
    ensures FindStep(ladder, id).Some? <==> exists i :: 0 <= i < |ladder| && ladder[i].id == id
    ensures FindStep(ladder, id).Some? ==> FindStep(ladder, id).value in ladder && FindStep(ladder, id).value.id == id
  {
    if ladder != [] {
      FoundStep(ladder[1..], id);
      if i :| 0 <= i < |ladder| && ladder[i].id == id {
        if i > 0 { assert ladder[1..][i - 1] == ladder[i]; }
      }
    }
  }

  /** The first step of the ladder with this id. */
  predicate IsFirst(ladder: seq<LadderStep>, id: string, i: nat) {
    i < |ladder| && ladder[i].id == id && forall j :: 0 <= j < i ==> ladder[j].id != id
  }

  lemma {:induction false} FoundFirst(ladder: seq<LadderStep>, id: string, i: nat)
    requires IsFirst(ladder, id, i)
    ensures FindStep(ladder, id) == Some(ladder[i])
  {
    if i > 0 { FoundFirst(ladder[1..], id, i - 1); }
  }

  /** The kinds listed are, each once, those of which a required criterion blocks. */
  ghost predicate ListsBlocking(kinds: seq<LeafType>, node: Criterion, env: Env)
    requires ValidEnv(env)
  {
    && (forall kind :: kind in kinds <==> HasBlockingLeaf(node, env, kind))
    && (forall i, j :: 0 <= i < j < |kinds| ==> kinds[i] != kinds[j])
  }

  /** The kinds listed are, each once, those of the advisory criteria that are not met. */
  ghost predicate ListsAdvisory(kinds: seq<LeafType>, node: Criterion, env: Env)
    requires ValidEnv(env)
  {
    && (forall kind :: kind in kinds <==> HasUnmetAdvice(Tests(node), env, kind))
    && (forall i, j :: 0 <= i < j < |kinds| ==> kinds[i] != kinds[j])
  }

  predicate HasUnmetAdvice(tests: seq<Test>, env: Env, kind: LeafType)
    requires ValidEnv(env)
  {
    exists i :: 0 <= i < |tests| && tests[i].enforcement == Advisory && !Met(tests[i].leaf, env) && KindOf(tests[i].leaf) == kind
  }

  /** The outcome for a step, in terms of the record. */
  ghost predicate StepResult(e: StepEligibility, step: LadderStep, env: Env)
    requires ValidEnv(env)
  {
    && e.stepId == step.id
    && SaysAll(e.criteria, Tests(step.criteria), env)
    && ListsBlocking(e.unmetRequired, step.criteria, env)
    && ListsAdvisory(e.unmetAdvisory, step.criteria, env)
    && (e.status == Ready <==> forall kind :: !HasBlockingLeaf(step.criteria, env, kind))
    && (e.status == Close <==> HalfReady(step.criteria, env))
  }

  lemma {:induction false} AdvisoryExactly(evs: seq<Evaluation>, tests: seq<Test>, env: Env, kind: LeafType)
    requires ValidEnv(env) && SaysAll(evs, tests, env)
    ensures kind in AdvisoryUnmet(evs) <==> HasUnmetAdvice(tests, env, kind)
  {
    hide Met, HalfMet, Fraction;
    if evs != [] {
      AdvisoryExactly(evs[1..], tests[1..], env, kind);
      assert Says(evs[0], tests[0].leaf, tests[0].enforcement, env);
      assert tests == [tests[0]] + tests[1..];
      if HasUnmetAdvice(tests[1..], env, kind) {
        var i :| 0 <= i < |tests[1..]| && tests[1..][i].enforcement == Advisory && !Met(tests[1..][i].leaf, env) && KindOf(tests[1..][i].leaf) == kind;
        assert tests[i + 1] == tests[1..][i];
      }
      if HasUnmetAdvice(tests, env, kind) {
        var i :| 0 <= i < |tests| && tests[i].enforcement == Advisory && !Met(tests[i].leaf, env) && KindOf(tests[i].leaf) == kind;
        if i > 0 { assert tests[1..][i - 1] == tests[i]; }
      }
    }
  }

  /** What evaluating a step yields, for every record and every tree. */
  lemma EvaluateStepExactly(ladder: seq<LadderStep>, step: LadderStep, student: Student, today: Date)
    requires ValidEnv(Env(student, today, ladder, step.id))
    ensures StepResult(EvaluateStep(ladder, step, student, today), step, Env(student, today, ladder, step.id))
  {
    hide Evaluate, StatusOf, Met, HalfMet, HasBlockingLeaf, HalfReady, SaysAll, HasUnmetAdvice;
    var env := Env(student, today, ladder, step.id);
    var node := Evaluate(step.criteria, env);
    EvaluationsSayAll(step.criteria, env);
    StepStatusMeans(step.criteria, env);
    forall kind ensures kind in node.blocking <==> HasBlockingLeaf(step.criteria, env, kind) { BlockingExactly(step.criteria, env, kind); }
    forall kind ensures kind in AdvisoryUnmet(node.evaluations) <==> HasUnmetAdvice(Tests(step.criteria), env, kind) {
      AdvisoryExactly(node.evaluations, Tests(step.criteria), env, kind);
    }
  }

  /** The step that follows the student's on its track: the first, or the one after the current one. */
  predicate Follows(steps: seq<LadderStep>, current: Option<string>, i: nat) {
    i < |steps| && if current.None? then i == 0 else i > 0 && IsFirst(steps, current.value, i - 1)
  }

  /** The evaluation of a student: of the step that follows, when there is one. */
  lemma EligibilityExactly(ladder: seq<LadderStep>, student: Student, today: Date)
    requires ValidEnv(Env(student, today, ladder, ""))
    ensures var r, steps := EvaluateEligibility(ladder, student, today), StepsInTrack(ladder, student.track);
            && (r.None? <==> forall i :: 0 <= i < |steps| ==> !Follows(steps, student.currentStep, i))
            && (forall i :: 0 <= i < |steps| && Follows(steps, student.currentStep, i) ==>
                  r.Some? && StepResult(r.value, steps[i], Env(student, today, ladder, steps[i].id)))
  {
    hide StepResult, EvaluateStep, StepsInTrack;
    var steps := StepsInTrack(ladder, student.track);
    forall i: nat | Follows(steps, student.currentStep, i)
      ensures EvaluateEligibility(ladder, student, today) == Some(EvaluateStep(ladder, steps[i], student, today))
      ensures StepResult(EvaluateStep(ladder, steps[i], student, today), steps[i], Env(student, today, ladder, steps[i].id))
    {
      EvaluateStepExactly(ladder, steps[i], student, today);
    }
    if EvaluateEligibility(ladder, student, today).Some? {
      var i := if student.currentStep.None? then 0 else FindIndex(steps, student.currentStep.value).value + 1;
      assert Follows(steps, student.currentStep, i);
    }
  }

  /** A promotion is refused exactly when the step is unknown, or a required criterion blocks and no human
      gave a reason, and then the kinds that block are listed; a granted one records the student's step, the
      award, the day, and for every criterion whether the record met it. */
  lemma PromotionRefusedExactly(ladder: seq<LadderStep>, student: Student, award: Award, today: Date)
    requires ValidEnv(Env(student, today, ladder, award.toStep))
    ensures var r, env := Promote(ladder, student, award, today), Env(student, today, ladder, award.toStep);
            && (r == Err(UnknownStep) <==> forall i :: 0 <= i < |ladder| ==> ladder[i].id != award.toStep)
            && (forall i :: 0 <= i < |ladder| && IsFirst(ladder, award.toStep, i) ==>
                  Decided(r, ladder[i].criteria, env, award))
  {
    hide StepResult, EvaluateStep, Decided;
    FoundStep(ladder, award.toStep);
    forall i: nat | IsFirst(ladder, award.toStep, i)
      ensures Decided(Promote(ladder, student, award, today), ladder[i].criteria, Env(student, today, ladder, award.toStep), award)
    {
      FoundFirst(ladder, award.toStep, i);
      PromotionDecided(ladder, ladder[i], student, award, today);
    }
  }

  ghost predicate Decided(r: Result<LogEntry, PromoteError>, criteria: Criterion, env: Env, award: Award)
    requires ValidEnv(env)
  {
    && (r.Err? <==> award.overrideReason.None? && exists kind :: HasBlockingLeaf(criteria, env, kind))
    && (r.Err? ==> r.error.RequiredCriteriaUnmet? && ListsBlocking(r.error.unmet, criteria, env))
    && (r.Ok? ==>
          && r.value == LogEntry(env.student.currentStep, award.toStep, env.today, award.byRole, award.user, r.value.snapshot, award.overrideReason)
          && SaysAll(r.value.snapshot, Tests(criteria), env))
  }

  lemma PromotionDecided(ladder: seq<LadderStep>, step: LadderStep, student: Student, award: Award, today: Date)
    requires ValidEnv(Env(student, today, ladder, award.toStep)) && step.id == award.toStep && FindStep(ladder, award.toStep) == Some(step)
    ensures Decided(Promote(ladder, student, award, today), step.criteria, Env(student, today, ladder, award.toStep), award)
  {
    hide EvaluateStep, HasBlockingLeaf, HalfReady, SaysAll, ListsAdvisory;
    EvaluateStepExactly(ladder, step, student, today);
    var elig := EvaluateStep(ladder, step, student, today);
    assert elig.unmetRequired != [] ==> elig.unmetRequired[0] in elig.unmetRequired;
  }
}
