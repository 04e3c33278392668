/** The ladder of one track: its steps in order, the next step, and the walk from the entry to the top. */
module RankLadder {
  import opened Outcomes
  import opened Calendar
  import opened RankEngine

  function OnTrack(ladder: seq<LadderStep>, track: string): seq<LadderStep> {
    if ladder == [] then []
    else OnTrack(ladder[..|ladder| - 1], track) + (if ladder[|ladder| - 1].track == track then [ladder[|ladder| - 1]] else [])
  }

  /** Insert after every step of the same or a lower order. */
  function Insert(steps: seq<LadderStep>, s: LadderStep): seq<LadderStep> {
    if steps == [] || steps[|steps| - 1].order <= s.order then steps + [s]
    else Insert(steps[..|steps| - 1], s) + [steps[|steps| - 1]]
  }

  /** A stable sort by order. */
  function SortByOrder(steps: seq<LadderStep>): seq<LadderStep> {
    if steps == [] then [] else Insert(SortByOrder(steps[..|steps| - 1]), steps[|steps| - 1])
  }

  function StepsInTrack(ladder: seq<LadderStep>, track: string): seq<LadderStep> {
    SortByOrder(OnTrack(ladder, track))
  }

  predicate Sorted(steps: seq<LadderStep>) {
    forall i, j :: 0 <= i < j < |steps| ==> steps[i].order <= steps[j].order
  }

  predicate DistinctOrders(steps: seq<LadderStep>) {
    forall i, j :: 0 <= i < j < |steps| ==> steps[i].order != steps[j].order
  }

  predicate DistinctIds(steps: seq<LadderStep>) {
    forall i, j :: 0 <= i < j < |steps| ==> steps[i].id != steps[j].id
  }

  lemma {:induction false} InsertAdds(steps: seq<LadderStep>, s: LadderStep)
    ensures multiset(Insert(steps, s)) == multiset(steps) + multiset{s}
  {
    if steps != [] && steps[|steps| - 1].order > s.order {
      InsertAdds(steps[..|steps| - 1], s);
      assert steps == steps[..|steps| - 1] + [steps[|steps| - 1]];
    }
  }

  predicate Below(steps: seq<LadderStep>, order: int) {
    forall i :: 0 <= i < |steps| ==> steps[i].order <= order
  }

  lemma SortedAppend(steps: seq<LadderStep>, last: LadderStep)
    requires Sorted(steps) && Below(steps, last.order)
    ensures Sorted(steps + [last])
  {
  }

  lemma {:induction false} InsertBelow(steps: seq<LadderStep>, s: LadderStep, order: int)
    requires Below(steps, order) && s.order <= order
    ensures Below(Insert(steps, s), order)
  {
    if steps != [] && steps[|steps| - 1].order > s.order { InsertBelow(steps[..|steps| - 1], s, order); }
  }

  lemma {:induction false} InsertSorts(steps: seq<LadderStep>, s: LadderStep)
    requires Sorted(steps)
    ensures Sorted(Insert(steps, s))
  {
    if steps == [] || steps[|steps| - 1].order <= s.order {
      SortedAppend(steps, s);
    } else {
      var rest, last := steps[..|steps| - 1], steps[|steps| - 1];
      InsertSorts(rest, s);
      InsertBelow(rest, s, last.order);
      SortedAppend(Insert(rest, s), last);
    }
  }

  lemma {:induction false} SortSorts(steps: seq<LadderStep>)
    ensures Sorted(SortByOrder(steps)) && multiset(SortByOrder(steps)) == multiset(steps)
  {
    if steps != [] {
      SortSorts(steps[..|steps| - 1]);
      InsertSorts(SortByOrder(steps[..|steps| - 1]), steps[|steps| - 1]);
      InsertAdds(SortByOrder(steps[..|steps| - 1]), steps[|steps| - 1]);
      assert steps == steps[..|steps| - 1] + [steps[|steps| - 1]];
    }
  }

  lemma {:induction false} OnTrackIs(ladder: seq<LadderStep>, track: string)
    ensures forall s :: multiset(OnTrack(ladder, track))[s] == if s.track == track then multiset(ladder)[s] else 0
  {
    if ladder != [] {
      OnTrackIs(ladder[..|ladder| - 1], track);
      assert ladder == ladder[..|ladder| - 1] + [ladder[|ladder| - 1]];
    }
  }

  /** The steps of a track are the ladder's steps of that track, each as often, in order. */
  lemma TrackIsSorted(ladder: seq<LadderStep>, track: string)
    ensures Sorted(StepsInTrack(ladder, track))
    ensures forall s :: multiset(StepsInTrack(ladder, track))[s] == if s.track == track then multiset(ladder)[s] else 0
  {
    SortSorts(OnTrack(ladder, track));
    OnTrackIs(ladder, track);
  }

  // ---- The next step, and the walk ----

  function FindIndex(steps: seq<LadderStep>, id: string): (r: Option<nat>)
    ensures r.Some? ==> r.value < |steps| && steps[r.value].id == id && forall j :: 0 <= j < r.value ==> steps[j].id != id
    ensures r.None? ==> forall j :: 0 <= j < |steps| ==> steps[j].id != id
  {
    if steps == [] then None
    else
      match FindIndex(steps[..|steps| - 1], id)
      case Some(i) => Some(i)
      case None => if steps[|steps| - 1].id == id then Some(|steps| - 1) else None
  }

  function At(steps: seq<LadderStep>, i: nat): Option<LadderStep> {
    if i < |steps| then Some(steps[i]) else None
  }

  function NextStepFor(steps: seq<LadderStep>, current: Option<string>): Option<LadderStep> {
    match current
    case None => At(steps, 0)
    case Some(id) =>
      match FindIndex(steps, id)
      case None => None
      case Some(i) => At(steps, i + 1)
  }

  /** The immediate next step of the student's track, evaluated. */
  function EvaluateEligibility(ladder: seq<LadderStep>, student: Student, today: Date): Option<StepEligibility>
    requires ValidEnv(Env(student, today, ladder, ""))
  {
    match NextStepFor(StepsInTrack(ladder, student.track), student.currentStep)
    case None => None
    case Some(step) => Some(EvaluateStep(ladder, step, student, today))
  }

  /** The n-th step a student reaches who takes the next step again and again; None once there is none. */
  function Walk(steps: seq<LadderStep>, n: nat): Option<LadderStep> {
    if n == 0 then NextStepFor(steps, None)
    else
      match Walk(steps, n - 1)
      case None => None
      case Some(s) => NextStepFor(steps, Some(s.id))
  }

  /** The walk visits the steps one by one, each once, and stops. */
  ghost predicate WalksThrough(steps: seq<LadderStep>) {
    forall n: nat :: Walk(steps, n) == At(steps, n)
  }

  lemma {:induction false} DistinctWalk(steps: seq<LadderStep>, n: nat)
    requires DistinctIds(steps)
    ensures Walk(steps, n) == At(steps, n)
  {
    if n > 0 { DistinctWalk(steps, n - 1); }
  }

  lemma FoundAt(steps: seq<LadderStep>, k: nat)
    requires k < |steps| && forall a :: 0 <= a < k ==> steps[a].id != steps[k].id
    ensures FindIndex(steps, steps[k].id) == Some(k)
  {
    var r := FindIndex(steps, steps[k].id);
    hide FindIndex;
    assert r.Some?;
  }

  predicate DistinctBefore(steps: seq<LadderStep>, n: nat)
    requires n <= |steps|
  {
    forall a, b :: 0 <= a < b < n ==> steps[a].id != steps[b].id
  }

  lemma FoundFirst(steps: seq<LadderStep>, i: nat, j: nat, m: nat)
    requires i < j < |steps| && steps[i].id == steps[j].id && DistinctBefore(steps, j) && m <= j
    ensures FindIndex(steps, steps[m].id) == Some(if m < j then m else i)
  {
    hide FindIndex;
    FoundAt(steps, if m < j then m else i);
  }

  /** Up to the first step j whose id occurred before, at i, the walk is as it should be; from there on it
      stays among the steps up to j. */
  lemma {:induction false} WalkIsTrapped(steps: seq<LadderStep>, i: nat, j: nat, n: nat) returns (k: nat)
    requires i < j < |steps| && steps[i].id == steps[j].id && DistinctBefore(steps, j)
    ensures k <= j && Walk(steps, n) == Some(steps[k])
  {
    hide FindIndex, DistinctBefore;
    if n == 0 {
      k := 0;
    } else {
      var m := WalkIsTrapped(steps, i, j, n - 1);
      FoundFirst(steps, i, j, m);
      k := if m < j then m + 1 else i + 1;
    }
  }

  lemma {:induction false} FirstRepeat(steps: seq<LadderStep>, n: nat) returns (i: nat, j: nat)
    requires n <= |steps| && !DistinctBefore(steps, n)
    ensures i < j < |steps| && steps[i].id == steps[j].id && DistinctBefore(steps, j)
    decreases n
  {
    if DistinctBefore(steps, n - 1) {
      var a, b :| 0 <= a < b < n && steps[a].id == steps[b].id;
      i, j := a, n - 1;
    } else {
      i, j := FirstRepeat(steps, n - 1);
    }
  }

  /** Two steps with one id make the walk go round forever. */
  lemma RepeatedIdNeverStops(steps: seq<LadderStep>, n: nat)
    requires !DistinctIds(steps)
    ensures Walk(steps, n).Some?
  {
    var i, j := FirstRepeat(steps, |steps|);
    var k := WalkIsTrapped(steps, i, j, n);
  }

  /** The walk visits each step once, in order, and stops exactly when the ids are distinct, which the
      validator does not check. */
  lemma WalksThroughExactlyWhen(steps: seq<LadderStep>)
    ensures WalksThrough(steps) <==> DistinctIds(steps)
  {
    if DistinctIds(steps) {
      forall n: nat ensures Walk(steps, n) == At(steps, n) { DistinctWalk(steps, n); }
    } else {
      RepeatedIdNeverStops(steps, |steps|);
      assert At(steps, |steps|).None?;
    }
  }
}
