/** What a ladder without structural issues guarantees to the evaluator, and what it does not. */
module RankGuarantees {
  import opened Outcomes
  import opened RankEngine
  import opened RankLadder
  import opened RankConfig

  ghost predicate Clean(d: Draft) {
    forall code :: !Violates(d, code)
  }

  // ---- The steps of a track are strictly ordered ----

  predicate StrictlySorted(steps: seq<LadderStep>) {
    forall i, j :: 0 <= i < j < |steps| ==> steps[i].order < steps[j].order
  }

  predicate FreshOrder(steps: seq<LadderStep>, order: int) {
    forall i :: 0 <= i < |steps| ==> steps[i].order != order
  }

  lemma StrictAppend(steps: seq<LadderStep>, last: LadderStep)
    requires StrictlySorted(steps) && Below(steps, last.order) && FreshOrder(steps, last.order)
    ensures StrictlySorted(steps + [last])
  {
  }

  lemma StrictBelowLast(steps: seq<LadderStep>)
    requires StrictlySorted(steps) && steps != []
    ensures Below(steps, steps[|steps| - 1].order) && Below(steps[..|steps| - 1], steps[|steps| - 1].order)
    ensures FreshOrder(steps[..|steps| - 1], steps[|steps| - 1].order)
  {
  }

  lemma {:induction false} InsertFresh(steps: seq<LadderStep>, s: LadderStep, order: int)
    requires FreshOrder(steps, order) && s.order != order
    ensures FreshOrder(Insert(steps, s), order)
  {
    if steps != [] && steps[|steps| - 1].order > s.order { InsertFresh(steps[..|steps| - 1], s, order); }
  }

  lemma {:induction false} InsertStrict(steps: seq<LadderStep>, s: LadderStep)
    requires StrictlySorted(steps) && FreshOrder(steps, s.order)
    ensures StrictlySorted(Insert(steps, s))
  {
    if steps != [] { StrictBelowLast(steps); }
    if steps == [] || steps[|steps| - 1].order <= s.order {
      assert Below(steps, s.order);
      StrictAppend(steps, s);
    } else {
      var rest, last := steps[..|steps| - 1], steps[|steps| - 1];
      InsertStrict(rest, s);
      InsertBelow(rest, s, last.order);
      InsertFresh(rest, s, last.order);
      StrictAppend(Insert(rest, s), last);
    }
  }

  lemma {:induction false} SortFresh(steps: seq<LadderStep>, order: int)
    requires FreshOrder(steps, order)
    ensures FreshOrder(SortByOrder(steps), order)
  {
    if steps != [] {
      SortFresh(steps[..|steps| - 1], order);
      InsertFresh(SortByOrder(steps[..|steps| - 1]), steps[|steps| - 1], order);
    }
  }

  lemma {:induction false} SortStrict(steps: seq<LadderStep>)
    requires DistinctOrders(steps)
    ensures StrictlySorted(SortByOrder(steps))
  {
    if steps != [] {
      SortStrict(steps[..|steps| - 1]);
      SortFresh(steps[..|steps| - 1], steps[|steps| - 1].order);
      InsertStrict(SortByOrder(steps[..|steps| - 1]), steps[|steps| - 1]);
    }
  }

  lemma {:induction false} OffTrack(ladder: seq<LadderStep>, track: string)
    requires forall i :: 0 <= i < |ladder| ==> ladder[i].track != track
    ensures OnTrack(ladder, track) == []
  {
    if ladder != [] { OffTrack(ladder[..|ladder| - 1], track); }
  }

  lemma CleanTrack(d: Draft, track: string)
    requires Clean(d)
    ensures StrictlySorted(StepsInTrack(d.ladder, track))
  {
    if i :| 0 <= i < |d.ladder| && d.ladder[i].track == track {
      assert !Violates(d, DupOrder);
      assert !TrackViolates(d, track, DupOrder);
    } else {
      OffTrack(d.ladder, track);
    }
    SortStrict(OnTrack(d.ladder, track));
  }

  lemma InTrack(ladder: seq<LadderStep>, track: string, s: LadderStep)
    requires s in ladder && s.track == track
    ensures s in StepsInTrack(ladder, track)
  {
    TrackIsSorted(ladder, track);
    assert multiset(ladder)[s] > 0;
    assert multiset(StepsInTrack(ladder, track))[s] > 0;
  }

  /** The walk reaches s at some point. */
  ghost predicate Reaches(steps: seq<LadderStep>, s: LadderStep) {
    exists n: nat :: Walk(steps, n) == Some(s)
  }

  /** What the walk reaches later is of a higher order. */
  ghost predicate Climbs(steps: seq<LadderStep>) {
    forall m: nat, n: nat :: m < n && Walk(steps, n).Some? ==>
      Walk(steps, m).Some? && Walk(steps, m).value.order < Walk(steps, n).value.order
  }

  lemma StrictWalkClimbs(steps: seq<LadderStep>)
    requires StrictlySorted(steps) && WalksThrough(steps)
    ensures Climbs(steps)
    ensures forall s :: s in steps ==> Reaches(steps, s)
  {
    hide Walk;
    forall m: nat, n: nat | m < n && Walk(steps, n).Some?
      ensures Walk(steps, m).Some? && Walk(steps, m).value.order < Walk(steps, n).value.order
    {
      assert Walk(steps, n) == At(steps, n) && Walk(steps, m) == At(steps, m);
    }
    forall s | s in steps ensures Reaches(steps, s) {
      var n: nat :| n < |steps| && steps[n] == s;
      assert Walk(steps, n) == At(steps, n);
    }
  }

  /** On a clean ladder whose step ids are distinct, taking the next step again and again from the entry
      visits every step of the track exactly once, in strictly increasing order, and then stops. */
  lemma CleanWalk(d: Draft, track: string)
    requires Clean(d) && DistinctIds(StepsInTrack(d.ladder, track))
    ensures WalksThrough(StepsInTrack(d.ladder, track)) && Climbs(StepsInTrack(d.ladder, track))
    ensures forall s :: s in d.ladder && s.track == track ==> Reaches(StepsInTrack(d.ladder, track), s)
  {
    hide Clean, DistinctIds, WalksThrough, Climbs, Reaches, StrictlySorted, StepsInTrack;
    var steps := StepsInTrack(d.ladder, track);
    CleanTrack(d, track);
    WalksThroughExactlyWhen(steps);
    StrictWalkClimbs(steps);
    forall s | s in d.ladder && s.track == track ensures Reaches(steps, s) {
      InTrack(d.ladder, track, s);
    }
  }

  // ---- Prerequisites and parents ----

  /** `from` names `to` as a prerequisite, on any track. */
  predicate Requires(d: Draft, from: LadderStep, to: LadderStep) {
    exists leaf :: leaf in Leaves(from.criteria) && leaf.Prerequisite? && StepById(d.ladder, leaf.stepId) == Some(to)
  }

  /** `from` names `to` as a prerequisite, or as the parent of a marker. */
  predicate Needs(d: Draft, from: LadderStep, to: LadderStep) {
    || Requires(d, from, to)
    || (from.kind == Marker && from.parent.Some? && StepById(d.ladder, from.parent.value) == Some(to))
  }

  lemma {:induction false} FoundOnLadder(ladder: seq<LadderStep>, id: string)
    ensures StepById(ladder, id).Some? ==> StepById(ladder, id).value in ladder
  {
    if ladder != [] { FoundOnLadder(ladder[..|ladder| - 1], id); }
  }

  /** Only steps of the ladder are needed. */
  lemma NeededOnLadder(d: Draft, from: LadderStep, to: LadderStep)
    requires Needs(d, from, to)
    ensures to in d.ladder
  {
    if leaf :| leaf in Leaves(from.criteria) && leaf.Prerequisite? && StepById(d.ladder, leaf.stepId) == Some(to) {
      FoundOnLadder(d.ladder, leaf.stepId);
    } else {
      FoundOnLadder(d.ladder, from.parent.value);
    }
  }

  /** On a clean ladder what a step needs is lower on its own track, or a prerequisite on another. */
  lemma LeadsDown(d: Draft, from: LadderStep, to: LadderStep)
    requires Clean(d) && from in d.ladder && Needs(d, from, to)
    ensures if to.track == from.track then to.order < from.order else Requires(d, from, to)
  {
    var i :| 0 <= i < |d.ladder| && d.ladder[i] == from;
    if from.kind == Marker && from.parent.Some? && StepById(d.ladder, from.parent.value) == Some(to) {
      assert !Violates(d, MarkerBadParent);
      assert !StepViolates(d, from, MarkerBadParent);
    } else {
      var leaf :| leaf in Leaves(from.criteria) && leaf.Prerequisite? && StepById(d.ladder, leaf.stepId) == Some(to);
      assert !Violates(d, PrereqNotEarlier);
      assert !StepViolates(d, from, PrereqNotEarlier);
      assert !LeafViolates(d, from, leaf, PrereqNotEarlier);
    }
  }

  /** Each step of the chain needs the next. */
  predicate IsChain(d: Draft, chain: seq<LadderStep>) {
    forall i :: 0 <= i < |chain| - 1 ==> Needs(d, chain[i], chain[i + 1])
  }

  /** A chain stays on the ladder. */
  lemma ChainOnLadder(d: Draft, chain: seq<LadderStep>, i: nat)
    requires IsChain(d, chain) && i < |chain| && chain[0] in d.ladder
    ensures chain[i] in d.ladder
  {
    hide Needs;
    if i > 0 { NeededOnLadder(d, chain[i - 1], chain[i]); }
  }

  lemma PartOfChain(d: Draft, chain: seq<LadderStep>, i: nat, j: nat)
    requires IsChain(d, chain) && i <= j <= |chain|
    ensures IsChain(d, chain[i..j])
  {
    hide Needs;
    var part := chain[i..j];
    forall k | 0 <= k < |part| - 1 ensures Needs(d, part[k], part[k + 1]) { assert Needs(d, chain[i + k], chain[i + k + 1]); }
  }

  /** A cycle lies on the ladder. */
  lemma CycleOnLadder(d: Draft, chain: seq<LadderStep>)
    requires IsCycle(d, chain)
    ensures chain[0] in d.ladder
  {
    hide Needs;
    NeededOnLadder(d, chain[|chain| - 2], chain[|chain| - 1]);
  }

  /** A step leads back to itself. */
  predicate IsCycle(d: Draft, chain: seq<LadderStep>) {
    |chain| > 1 && IsChain(d, chain) && chain[0] == chain[|chain| - 1]
  }

  ghost predicate CycleFree(d: Draft) {
    forall chain :: !IsCycle(d, chain)
  }

  /** The i-th link of the chain is a prerequisite on another track. */
  predicate Crosses(d: Draft, chain: seq<LadderStep>, i: nat)
    requires i < |chain| - 1
  {
    chain[i].track != chain[i + 1].track && Requires(d, chain[i], chain[i + 1])
  }

  /** `height` puts every prerequisite on another track on a lower track. */
  ghost predicate Layered(d: Draft, height: string -> int) {
    forall from, to :: from in d.ladder && Requires(d, from, to) && to.track != from.track ==> height(to.track) < height(from.track)
  }

  lemma {:induction false} ChainGoesDown(d: Draft, chain: seq<LadderStep>, height: string -> int, n: nat)
    requires Clean(d) && IsChain(d, chain) && 0 < n < |chain| && chain[0] in d.ladder
    requires forall i :: 0 <= i < n && Crosses(d, chain, i) ==> height(chain[i + 1].track) < height(chain[i].track)
    ensures var first, last := chain[0], chain[n];
            height(last.track) < height(first.track) || (height(last.track) == height(first.track) && last.order < first.order)
  {
    hide Clean, Needs, Requires;
    ChainOnLadder(d, chain, n - 1);
    LeadsDown(d, chain[n - 1], chain[n]);
    assert chain[n - 1].track != chain[n].track ==> Crosses(d, chain, n - 1);
    if n > 1 { ChainGoesDown(d, chain, height, n - 1); }
  }

  /** On a clean ladder, whatever leads back to a step passes over a prerequisite on another track. */
  lemma CyclesCrossTracks(d: Draft, chain: seq<LadderStep>)
    requires Clean(d) && IsCycle(d, chain)
    ensures exists i :: 0 <= i < |chain| - 1 && Crosses(d, chain, i)
  {
    CycleOnLadder(d, chain);
    if forall i :: 0 <= i < |chain| - 1 ==> !Crosses(d, chain, i) {
      ChainGoesDown(d, chain, (track: string) => 0, |chain| - 1);
    }
  }

  /** So a clean ladder has no cycle when its tracks can be layered so that a prerequisite on another track
      is always on a lower one; in particular when there are none. */
  lemma LayeredHasNoCycle(d: Draft, height: string -> int)
    requires Clean(d) && Layered(d, height)
    ensures CycleFree(d)
  {
    forall chain ensures !IsCycle(d, chain) {
      if IsCycle(d, chain) {
        CycleOnLadder(d, chain);
        forall i: nat | i < |chain| ensures chain[i] in d.ladder { ChainOnLadder(d, chain, i); }
        ChainGoesDown(d, chain, height, |chain| - 1);
      }
    }
  }

  /** On one track, or wherever no such prerequisite is passed, no chain comes back to a step. */
  lemma NoCycleOnTrack(d: Draft, chain: seq<LadderStep>, i: nat, j: nat)
    requires Clean(d) && IsChain(d, chain) && i < j < |chain| && chain[0] in d.ladder
    requires forall k :: i <= k < j ==> !Crosses(d, chain, k)
    ensures chain[i] != chain[j]
  {
    var part := chain[i..j + 1];
    hide Needs, Requires;
    forall k: nat | k < |part| - 1 ensures !Crosses(d, part, k) { assert !Crosses(d, chain, i + k); }
    ChainOnLadder(d, chain, i);
    PartOfChain(d, chain, i, j + 1);
    ChainGoesDown(d, part, (track: string) => 0, |part| - 1);
  }

  // ---- When there is no cycle ----

  /** The steps that can be taken off the ladder in n rounds, each round those that need no step left. */
  function Unwound(d: Draft, n: nat): set<LadderStep> {
    if n == 0 then {}
    else
      var gone := Unwound(d, n - 1);
      set s | s in d.ladder && forall to :: to in d.ladder && Needs(d, s, to) ==> to in gone
  }

  /** As many rounds as there are steps take all of them off. */
  predicate Unwinds(d: Draft) {
    forall s :: s in d.ladder ==> s in Unwound(d, |d.ladder|)
  }

  lemma {:induction false} NotOnCycle(d: Draft, chain: seq<LadderStep>, n: nat)
    requires IsCycle(d, chain)
    ensures chain[0] !in Unwound(d, n)
    decreases n
  {
    if n > 0 && chain[0] in Unwound(d, n) {
      hide Needs;
      var turned := chain[1..] + [chain[1]];
      assert turned[|chain| - 2] == chain[0];
      assert Needs(d, chain[0], chain[1]);
      NeededOnLadder(d, chain[0], chain[1]);
      assert IsChain(d, turned);
      NotOnCycle(d, turned, n - 1);
    }
  }

  lemma {:induction false} UnwoundGrows(d: Draft, n: nat)
    ensures Unwound(d, n) <= Unwound(d, n + 1)
  {
    hide Needs;
    if n > 0 { UnwoundGrows(d, n - 1); }
  }

  /** Every round takes a step, or no later round does. */
  lemma {:induction false} EveryRoundTakesOne(d: Draft, n: nat)
    ensures |Unwound(d, n)| >= n || Unwound(d, n) == Unwound(d, n + 1)
  {
    hide Needs;
    if n > 0 {
      EveryRoundTakesOne(d, n - 1);
      UnwoundGrows(d, n - 1);
      if Unwound(d, n - 1) != Unwound(d, n) { SmallerSubset(Unwound(d, n - 1), Unwound(d, n)); }
    }
  }

  lemma SmallerSubset<T>(a: set<T>, b: set<T>)
    requires a <= b
    ensures |a| <= |b| && (a != b ==> |a| < |b|)
  {
    assert b == a + (b - a);
    assert a != b ==> b - a != {};
  }

  /** After as many rounds as there are steps nothing more comes off. */
  lemma Exhausted(d: Draft)
    ensures Unwound(d, |d.ladder|) == Unwound(d, |d.ladder| + 1)
  {
    var n := |d.ladder|;
    hide Needs;
    SetSize(d.ladder);
    assert Unwound(d, n + 1) <= Elements(d.ladder);
    SmallerSubset(Unwound(d, n + 1), Elements(d.ladder));
    EveryRoundTakesOne(d, n);
    UnwoundGrows(d, n);
    SmallerSubset(Unwound(d, n), Unwound(d, n + 1));
  }

  /** A step that never comes off needs another that never does, and so on. */
  lemma {:induction false} StuckChain(d: Draft, s: LadderStep, n: nat) returns (chain: seq<LadderStep>)
    requires s in d.ladder && s !in Unwound(d, |d.ladder|)
    ensures |chain| == n + 1 && IsChain(d, chain) && chain[0] == s
    decreases n
  {
    hide Needs, Unwound;
    chain := [s];
    if n > 0 {
      var to := StuckNeed(d, s);
      var rest := StuckChain(d, to, n - 1);
      chain := [s] + rest;
    }
  }

  lemma StuckNeed(d: Draft, s: LadderStep) returns (to: LadderStep)
    requires s in d.ladder && s !in Unwound(d, |d.ladder|)
    ensures to in d.ladder && Needs(d, s, to) && to !in Unwound(d, |d.ladder|)
  {
    hide Needs;
    Exhausted(d);
    to :| to in d.ladder && Needs(d, s, to) && to !in Unwound(d, |d.ladder|);
  }

  lemma LongChainTurns(d: Draft, chain: seq<LadderStep>) returns (cycle: seq<LadderStep>)
    requires IsChain(d, chain) && |chain| > |d.ladder| && chain[0] in d.ladder
    ensures IsCycle(d, cycle)
  {
    hide Needs;
    SetSize(chain);
    SetSize(d.ladder);
    forall i: nat | i < |chain| ensures chain[i] in d.ladder { ChainOnLadder(d, chain, i); }
    assert Elements(chain) <= Elements(d.ladder);
    SmallerSubset(Elements(chain), Elements(d.ladder));
    var i, j :| 0 <= i < j < |chain| && chain[i] == chain[j];
    cycle := chain[i..j + 1];
  }

  /** No step of a ladder leads back to itself exactly when taking off, again and again, the steps that need
      no step left takes all of them off. */
  lemma CycleFreeExactlyWhen(d: Draft)
    ensures CycleFree(d) <==> Unwinds(d)
  {
    hide Needs, Unwound;
    if Unwinds(d) {
      forall chain ensures !IsCycle(d, chain) {
        if IsCycle(d, chain) {
          CycleOnLadder(d, chain);
          NotOnCycle(d, chain, |d.ladder|);
        }
      }
    } else {
      var s :| s in d.ladder && s !in Unwound(d, |d.ladder|);
      var chain := StuckChain(d, s, |d.ladder|);
      var cycle := LongChainTurns(d, chain);
    }
  }

  // ---- What the checks let through ----

  function Needing(id: string, track: string, needs: string): LadderStep {
    LadderStep(id, RankStep, 0, track, None, Single(Prerequisite(needs), Required), None)
  }

  const CROSSED: Draft := Draft(["kids", "adults"], [Needing("a", "kids", "b"), Needing("b", "adults", "a")], [], [])

  /** A draft without transitions is clean when its tracks and each of its steps are. */
  lemma CleanWhen(d: Draft)
    requires Distinct(d.tracks) && d.transitions == []
    requires forall i :: 0 <= i < |d.ladder| ==> d.ladder[i].track in d.tracks
    requires forall i, code :: 0 <= i < |d.ladder| ==> !TrackViolates(d, d.ladder[i].track, code)
    requires forall i, code :: 0 <= i < |d.ladder| ==> !StepViolates(d, d.ladder[i], code)
    ensures Clean(d)
  {
    hide TrackViolates, StepViolates;
  }

  lemma CrossedStep(code: Code, x: LadderStep, y: LadderStep)
    requires x == Needing("a", "kids", "b") && y == Needing("b", "adults", "a")
    ensures StepById([x, y], "b") == Some(y) && StepById([x, y], "a") == Some(x)
    ensures Leaves(x.criteria) == [Prerequisite("b")] && Leaves(y.criteria) == [Prerequisite("a")]
    ensures !StepViolates(CROSSED, x, code) && !StepViolates(CROSSED, y, code)
  {
    assert [x, y][..1] == [x];
    assert StepById([x], "a") == Some(x);
    assert CROSSED.ladder == [x, y];
  }

  lemma CrossedTrack(code: Code, x: LadderStep, y: LadderStep)
    requires x == Needing("a", "kids", "b") && y == Needing("b", "adults", "a")
    ensures !TrackViolates(CROSSED, "kids", code) && !TrackViolates(CROSSED, "adults", code)
  {
    assert CROSSED.ladder == [x, y];
    TwoOnTrack(x, y, "kids");
    TwoOnTrack(x, y, "adults");
    assert "kids" != "adults" by { assert |"kids"| != |"adults"|; }
  }

  lemma TwoOnTrack(x: LadderStep, y: LadderStep, track: string)
    ensures OnTrack([x, y], track)
         == (if x.track == track then [x] else []) + (if y.track == track then [y] else [])
  {
    assert [x, y][..1] == [x] && [x][..0] == [];
    assert OnTrack([], track) == [];
    assert OnTrack([x], track) == if x.track == track then [x] else [];
  }

  /** Across tracks prerequisites are not compared: two steps that require each other pass. */
  lemma CrossTrackCyclePasses()
    ensures Clean(CROSSED)
    ensures IsCycle(CROSSED, [CROSSED.ladder[0], CROSSED.ladder[1], CROSSED.ladder[0]])
  {
    var x, y := Needing("a", "kids", "b"), Needing("b", "adults", "a");
    assert CROSSED.ladder == [x, y];
    assert |"kids"| != |"adults"|;
    assert CROSSED.tracks[0] == "kids" && CROSSED.tracks[1] == "adults";
    forall code ensures !StepViolates(CROSSED, x, code) && !StepViolates(CROSSED, y, code)
      && !TrackViolates(CROSSED, "kids", code) && !TrackViolates(CROSSED, "adults", code)
    {
      CrossedStep(code, x, y);
      CrossedTrack(code, x, y);
    }
    CrossedStep(DupTrack, x, y);
    assert Requires(CROSSED, x, y) by { assert Prerequisite("b") in Leaves(x.criteria); }
    assert Requires(CROSSED, y, x) by { assert Prerequisite("a") in Leaves(y.criteria); }
    hide Requires, StepViolates, TrackViolates, Leaves, StepById;
    CleanWhen(CROSSED);
  }

  function Free(id: string, order: int): LadderStep {
    LadderStep(id, RankStep, order, "adults", None, AllOf([]), None)
  }

  const REPEATED: Draft := Draft(["adults"], [Free("white", 0), Free("white", 1)], [], [])

  lemma FreeStep(d: Draft, s: LadderStep, code: Code)
    requires s.kind == RankStep && s.curriculum.None? && s.criteria == AllOf([])
    ensures !StepViolates(d, s, code)
  {
    assert Leaves(s.criteria) == [];
  }

  lemma RepeatedTrack(x: LadderStep, y: LadderStep, code: Code)
    requires x == Free("white", 0) && y == Free("white", 1)
    ensures OnTrack([x, y], "adults") == [x, y]
    ensures !TrackViolates(REPEATED, "adults", code)
  {
    assert REPEATED.ladder == [x, y];
    TwoOnTrack(x, y, "adults");
    hide OnTrack;
    var both := OnTrack([x, y], "adults");
    assert both == [x, y];
  }

  lemma RepeatedSteps(x: LadderStep, y: LadderStep, code: Code)
    requires x == Free("white", 0) && y == Free("white", 1)
    ensures StepsInTrack([x, y], "adults") == [x, y]
    ensures !StepViolates(REPEATED, x, code) && !StepViolates(REPEATED, y, code) && !TrackViolates(REPEATED, "adults", code)
  {
    FreeStep(REPEATED, x, code);
    FreeStep(REPEATED, y, code);
    RepeatedTrack(x, y, code);
    TwoSorted(x, y);
    hide OnTrack, SortByOrder, StepViolates, TrackViolates;
  }

  lemma TwoSorted(x: LadderStep, y: LadderStep)
    requires x.order <= y.order
    ensures SortByOrder([x, y]) == [x, y]
  {
    assert [x, y][..1] == [x] && [x][..0] == [];
    assert SortByOrder([x]) == [x];
  }

  /** Step ids are not compared either: a ladder with the same id twice passes, and its walk never stops. */
  lemma RepeatedIdPasses(n: nat)
    ensures Clean(REPEATED)
    ensures Walk(StepsInTrack(REPEATED.ladder, "adults"), n).Some?
  {
    var x, y := Free("white", 0), Free("white", 1);
    assert REPEATED.ladder == [x, y];
    forall code ensures !StepViolates(REPEATED, x, code) && !StepViolates(REPEATED, y, code) && !TrackViolates(REPEATED, "adults", code) {
      RepeatedSteps(x, y, code);
    }
    RepeatedSteps(x, y, DupTrack);
    hide StepViolates, TrackViolates, StepsInTrack, Walk;
    CleanWhen(REPEATED);
    assert [x, y][0].id == [x, y][1].id;
    RepeatedIdNeverStops([x, y], n);
  }
}
