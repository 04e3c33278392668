/** The structural checks a ladder must pass before it may be used, loop by loop, and what a ladder that
    passes them guarantees. */
module RankConfig {
  import opened RankEngine
  import opened RankLadder

  datatype Curriculum = Curriculum(id: string, groups: seq<seq<string>>)

  datatype Mapping = Mapping(fromStep: string, toStep: string)

  datatype Transition = Transition(fromTrack: string, toTrack: string, mapping: seq<Mapping>)

  datatype Draft = Draft(tracks: seq<string>, ladder: seq<LadderStep>, transitions: seq<Transition>, curricula: seq<Curriculum>)

  datatype Code =
    DupTrack | BadTrackRef | DupOrder | DanBeforeRank | MarkerNoParent | MarkerBadParent | BadCurriculumRef
    | BadPrereq | PrereqNotEarlier | BadCurriculumItem | BadTransitionTrack | BadTransitionFrom | BadTransitionTo

  datatype Issue = Issue(code: Code, path: string)

  function StepPath(id: string, code: Code): string {
    "ladder." + id + match code
                     case BadTrackRef => ".trackId"
                     case MarkerNoParent => ""
                     case MarkerBadParent => ".parentStepId"
                     case BadCurriculumRef => ".curriculumId"
                     case _ => ".criteria"
  }

  function TrackPath(track: string): string {
    "track." + track
  }

  function TransitionPath(code: Code): string {
    if code == BadTransitionTrack then "transitions" else "transitions.mapping"
  }

  // ---- What each code means ----

  function Leaves(node: Criterion): seq<Leaf>
    decreases node, 1
  {
    if node.Single? then [node.leaf] else LeavesOf(node.criteria)
  }

  function LeavesOf(criteria: seq<Criterion>): seq<Leaf>
    decreases criteria, 0
  {
    if criteria == [] then [] else Leaves(criteria[0]) + LeavesOf(criteria[1..])
  }

  predicate KnownItem(d: Draft, item: string) {
    exists c, g :: c in d.curricula && g in c.groups && item in g
  }

  predicate KnownCurriculum(d: Draft, id: string) {
    exists c :: c in d.curricula && c.id == id
  }

  predicate LeafViolates(d: Draft, step: LadderStep, leaf: Leaf, code: Code) {
    match leaf
    case Prerequisite(id) =>
      var pre := StepById(d.ladder, id);
      if pre.None? then code == BadPrereq
      else code == PrereqNotEarlier && pre.value.track == step.track && pre.value.order >= step.order
    case CurriculumItems(itemIds) => code == BadCurriculumItem && exists item :: item in itemIds && !KnownItem(d, item)
    case _ => false
  }

  predicate MarkerViolates(d: Draft, step: LadderStep, code: Code) {
    step.kind == Marker &&
    if step.parent.None? then code == MarkerNoParent
    else
      var parent := StepById(d.ladder, step.parent.value);
      code == MarkerBadParent && (parent.None? || parent.value.track != step.track || parent.value.order >= step.order)
  }

  predicate StepViolates(d: Draft, step: LadderStep, code: Code) {
    || MarkerViolates(d, step, code)
    || (code == BadCurriculumRef && step.curriculum.Some? && !KnownCurriculum(d, step.curriculum.value))
    || exists leaf :: leaf in Leaves(step.criteria) && LeafViolates(d, step, leaf, code)
  }

  predicate DanBelowRank(steps: seq<LadderStep>) {
    exists i, j :: 0 <= i < |steps| && 0 <= j < |steps| && steps[i].kind == Dan && steps[j].kind == RankStep && steps[i].order <= steps[j].order
  }

  predicate TrackViolates(d: Draft, track: string, code: Code) {
    || (code == DupOrder && !DistinctOrders(OnTrack(d.ladder, track)))
    || (code == DanBeforeRank && DanBelowRank(OnTrack(d.ladder, track)))
  }

  predicate MappingViolates(d: Draft, t: Transition, m: Mapping, code: Code) {
    var src, dst := StepById(d.ladder, m.fromStep), StepById(d.ladder, m.toStep);
    || (code == BadTransitionFrom && (src.None? || src.value.track != t.fromTrack))
    || (code == BadTransitionTo && (dst.None? || dst.value.track != t.toTrack))
  }

  predicate TransitionViolates(d: Draft, t: Transition, code: Code) {
    || (code == BadTransitionTrack && (t.fromTrack !in d.tracks || t.toTrack !in d.tracks))
    || exists i :: 0 <= i < |t.mapping| && MappingViolates(d, t, t.mapping[i], code)
  }

  predicate Distinct(xs: seq<string>) {
    forall i, j :: 0 <= i < j < |xs| ==> xs[i] != xs[j]
  }

  ghost predicate Violates(d: Draft, code: Code) {
    || (code == DupTrack && !Distinct(d.tracks))
    || (code == BadTrackRef && exists i :: 0 <= i < |d.ladder| && d.ladder[i].track !in d.tracks)
    || (exists i :: 0 <= i < |d.ladder| && TrackViolates(d, d.ladder[i].track, code))
    || (exists i :: 0 <= i < |d.ladder| && StepViolates(d, d.ladder[i], code))
    || (exists i :: 0 <= i < |d.transitions| && TransitionViolates(d, d.transitions[i], code))
  }

  /** An issue the draft has: what is wrong, and the path it is reported at. */
  ghost predicate Reported(d: Draft, x: Issue) {
    || (x == Issue(DupTrack, "tracks") && !Distinct(d.tracks))
    || (exists i :: 0 <= i < |d.ladder| && OffTracks(d, d.ladder[i], x))
    || (exists i :: 0 <= i < |d.ladder| && TrackHas(d, d.ladder[i].track, x))
    || (exists i :: 0 <= i < |d.ladder| && StepHas(d, d.ladder[i], x))
    || (exists i :: 0 <= i < |d.transitions| && TransitionHas(d, d.transitions[i], x))
  }

  predicate OffTracks(d: Draft, step: LadderStep, x: Issue) {
    x == Issue(BadTrackRef, StepPath(step.id, BadTrackRef)) && step.track !in d.tracks
  }

  predicate TrackHas(d: Draft, track: string, x: Issue) {
    x.path == TrackPath(track) && TrackViolates(d, track, x.code)
  }

  predicate StepHas(d: Draft, step: LadderStep, x: Issue) {
    x.path == StepPath(step.id, x.code) && StepViolates(d, step, x.code)
  }

  predicate TransitionHas(d: Draft, t: Transition, x: Issue) {
    x.path == TransitionPath(x.code) && TransitionViolates(d, t, x.code)
  }

  lemma ReportedMeans(d: Draft, code: Code)
    ensures Violates(d, code) <==> exists path :: Reported(d, Issue(code, path))
  {
    hide TrackViolates, StepViolates, TransitionViolates;
    if code == DupTrack && !Distinct(d.tracks) { assert Reported(d, Issue(code, "tracks")); }
    if i :| 0 <= i < |d.ladder| && code == BadTrackRef && d.ladder[i].track !in d.tracks {
      assert OffTracks(d, d.ladder[i], Issue(code, StepPath(d.ladder[i].id, code)));
    }
    if i :| 0 <= i < |d.ladder| && TrackViolates(d, d.ladder[i].track, code) {
      assert TrackHas(d, d.ladder[i].track, Issue(code, TrackPath(d.ladder[i].track)));
    }
    if i :| 0 <= i < |d.ladder| && StepViolates(d, d.ladder[i], code) {
      assert StepHas(d, d.ladder[i], Issue(code, StepPath(d.ladder[i].id, code)));
    }
    if i :| 0 <= i < |d.transitions| && TransitionViolates(d, d.transitions[i], code) {
      assert TransitionHas(d, d.transitions[i], Issue(code, TransitionPath(code)));
    }
  }

  // ---- Sets as duplicate checks ----

  function Elements<T>(xs: seq<T>): set<T> {
    set x | x in xs
  }

  lemma {:induction false} SetSize<T>(xs: seq<T>)
    ensures |Elements(xs)| <= |xs|
    ensures |Elements(xs)| == |xs| <==> forall i, j :: 0 <= i < j < |xs| ==> xs[i] != xs[j]
  {
    if xs != [] {
      var rest, last := xs[..|xs| - 1], xs[|xs| - 1];
      SetSize(rest);
      assert xs == rest + [last];
      assert Elements(xs) == Elements(rest) + {last};
      if last in rest {
        assert Elements(xs) == Elements(rest);
        var i :| 0 <= i < |rest| && rest[i] == last;
        assert xs[i] == xs[|xs| - 1];
      } else {
        assert (forall i, j :: 0 <= i < j < |rest| ==> rest[i] != rest[j]) ==> forall i, j :: 0 <= i < j < |xs| ==> xs[i] != xs[j];
        assert (forall i, j :: 0 <= i < j < |xs| ==> xs[i] != xs[j]) ==> forall i, j :: 0 <= i < j < |rest| ==> xs[i] != xs[j];
      }
    }
  }

  function OrdersOf(steps: seq<LadderStep>): (orders: seq<int>)
    ensures |orders| == |steps| && forall i :: 0 <= i < |steps| ==> orders[i] == steps[i].order
  {
    if steps == [] then [] else OrdersOf(steps[..|steps| - 1]) + [steps[|steps| - 1].order]
  }

  // ---- The checks, loop by loop ----

  method CollectLeaves(node: Criterion, out: seq<Leaf>) returns (r: seq<Leaf>)
    ensures r == out + Leaves(node)
    decreases node
  {
    if node.Single? {
      return out + [node.leaf];
    }
    r := out;
    for i := 0 to |node.criteria|
      invariant r + LeavesOf(node.criteria[i..]) == out + LeavesOf(node.criteria)
    {
      assert node.criteria[i..][1..] == node.criteria[i + 1..];
      var before := r;
      r := CollectLeaves(node.criteria[i], r);
      assert before + (Leaves(node.criteria[i]) + LeavesOf(node.criteria[i + 1..])) == r + LeavesOf(node.criteria[i + 1..]);
    }
    assert node.criteria[|node.criteria|..] == [];
    assert r + [] == r;
  }

  ghost predicate LeavesViolate(d: Draft, step: LadderStep, leaves: seq<Leaf>, n: nat, code: Code)
    requires n <= |leaves|
  {
    exists i :: 0 <= i < n && LeafViolates(d, step, leaves[i], code)
  }

  lemma LeavesViolateMore(d: Draft, step: LadderStep, leaves: seq<Leaf>, n: nat, code: Code)
    requires n < |leaves|
    ensures LeavesViolate(d, step, leaves, n + 1, code) <==> LeavesViolate(d, step, leaves, n, code) || LeafViolates(d, step, leaves[n], code)
  {
    hide LeafViolates;
    if LeavesViolate(d, step, leaves, n, code) {
      var i :| 0 <= i < n && LeafViolates(d, step, leaves[i], code);
    }
  }

  method LeafIssues(d: Draft, step: LadderStep, leaf: Leaf, items: set<string>) returns (issues: seq<Issue>)
    requires forall item :: item in items <==> KnownItem(d, item)
    ensures forall x :: x in issues <==> x.path == StepPath(step.id, x.code) && LeafViolates(d, step, leaf, x.code)
  {
    hide KnownItem;
    issues := [];
    match leaf
    case Prerequisite(id) =>
      var pre := StepById(d.ladder, id);
      if pre.None? {
        issues := [Issue(BadPrereq, StepPath(step.id, BadPrereq))];
      } else if pre.value.track == step.track && pre.value.order >= step.order {
        issues := [Issue(PrereqNotEarlier, StepPath(step.id, PrereqNotEarlier))];
      }
    case CurriculumItems(itemIds) =>
      for i := 0 to |itemIds|
        invariant issues == [] && forall j :: 0 <= j < i ==> KnownItem(d, itemIds[j])
      {
        if itemIds[i] !in items {
          issues := [Issue(BadCurriculumItem, StepPath(step.id, BadCurriculumItem))];
          return;
        }
      }
    case _ =>
  }

  method StepIssues(d: Draft, step: LadderStep, curricula: set<string>, items: set<string>) returns (issues: seq<Issue>)
    requires forall id :: id in curricula <==> KnownCurriculum(d, id)
    requires forall item :: item in items <==> KnownItem(d, item)
    ensures forall x :: x in issues <==> StepHas(d, step, x)
  {
    hide KnownItem, KnownCurriculum, LeafViolates, StepPath;
    issues := [];
    if step.kind == Marker {
      if step.parent.None? {
        issues := issues + [Issue(MarkerNoParent, StepPath(step.id, MarkerNoParent))];
      } else {
        var parent := StepById(d.ladder, step.parent.value);
        if parent.None? || parent.value.track != step.track || parent.value.order >= step.order {
          issues := issues + [Issue(MarkerBadParent, StepPath(step.id, MarkerBadParent))];
        }
      }
    }
    if step.curriculum.Some? && step.curriculum.value !in curricula {
      issues := issues + [Issue(BadCurriculumRef, StepPath(step.id, BadCurriculumRef))];
    }
    ghost var base := issues;
    assert forall x :: x in base <==>
      && x.path == StepPath(step.id, x.code)
      && (MarkerViolates(d, step, x.code) || (x.code == BadCurriculumRef && step.curriculum.Some? && !KnownCurriculum(d, step.curriculum.value)));
    hide MarkerViolates;
    var leaves := CollectLeaves(step.criteria, []);
    for i := 0 to |leaves|
      invariant forall x :: x in issues <==>
        x in base || (x.path == StepPath(step.id, x.code) && LeavesViolate(d, step, leaves, i, x.code))
    {
      var more := LeafIssues(d, step, leaves[i], items);
      issues := issues + more;
      forall code { LeavesViolateMore(d, step, leaves, i, code); }
    }
    assert leaves == Leaves(step.criteria);
    assert forall code :: LeavesViolate(d, step, leaves, |leaves|, code) <==> exists leaf :: leaf in leaves && LeafViolates(d, step, leaf, code);
  }

  function OfKind(steps: seq<LadderStep>, kind: StepKind): (r: seq<LadderStep>)
    ensures forall s :: s in r <==> s in steps && s.kind == kind
  {
    if steps == [] then []
    else OfKind(steps[..|steps| - 1], kind) + (if steps[|steps| - 1].kind == kind then [steps[|steps| - 1]] else [])
  }

  function MaxOrder(steps: seq<LadderStep>): (m: int)
    requires steps != []
    ensures forall s :: s in steps ==> s.order <= m
    ensures exists s :: s in steps && s.order == m
  {
    var last := steps[|steps| - 1];
    if |steps| == 1 then assert steps == [last]; last.order
    else
      var rest := steps[..|steps| - 1];
      var m := MaxOrder(rest);
      assert forall s :: s in steps <==> s in rest || s == last;
      if last.order > m then last.order else m
  }

  function MinOrder(steps: seq<LadderStep>): (m: int)
    requires steps != []
    ensures forall s :: s in steps ==> m <= s.order
    ensures exists s :: s in steps && s.order == m
  {
    var last := steps[|steps| - 1];
    if |steps| == 1 then assert steps == [last]; last.order
    else
      var rest := steps[..|steps| - 1];
      var m := MinOrder(rest);
      assert forall s :: s in steps <==> s in rest || s == last;
      if last.order < m then last.order else m
  }

  lemma DanBelowRankMeans(steps: seq<LadderStep>)
    ensures var ranks, dans := OfKind(steps, RankStep), OfKind(steps, Dan);
            DanBelowRank(steps) <==> ranks != [] && dans != [] && MinOrder(dans) <= MaxOrder(ranks)
  {
    var ranks, dans := OfKind(steps, RankStep), OfKind(steps, Dan);
    hide OfKind, MaxOrder, MinOrder;
    if i, j :| 0 <= i < |steps| && 0 <= j < |steps| && steps[i].kind == Dan && steps[j].kind == RankStep && steps[i].order <= steps[j].order {
      assert steps[i] in dans && steps[j] in ranks;
    }
    if ranks != [] && dans != [] && MinOrder(dans) <= MaxOrder(ranks) {
      var x :| x in dans && x.order == MinOrder(dans);
      var y :| y in ranks && y.order == MaxOrder(ranks);
      var i :| 0 <= i < |steps| && steps[i] == x;
      var j :| 0 <= j < |steps| && steps[j] == y;
    }
  }

  lemma OrdersDistinct(steps: seq<LadderStep>)
    ensures |Elements(OrdersOf(steps))| == |steps| <==> DistinctOrders(steps)
  {
    var orders := OrdersOf(steps);
    hide OrdersOf;
    SetSize(orders);
    if forall i, j :: 0 <= i < j < |orders| ==> orders[i] != orders[j] {
      forall i, j | 0 <= i < j < |steps| ensures steps[i].order != steps[j].order { assert orders[i] != orders[j]; }
    }
    if DistinctOrders(steps) {
      forall i, j | 0 <= i < j < |orders| ensures orders[i] != orders[j] { assert steps[i].order != steps[j].order; }
    }
  }

  predicate GroupViolates(steps: seq<LadderStep>, code: Code) {
    (code == DupOrder && !DistinctOrders(steps)) || (code == DanBeforeRank && DanBelowRank(steps))
  }

  method GroupIssues(track: string, steps: seq<LadderStep>) returns (issues: seq<Issue>)
    ensures forall x :: x in issues <==> x.path == TrackPath(track) && GroupViolates(steps, x.code)
  {
    OrdersDistinct(steps);
    DanBelowRankMeans(steps);
    hide DistinctOrders, DanBelowRank, OrdersOf, Elements, OfKind, MaxOrder, MinOrder;
    issues := [];
    if |Elements(OrdersOf(steps))| != |steps| {
      issues := issues + [Issue(DupOrder, TrackPath(track))];
    }
    var ranks, dans := OfKind(steps, RankStep), OfKind(steps, Dan);
    if |ranks| > 0 && |dans| > 0 {
      var maxRank, minDan := MaxOrder(ranks), MinOrder(dans);
      if minDan <= maxRank {
        issues := issues + [Issue(DanBeforeRank, TrackPath(track))];
      }
    }
  }

  /** The steps of a track among the first n of the ladder. */
  function Group(ladder: seq<LadderStep>, n: nat, track: string): seq<LadderStep>
    requires n <= |ladder|
  {
    OnTrack(ladder[..n], track)
  }

  predicate Seen(ladder: seq<LadderStep>, n: nat, track: string)
    requires n <= |ladder|
  {
    exists i :: 0 <= i < n && ladder[i].track == track
  }

  predicate SeenUnknown(d: Draft, n: nat, x: Issue)
    requires n <= |d.ladder|
  {
    exists i :: 0 <= i < n && OffTracks(d, d.ladder[i], x)
  }

  lemma GroupNext(ladder: seq<LadderStep>, n: nat, track: string)
    requires n < |ladder|
    ensures Group(ladder, n + 1, track) == Group(ladder, n, track) + (if ladder[n].track == track then [ladder[n]] else [])
    ensures Seen(ladder, n + 1, track) <==> Seen(ladder, n, track) || ladder[n].track == track
  {
    assert ladder[..n + 1][..n] == ladder[..n];
    if Seen(ladder, n, track) { var i :| 0 <= i < n && ladder[i].track == track; }
  }

  lemma GroupBounds(ladder: seq<LadderStep>, track: string)
    ensures Group(ladder, 0, track) == [] && !Seen(ladder, 0, track)
    ensures Group(ladder, |ladder|, track) == OnTrack(ladder, track)
    ensures Seen(ladder, |ladder|, track) <==> exists i :: 0 <= i < |ladder| && ladder[i].track == track
  {
    assert ladder[..|ladder|] == ladder;
  }

  lemma SeenUnknownNext(d: Draft, n: nat, x: Issue)
    requires n < |d.ladder|
    ensures SeenUnknown(d, n + 1, x) <==> SeenUnknown(d, n, x) || OffTracks(d, d.ladder[n], x)
  {
    hide OffTracks;
    if SeenUnknown(d, n, x) { var i :| 0 <= i < n && OffTracks(d, d.ladder[i], x); }
  }

  /** The ladder grouped by track, the tracks in order of first appearance; and the steps on no track. */
  method GroupByTrack(d: Draft) returns (keys: seq<string>, byTrack: map<string, seq<LadderStep>>, issues: seq<Issue>)
    ensures forall t :: t in byTrack <==> Seen(d.ladder, |d.ladder|, t)
    ensures forall t :: t in byTrack ==> byTrack[t] == Group(d.ladder, |d.ladder|, t)
    ensures forall t :: t in keys <==> t in byTrack
    ensures forall x :: x in issues <==> SeenUnknown(d, |d.ladder|, x)
  {
    keys, byTrack, issues := [], map[], [];
    forall t { GroupBounds(d.ladder, t); }
    hide Group, Seen, StepPath;
    for i := 0 to |d.ladder|
      invariant forall t :: t in byTrack <==> Seen(d.ladder, i, t)
      invariant forall t :: Group(d.ladder, i, t) == if t in byTrack then byTrack[t] else []
      invariant forall t :: t in keys <==> t in byTrack
      invariant forall x :: x in issues <==> SeenUnknown(d, i, x)
    {
      hide SeenUnknown;
      forall x { SeenUnknownNext(d, i, x); }
      var step := d.ladder[i];
      if step.track !in d.tracks {
        issues := issues + [Issue(BadTrackRef, StepPath(step.id, BadTrackRef))];
      }
      forall t { GroupNext(d.ladder, i, t); }
      var arr := if step.track in byTrack then byTrack[step.track] else [];
      if step.track !in byTrack {
        keys := keys + [step.track];
      }
      byTrack := byTrack[step.track := arr + [step]];
    }
  }

  ghost predicate KeysHave(d: Draft, keys: seq<string>, n: nat, x: Issue)
    requires n <= |keys|
  {
    exists i :: 0 <= i < n && TrackHas(d, keys[i], x)
  }

  lemma KeysHaveMore(d: Draft, keys: seq<string>, n: nat, x: Issue)
    requires n < |keys|
    ensures KeysHave(d, keys, n + 1, x) <==> KeysHave(d, keys, n, x) || TrackHas(d, keys[n], x)
  {
    hide TrackHas;
    if KeysHave(d, keys, n, x) {
      var i :| 0 <= i < n && TrackHas(d, keys[i], x);
    }
  }

  method TrackIssues(d: Draft) returns (issues: seq<Issue>)
    ensures forall x :: x in issues <==>
      (exists i :: 0 <= i < |d.ladder| && OffTracks(d, d.ladder[i], x))
      || exists i :: 0 <= i < |d.ladder| && TrackHas(d, d.ladder[i].track, x)
  {
    var keys, byTrack;
    keys, byTrack, issues := GroupByTrack(d);
    forall t { GroupBounds(d.ladder, t); }
    ghost var base := issues;
    hide OffTracks;
    for i := 0 to |keys|
      invariant forall x :: x in issues <==> x in base || KeysHave(d, keys, i, x)
    {
      hide OnTrack, DistinctOrders, DanBelowRank, TrackPath;
      assert keys[i] in keys;
      var more := GroupIssues(keys[i], byTrack[keys[i]]);
      assert forall x :: x in more <==> TrackHas(d, keys[i], x);
      issues := issues + more;
      forall x { KeysHaveMore(d, keys, i, x); }
    }
    forall x ensures KeysHave(d, keys, |keys|, x) <==> exists i :: 0 <= i < |d.ladder| && TrackHas(d, d.ladder[i].track, x) {
      KeysAreTracks(d, keys, x);
    }
  }

  lemma KeysAreTracks(d: Draft, keys: seq<string>, x: Issue)
    requires forall t :: t in keys <==> exists i :: 0 <= i < |d.ladder| && d.ladder[i].track == t
    ensures KeysHave(d, keys, |keys|, x) <==> exists i :: 0 <= i < |d.ladder| && TrackHas(d, d.ladder[i].track, x)
  {
    hide TrackHas;
    if KeysHave(d, keys, |keys|, x) {
      var k :| 0 <= k < |keys| && TrackHas(d, keys[k], x);
      assert keys[k] in keys;
    }
    if i :| 0 <= i < |d.ladder| && TrackHas(d, d.ladder[i].track, x) {
      assert d.ladder[i].track in keys;
      var k :| 0 <= k < |keys| && keys[k] == d.ladder[i].track;
    }
  }

  ghost predicate MappingsViolate(d: Draft, t: Transition, n: nat, code: Code)
    requires n <= |t.mapping|
  {
    exists i :: 0 <= i < n && MappingViolates(d, t, t.mapping[i], code)
  }

  lemma MappingsViolateMore(d: Draft, t: Transition, n: nat, code: Code)
    requires n < |t.mapping|
    ensures MappingsViolate(d, t, n + 1, code) <==> MappingsViolate(d, t, n, code) || MappingViolates(d, t, t.mapping[n], code)
  {
    hide MappingViolates;
    if MappingsViolate(d, t, n, code) {
      var i :| 0 <= i < n && MappingViolates(d, t, t.mapping[i], code);
    }
  }

  method TransitionIssues(d: Draft, t: Transition) returns (issues: seq<Issue>)
    ensures forall x :: x in issues <==> TransitionHas(d, t, x)
  {
    issues := [];
    if t.fromTrack !in d.tracks || t.toTrack !in d.tracks {
      issues := issues + [Issue(BadTransitionTrack, TransitionPath(BadTransitionTrack))];
    }
    ghost var base := issues;
    for i := 0 to |t.mapping|
      invariant forall x :: x in issues <==> x in base || (x.path == TransitionPath(x.code) && MappingsViolate(d, t, i, x.code))
    {
      var m := t.mapping[i];
      var src, dst := StepById(d.ladder, m.fromStep), StepById(d.ladder, m.toStep);
      ghost var before := issues;
      if src.None? || src.value.track != t.fromTrack {
        issues := issues + [Issue(BadTransitionFrom, TransitionPath(BadTransitionFrom))];
      }
      if dst.None? || dst.value.track != t.toTrack {
        issues := issues + [Issue(BadTransitionTo, TransitionPath(BadTransitionTo))];
      }
      hide TransitionPath, MappingsViolate;
      assert forall x :: x in issues <==> x in before || (x.path == TransitionPath(x.code) && MappingViolates(d, t, m, x.code));
      forall code { MappingsViolateMore(d, t, i, code); }
    }
  }

  ghost predicate StepsHave(d: Draft, n: nat, x: Issue)
    requires n <= |d.ladder|
  {
    exists i :: 0 <= i < n && StepHas(d, d.ladder[i], x)
  }

  lemma StepsHaveMore(d: Draft, n: nat, x: Issue)
    requires n < |d.ladder|
    ensures StepsHave(d, n + 1, x) <==> StepsHave(d, n, x) || StepHas(d, d.ladder[n], x)
  {
    hide StepHas;
    if StepsHave(d, n, x) {
      var i :| 0 <= i < n && StepHas(d, d.ladder[i], x);
    }
  }

  ghost predicate TransitionsHave(d: Draft, n: nat, x: Issue)
    requires n <= |d.transitions|
  {
    exists i :: 0 <= i < n && TransitionHas(d, d.transitions[i], x)
  }

  lemma TransitionsHaveMore(d: Draft, n: nat, x: Issue)
    requires n < |d.transitions|
    ensures TransitionsHave(d, n + 1, x) <==> TransitionsHave(d, n, x) || TransitionHas(d, d.transitions[n], x)
  {
    hide TransitionHas;
    if TransitionsHave(d, n, x) {
      var i :| 0 <= i < n && TransitionHas(d, d.transitions[i], x);
    }
  }

  /** The validator's checks: an issue is reported, at its path, exactly when the draft has it, so a draft
      without issues violates nothing. */
  method StructuralIssues(d: Draft) returns (issues: seq<Issue>)
    ensures forall x :: x in issues <==> Reported(d, x)
    ensures issues == [] <==> forall code :: !Violates(d, code)
  {
    hide OffTracks, TrackHas, StepHas, TransitionHas, Violates;
    var curricula := set c | c in d.curricula :: c.id;
    var items := set c, g, item | c in d.curricula && g in c.groups && item in g :: item;
    issues := [];
    SetSize(d.tracks);
    if |Elements(d.tracks)| != |d.tracks| {
      issues := issues + [Issue(DupTrack, "tracks")];
    }
    var more := TrackIssues(d);
    issues := issues + more;
    ghost var base := issues;
    for i := 0 to |d.ladder|
      invariant forall x :: x in issues <==> x in base || StepsHave(d, i, x)
    {
      more := StepIssues(d, d.ladder[i], curricula, items);
      issues := issues + more;
      forall x { StepsHaveMore(d, i, x); }
    }
    ghost var laddered := issues;
    for i := 0 to |d.transitions|
      invariant forall x :: x in issues <==> x in laddered || TransitionsHave(d, i, x)
    {
      more := TransitionIssues(d, d.transitions[i]);
      issues := issues + more;
      forall x { TransitionsHaveMore(d, i, x); }
    }
    NothingReported(d, issues);
  }

  lemma NothingReported(d: Draft, issues: seq<Issue>)
    requires forall x :: x in issues <==> Reported(d, x)
    ensures issues == [] <==> forall code :: !Violates(d, code)
  {
    hide Reported, Violates;
    forall code ensures Violates(d, code) <==> exists path :: Reported(d, Issue(code, path)) { ReportedMeans(d, code); }
    if issues != [] {
      assert issues[0] in issues && Issue(issues[0].code, issues[0].path) == issues[0];
      assert Violates(d, issues[0].code);
    }
  }
}
