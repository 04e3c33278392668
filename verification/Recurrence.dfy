/** The weekly recurrence expander: a walk over local calendar days that turns a weekly rule into instants,
    through a zone whose offset changes over time. Instants are milliseconds since 1970-01-01 UTC. */
module Recurrence {
  import opened Outcomes
  import opened Calendar

  const MINUTE: int := 60000

  // ---- Local wall time to UTC ----

  /** The offset of a zone, in minutes east of UTC, at every instant. */
  type Zone = int -> int

  /** The wall clock of the zone, read as if it were UTC. */
  function WallClock(zone: Zone, instant: int): int {
    instant + zone(instant) * MINUTE
  }

  function Settle(zone: Zone, naive: int): int {
    naive - zone(naive - zone(naive) * MINUTE) * MINUTE
  }

  /** Offsets stay within `bound` minutes, and around `naive` the only change is at `change`. */
  ghost predicate OneChange(zone: Zone, naive: int, bound: int, change: int, before: int, after: int) {
    && (forall x :: -bound <= zone(x) <= bound)
    && (forall x :: naive - bound * MINUTE <= x <= naive + bound * MINUTE ==> zone(x) == if x < change then before else after)
  }

  ghost predicate Exists(zone: Zone, naive: int) {
    exists x :: WallClock(zone, x) == naive
  }

  /** Two passes are enough across one change of offset, forward or backward, east or west: the result
      shows the requested wall time exactly when some instant does; a skipped wall time comes out early
      or late by exactly the jump, depending on which side of the change the naive reading falls. */
  lemma SettleExact(zone: Zone, naive: int, bound: int, change: int, before: int, after: int)
    requires OneChange(zone, naive, bound, change, before, after)
    ensures WallClock(zone, Settle(zone, naive)) == naive <==> Exists(zone, naive)
    ensures !Exists(zone, naive) ==>
              WallClock(zone, Settle(zone, naive))
              == naive + (if naive < change then before - after else after - before) * MINUTE
  {
    var first := naive - zone(naive) * MINUTE;
    var settled := Settle(zone, naive);
    assert zone(naive) == if naive < change then before else after;
    assert -bound <= zone(naive) <= bound && -bound <= zone(first) <= bound;
    assert zone(first) == if first < change then before else after;
    assert zone(settled) == if settled < change then before else after;
    forall x | WallClock(zone, x) == naive ensures WallClock(zone, settled) == naive {
      assert -bound <= zone(x) <= bound;
      assert zone(x) == if x < change then before else after;
    }
  }

  /** Seed with the naive reading, correct by the offset there, and correct once more: across any single
      change of offset the result shows the requested wall time whenever some instant does, and is off by
      the jump otherwise. */
  method LocalWallTimeToUtc(zone: Zone, naive: int) returns (instant: int)
    ensures instant == Settle(zone, naive)
    ensures forall bound, change, before, after :: OneChange(zone, naive, bound, change, before, after) ==>
              && (WallClock(zone, instant) == naive <==> Exists(zone, naive))
              && (!Exists(zone, naive) ==>
                    WallClock(zone, instant) == naive + (if naive < change then before - after else after - before) * MINUTE)
  {
    instant := naive - zone(naive) * MINUTE;
    instant := naive - zone(instant) * MINUTE;
    forall bound, change, before, after | OneChange(zone, naive, bound, change, before, after)
      ensures WallClock(zone, instant) == naive <==> Exists(zone, naive)
      ensures !Exists(zone, naive) ==>
                WallClock(zone, instant) == naive + (if naive < change then before - after else after - before) * MINUTE
    {
      SettleExact(zone, naive, bound, change, before, after);
    }
  }

  // ---- The ideal series ----

  /** WEEKLY with BYDAY (Sunday 0 … Saturday 6), INTERVAL, COUNT and an inclusive UNTIL. */
  datatype RuleData = RuleData(wanted: set<int>, interval: nat, count: Option<nat>, until: Option<int>)

  type Rule = r: RuleData | r.interval >= 1 witness RuleData({}, 1, None, None)

  datatype Options = Options(
    rule: Rule, startMinute: nat, durationMin: int, zone: Zone, anchor: Date, from: int, to: int)

  datatype Occurrence = Occurrence(startsAt: int, endsAt: int)

  /** UTC midnight of the i-th day of the walk. */
  function Midnight(o: Options, i: nat): int
    requires Valid(o.anchor)
  {
    (DayNumber(o.anchor) + i) * DAY
  }

  function Start(o: Options, i: nat): int
    requires Valid(o.anchor)
  {
    Settle(o.zone, Midnight(o, i) + o.startMinute * MINUTE)
  }

  /** A wanted weekday in a wanted week; weeks are 7-day blocks from the anchor. */
  predicate Candidate(o: Options, i: nat)
    requires Valid(o.anchor)
  {
    WeekdayOf(DayNumber(o.anchor) + i) in o.rule.wanted && (i / 7) % o.rule.interval == 0
  }

  /** How many instances the series has before day i. */
  function Rank(o: Options, i: nat): nat
    requires Valid(o.anchor)
  {
    if i == 0 then 0 else Rank(o, i - 1) + (if Candidate(o, i - 1) then 1 else 0)
  }

  /** Day i carries an instance of the series, as cut by COUNT from the anchor and by UNTIL. */
  predicate Member(o: Options, i: nat)
    requires Valid(o.anchor)
  {
    && Candidate(o, i)
    && (o.rule.count.Some? ==> Rank(o, i) < o.rule.count.value)
    && (o.rule.until.Some? ==> Start(o, i) <= o.rule.until.value)
  }

  predicate InWindow(o: Options, i: nat)
    requires Valid(o.anchor)
  {
    o.from <= Start(o, i) < o.to
  }

  function OccurrenceOf(o: Options, i: nat): Occurrence
    requires Valid(o.anchor)
  {
    Occurrence(Start(o, i), Start(o, i) + o.durationMin * MINUTE)
  }

  /** The occurrences of the first n days that p picks, in day order. */
  function Collect(o: Options, p: nat -> bool, n: nat): seq<Occurrence>
    requires Valid(o.anchor)
  {
    if n == 0 then [] else Collect(o, p, n - 1) + (if p(n - 1) then [OccurrenceOf(o, n - 1)] else [])
  }

  function Wanted(o: Options): nat -> bool
    requires Valid(o.anchor)
  {
    (i: nat) => Member(o, i) && InWindow(o, i)
  }

  /** The walk gives up after fifty years of days. */
  const CAP: nat := 366 * 50

  function Ideal(o: Options): seq<Occurrence>
    requires Valid(o.anchor)
  {
    Collect(o, Wanted(o), CAP)
  }

  /** Day i is never reached: its UTC midnight is past the window although its local start is not. */
  predicate CutOff(o: Options, i: nat)
    requires Valid(o.anchor)
  {
    o.rule.count.None? && i >= 1 && Midnight(o, i) > o.to
  }

  function Kept(o: Options): nat -> bool
    requires Valid(o.anchor)
  {
    (i: nat) => Member(o, i) && InWindow(o, i) && !CutOff(o, i)
  }

  // ---- Facts about the series ----

  predicate TwoDays(x: int, y: int) {
    -2 * DAY <= x - y <= 2 * DAY
  }

  /** Within two days the offset changes by at most a day: what a zone does that crosses the date line.
      Over its whole history it may change by any amount. */
  ghost predicate Steady(zone: Zone) {
    forall x, y :: TwoDays(x, y) ==> zone(x) - zone(y) <= 1440
  }

  /** … and by less than a day, when it does not cross the date line. */
  ghost predicate SubDay(zone: Zone) {
    forall x, y :: TwoDays(x, y) ==> zone(x) - zone(y) < 1440
  }

  lemma NextStart(o: Options, i: nat)
    requires Valid(o.anchor)
    ensures Steady(o.zone) ==> Start(o, i) <= Start(o, i + 1)
    ensures SubDay(o.zone) ==> Start(o, i) < Start(o, i + 1)
  {
    hide Settle, Steady, SubDay, Midnight, Valid;
    NextMidnight(o, i);
    SettledApart(o.zone, Midnight(o, i) + o.startMinute * MINUTE);
  }

  lemma NextMidnight(o: Options, i: nat)
    requires Valid(o.anchor)
    ensures Midnight(o, i + 1) == Midnight(o, i) + DAY
  {
    hide DayNumber;
  }

  lemma SettledApart(zone: Zone, a: int)
    ensures Steady(zone) ==> Settle(zone, a) <= Settle(zone, a + DAY)
    ensures SubDay(zone) ==> Settle(zone, a) < Settle(zone, a + DAY)
  {
    var b := a + DAY;
    var x, y := a - zone(a) * MINUTE, b - zone(b) * MINUTE;
    assert TwoDays(a, b) && TwoDays(b, a);
    assert Steady(zone) || SubDay(zone) ==> TwoDays(y, x);
  }

  lemma {:induction false} StartsApart(o: Options, i: nat, j: nat)
    requires Valid(o.anchor) && i < j
    ensures Steady(o.zone) ==> Start(o, i) <= Start(o, j)
    ensures SubDay(o.zone) ==> Start(o, i) < Start(o, j)
    decreases j
  {
    hide Start, Steady, SubDay;
    NextStart(o, j - 1);
    if i < j - 1 { StartsApart(o, i, j - 1); }
  }

  /** Later days do not start earlier. */
  lemma StartsIncrease(o: Options, i: nat, j: nat)
    requires Valid(o.anchor) && Steady(o.zone) && i < j
    ensures Start(o, i) <= Start(o, j)
  {
    StartsApart(o, i, j);
  }

  lemma {:induction false} RankGrows(o: Options, i: nat, j: nat)
    requires Valid(o.anchor) && i <= j
    ensures Rank(o, i) <= Rank(o, j)
    decreases j
  {
    if i < j { RankGrows(o, i, j - 1); }
  }

  lemma {:induction false} NothingMore(o: Options, p: nat -> bool, i: nat, n: nat)
    requires Valid(o.anchor) && i <= n
    requires forall j: nat :: i <= j < n ==> !p(j)
    ensures Collect(o, p, n) == Collect(o, p, i)
    decreases n
  {
    if i < n {
      NothingMore(o, p, i, n - 1);
      assert !p(n - 1);
    }
  }

  /** Past UNTIL or COUNT at one instance, past them at every later one. */
  lemma SeriesEnds(o: Options, i: nat)
    requires Valid(o.anchor) && Steady(o.zone) && i <= CAP
    requires (o.rule.until.Some? && Start(o, i) > o.rule.until.value) || (o.rule.count.Some? && Rank(o, i) >= o.rule.count.value)
    ensures Collect(o, Kept(o), CAP) == Collect(o, Kept(o), i)
  {
    forall j: nat | i <= j < CAP ensures !Kept(o)(j) {
      if i < j { StartsIncrease(o, i, j); }
      RankGrows(o, i, j);
    }
    NothingMore(o, Kept(o), i, CAP);
  }

  lemma WindowEnds(o: Options, i: nat)
    requires Valid(o.anchor) && Steady(o.zone) && i < CAP && Start(o, i) >= o.to
    ensures Collect(o, Kept(o), CAP) == Collect(o, Kept(o), i)
  {
    forall j: nat | i <= j < CAP ensures !Kept(o)(j) {
      if i < j { StartsIncrease(o, i, j); }
    }
    NothingMore(o, Kept(o), i, CAP);
  }

  lemma WalkEnds(o: Options, i: nat)
    requires Valid(o.anchor) && 1 <= i <= CAP && o.rule.count.None? && Midnight(o, i) > o.to
    ensures Collect(o, Kept(o), CAP) == Collect(o, Kept(o), i)
  {
    forall j: nat | i <= j < CAP ensures !Kept(o)(j) {
      assert Midnight(o, i) <= Midnight(o, j);
    }
    NothingMore(o, Kept(o), i, CAP);
  }

  /** The cursor on day i: its day number, and the UTC midnight computed from it. */
  lemma CursorDay(o: Options, i: nat)
    requires Valid(o.anchor)
    ensures Valid(DatePlus(o.anchor, i)) && DayNumber(DatePlus(o.anchor, i)) == DayNumber(o.anchor) + i
    ensures DatePlus(o.anchor, i + 1) == NextDay(DatePlus(o.anchor, i))
  {
    DatePlusCounts(o.anchor, i);
  }

  // ---- The expander ----

  function WeeksSinceAnchor(anchor: Date, date: Date): int
    requires Valid(anchor) && Valid(date)
  {
    (DayNumber(date) - DayNumber(anchor)) / 7
  }

  lemma CandidateDay(o: Options, i: nat)
    requires Valid(o.anchor)
    ensures var cursor := DatePlus(o.anchor, i);
            && DayNumber(cursor) * DAY == Midnight(o, i)
            && WeeksSinceAnchor(o.anchor, cursor) >= 0
            && (Candidate(o, i) <==>
                  WeekdayOf(DayNumber(cursor)) in o.rule.wanted && WeeksSinceAnchor(o.anchor, cursor) % o.rule.interval == 0)
  {
    DatePlusCounts(o.anchor, i);
  }

  /** What day i adds to the walk. */
  lemma OneDay(o: Options, i: nat)
    requires Valid(o.anchor)
    ensures Kept(o)(i) <==>
              && Candidate(o, i)
              && !(o.rule.count.Some? && Rank(o, i) >= o.rule.count.value)
              && !(o.rule.until.Some? && Start(o, i) > o.rule.until.value)
              && o.from <= Start(o, i) < o.to && !CutOff(o, i)
    ensures Collect(o, Kept(o), i + 1)
         == Collect(o, Kept(o), i) + (if Kept(o)(i) then [Occurrence(Start(o, i), Start(o, i) + o.durationMin * MINUTE)] else [])
    ensures Rank(o, i + 1) == Rank(o, i) + (if Candidate(o, i) then 1 else 0)
    ensures CutOff(o, i + 1) <==> o.rule.count.None? && Midnight(o, i + 1) > o.to
  {
  }

  /** What the walk returns, exactly: the members of the ideal series in the window, in order, but for a
      day whose UTC midnight is past the window. */
  method ExpandWeekly(o: Options) returns (out: seq<Occurrence>)
    requires Valid(o.anchor) && Steady(o.zone)
    ensures out == Collect(o, Kept(o), CAP)
  {
    hide Collect, Rank, Candidate, Midnight, Start, Kept, Steady, DayNumber, DatePlus, Valid, WeekdayOf, WeeksSinceAnchor, CutOff, Settle;
    out := [];
    var emitted := 0;
    var cursor := o.anchor;
    WalkBegins(o);
    for guard := 0 to CAP
      invariant cursor == DatePlus(o.anchor, guard)
      invariant emitted == Rank(o, guard)
      invariant out == Collect(o, Kept(o), guard)
      invariant !CutOff(o, guard)
    {
      CursorDay(o, guard);
      CandidateDay(o, guard);
      OneDay(o, guard);
      var cursorMidnightUtc := DayNumber(cursor) * DAY;
      var jsDay := WeekdayOf(DayNumber(cursor));
      if jsDay in o.rule.wanted {
        var weekIndex := WeeksSinceAnchor(o.anchor, cursor);
        if weekIndex >= 0 && weekIndex % o.rule.interval == 0 {
          var startMs := LocalWallTimeToUtc(o.zone, cursorMidnightUtc + o.startMinute * MINUTE);
          StartIsSettled(o, guard);
          var pastUntil := o.rule.until.Some? && startMs > o.rule.until.value;
          var pastCount := o.rule.count.Some? && emitted >= o.rule.count.value;
          if pastUntil || pastCount {
            SeriesEnds(o, guard);
            return;
          }
          emitted := emitted + 1;
          if startMs >= o.from && startMs < o.to {
            out := out + [Occurrence(startMs, startMs + o.durationMin * MINUTE)];
          }
          if startMs >= o.to && o.rule.count.None? && o.rule.until.None? {
            WindowEnds(o, guard);
            return;
          }
        }
      }

      if cursor.day < DaysInMonth(cursor.year, cursor.month) {
        cursor := cursor.(day := cursor.day + 1);
      } else if cursor.month < 12 {
        cursor := Date(cursor.year, cursor.month + 1, 1);
      } else {
        cursor := Date(cursor.year + 1, 1, 1);
      }
      CandidateDay(o, guard + 1);
      if DayNumber(cursor) * DAY > o.to && o.rule.count.None? {
        WalkEnds(o, guard + 1);
        return;
      }
    }
  }

  lemma WalkBegins(o: Options)
    requires Valid(o.anchor)
    ensures DatePlus(o.anchor, 0) == o.anchor && Rank(o, 0) == 0 && Collect(o, Kept(o), 0) == [] && !CutOff(o, 0)
  {
  }

  lemma StartIsSettled(o: Options, i: nat)
    requires Valid(o.anchor)
    ensures Start(o, i) == Settle(o.zone, Midnight(o, i) + o.startMinute * MINUTE)
  {
  }

  // ---- What it means ----

  /** x is the occurrence of a picked day before n. */
  predicate FromDay(o: Options, p: nat -> bool, n: nat, x: Occurrence, i: nat)
    requires Valid(o.anchor)
  {
    i < n && p(i) && x == OccurrenceOf(o, i)
  }

  lemma {:induction false} CollectSound(o: Options, p: nat -> bool, n: nat, k: nat) returns (i: nat)
    requires Valid(o.anchor) && k < |Collect(o, p, n)|
    ensures FromDay(o, p, n, Collect(o, p, n)[k], i)
  {
    if k < |Collect(o, p, n - 1)| {
      i := CollectSound(o, p, n - 1, k);
    } else {
      i := n - 1;
    }
  }

  /** The listed starts do not decrease, and strictly increase without a date-line crossing. */
  lemma {:induction false} CollectOrdered(o: Options, p: nat -> bool, n: nat, j: nat, k: nat)
    requires Valid(o.anchor) && j < k < |Collect(o, p, n)|
    ensures Steady(o.zone) ==> Collect(o, p, n)[j].startsAt <= Collect(o, p, n)[k].startsAt
    ensures SubDay(o.zone) ==> Collect(o, p, n)[j].startsAt < Collect(o, p, n)[k].startsAt
  {
    hide Start, Steady, SubDay;
    var before := Collect(o, p, n - 1);
    if k < |before| {
      CollectOrdered(o, p, n - 1, j, k);
    } else {
      var i := CollectSound(o, p, n - 1, j);
      StartsApart(o, i, n - 1);
    }
  }

  lemma {:induction false} CollectComplete(o: Options, p: nat -> bool, n: nat, i: nat)
    requires Valid(o.anchor) && i < n && p(i)
    ensures OccurrenceOf(o, i) in Collect(o, p, n)
    decreases n
  {
    if i < n - 1 { CollectComplete(o, p, n - 1, i); }
  }

  lemma SameStartSameDay(o: Options, i: nat, j: nat)
    requires Valid(o.anchor) && SubDay(o.zone) && OccurrenceOf(o, i) == OccurrenceOf(o, j)
    ensures i == j
  {
    if i < j { StartsApart(o, i, j); }
    if j < i { StartsApart(o, j, i); }
  }

  /** x is the occurrence of a member of the series that starts in the window, before the cap. */
  ghost predicate Occurs(o: Options, x: Occurrence)
    requires Valid(o.anchor)
  {
    exists j: nat :: j < CAP && FromDay(o, Wanted(o), CAP, x, j)
  }

  /** The ideal series in the window, in any zone: exactly the occurrences of the members that start there.
      The starts do not decrease when the offset changes by at most a day within two days; when it changes
      by less, they strictly increase and a day is listed exactly when it is such a member. */
  lemma IdealIsTheWindow(o: Options, i: nat)
    requires Valid(o.anchor)
    ensures forall x :: x in Ideal(o) <==> Occurs(o, x)
    ensures forall x :: x in Ideal(o) ==> o.from <= x.startsAt < o.to
    ensures Steady(o.zone) ==> forall j, k :: 0 <= j < k < |Ideal(o)| ==> Ideal(o)[j].startsAt <= Ideal(o)[k].startsAt
    ensures SubDay(o.zone) ==>
              && (forall j, k :: 0 <= j < k < |Ideal(o)| ==> Ideal(o)[j].startsAt < Ideal(o)[k].startsAt)
              && (i < CAP ==> (OccurrenceOf(o, i) in Ideal(o) <==> Member(o, i) && InWindow(o, i)))
  {
    hide Collect, SubDay, Steady, Member, Start;
    forall j, k | 0 <= j < k < |Ideal(o)|
      ensures Steady(o.zone) ==> Ideal(o)[j].startsAt <= Ideal(o)[k].startsAt
      ensures SubDay(o.zone) ==> Ideal(o)[j].startsAt < Ideal(o)[k].startsAt
    {
      CollectOrdered(o, Wanted(o), CAP, j, k);
    }
    forall x ensures x in Ideal(o) <==> Occurs(o, x) { InIdealExactly(o, x); }
    if i < CAP && SubDay(o.zone) {
      if Wanted(o)(i) { assert FromDay(o, Wanted(o), CAP, OccurrenceOf(o, i), i); }
      if OccurrenceOf(o, i) in Ideal(o) {
        var j: nat :| j < CAP && FromDay(o, Wanted(o), CAP, OccurrenceOf(o, i), j);
        SameStartSameDay(o, i, j);
      }
    }
  }

  lemma InIdealExactly(o: Options, x: Occurrence)
    requires Valid(o.anchor)
    ensures x in Ideal(o) <==> Occurs(o, x)
  {
    hide Collect, Member, Start;
    if x in Ideal(o) {
      var k :| 0 <= k < |Ideal(o)| && Ideal(o)[k] == x;
      var j := CollectSound(o, Wanted(o), CAP, k);
    }
    if Occurs(o, x) {
      var j: nat :| j < CAP && FromDay(o, Wanted(o), CAP, x, j);
      CollectComplete(o, Wanted(o), CAP, j);
    }
  }

  function Civil(d: Date): int {
    CivilDays(d.year, d.month, d.day)
  }

  /** The rule asks for day i from the anchor: the weekday is wanted (1970-01-01 was a Thursday) and so is
      the 7-day block. */
  predicate Asked(o: Options, i: nat) {
    (Civil(o.anchor) + i + 4) % 7 in o.rule.wanted && (i / 7) % o.rule.interval == 0
  }

  function AskedBefore(o: Options, i: nat): set<nat> {
    set j: nat | j < i && Asked(o, j)
  }

  lemma AskedIsCandidate(o: Options, i: nat)
    requires Valid(o.anchor)
    ensures Candidate(o, i) <==> Asked(o, i)
  {
    DayNumberIsCivil(o.anchor);
    hide DayNumber, CivilDays;
  }

  lemma {:induction false} RankCounts(o: Options, i: nat)
    requires Valid(o.anchor)
    ensures Rank(o, i) == |AskedBefore(o, i)|
  {
    hide Candidate, Asked;
    if i > 0 {
      RankCounts(o, i - 1);
      AskedIsCandidate(o, i - 1);
      assert AskedBefore(o, i) == AskedBefore(o, i - 1) + if Asked(o, i - 1) then {i - 1} else {};
    } else {
      assert AskedBefore(o, 0) == {};
    }
  }

  /** On the calendar date d the series has the occurrence x: the rule asks for the date, fewer than COUNT
      dates came before it, x starts there at the local time, not after UNTIL, in the window, and lasts. */
  predicate HappensOn(o: Options, d: Date, x: Occurrence) {
    var i := Civil(d) - Civil(o.anchor);
    && Valid(d) && 0 <= i < 366 * 50 && Asked(o, i)
    && (o.rule.count.Some? ==> |AskedBefore(o, i)| < o.rule.count.value)
    && x.startsAt == Settle(o.zone, Civil(d) * DAY + o.startMinute * MINUTE)
    && (o.rule.until.Some? ==> x.startsAt <= o.rule.until.value)
    && o.from <= x.startsAt < o.to
    && x.endsAt == x.startsAt + o.durationMin * MINUTE
  }

  lemma DayHappens(o: Options, i: nat, x: Occurrence)
    requires Valid(o.anchor)
    ensures var d := DatePlus(o.anchor, i);
            Valid(d) && Civil(d) == Civil(o.anchor) + i && (HappensOn(o, d, x) <==> FromDay(o, Wanted(o), CAP, x, i))
  {
    hide Rank, Candidate, Asked, AskedBefore, Civil, DayNumber, DatePlus, Settle, Valid;
    CivilDay(o, i);
    AskedIsCandidate(o, i);
    RankCounts(o, i);
  }

  lemma CivilDay(o: Options, i: nat)
    requires Valid(o.anchor)
    ensures var d := DatePlus(o.anchor, i);
            Valid(d) && Civil(d) == Civil(o.anchor) + i && DayNumber(o.anchor) == Civil(o.anchor)
  {
    hide CivilDays, DayNumber;
    DatePlusCounts(o.anchor, i);
    DayNumberIsCivil(o.anchor);
    DayNumberIsCivil(DatePlus(o.anchor, i));
  }

  /** The ideal series in the terms of the calendar: exactly what happens on some date. */
  lemma IdealByDates(o: Options, x: Occurrence)
    requires Valid(o.anchor)
    ensures x in Ideal(o) <==> exists d: Date :: HappensOn(o, d, x)
  {
    hide Collect, HappensOn, FromDay, Wanted;
    InIdealExactly(o, x);
    if Occurs(o, x) {
      var j: nat :| j < CAP && FromDay(o, Wanted(o), CAP, x, j);
      DayHappens(o, j, x);
    }
    if d :| HappensOn(o, d, x) {
      DateIsReached(o, d, x);
      DayHappens(o, Civil(d) - Civil(o.anchor), x);
      HappensBeforeCap(o, x, Civil(d) - Civil(o.anchor));
    }
  }

  lemma HappensBeforeCap(o: Options, x: Occurrence, i: nat)
    requires Valid(o.anchor) && FromDay(o, Wanted(o), CAP, x, i)
    ensures i < CAP
  {
  }

  lemma DateIsReached(o: Options, d: Date, x: Occurrence)
    requires Valid(o.anchor) && HappensOn(o, d, x)
    ensures Civil(o.anchor) <= Civil(d) && DatePlus(o.anchor, Civil(d) - Civil(o.anchor)) == d
  {
    DayNumberIsCivil(o.anchor);
    DayNumberIsCivil(d);
    hide CivilDays, DayNumber, DatePlus;
    WalkReachesEveryDay(o.anchor, d, Civil(d) - Civil(o.anchor));
  }

  lemma {:induction false} FewerKept(o: Options, n: nat)
    requires Valid(o.anchor)
    ensures |Collect(o, Kept(o), n)| <= |Collect(o, Wanted(o), n)|
    ensures (forall i: nat :: i < n ==> Kept(o)(i) == Wanted(o)(i)) ==> Collect(o, Kept(o), n) == Collect(o, Wanted(o), n)
    ensures (exists i: nat :: i < n && Kept(o)(i) != Wanted(o)(i)) ==> |Collect(o, Kept(o), n)| < |Collect(o, Wanted(o), n)|
  {
    if n > 0 { FewerKept(o, n - 1); }
  }

  /** Some instance of the window is lost. */
  predicate Loses(o: Options)
    requires Valid(o.anchor)
  {
    exists i: nat :: i < CAP && LosesDay(o, i)
  }

  predicate LosesDay(o: Options, i: nat)
    requires Valid(o.anchor)
  {
    Member(o, i) && InWindow(o, i) && CutOff(o, i)
  }

  /** The walk returns the ideal series of the window exactly when no instance of the window falls on a
      day whose UTC midnight is past the window. */
  lemma WalkIsIdealExactlyWhen(o: Options)
    requires Valid(o.anchor)
    ensures Collect(o, Kept(o), CAP) == Ideal(o) <==> !Loses(o)
  {
    FewerKept(o, CAP);
    forall i: nat | i < CAP ensures Kept(o)(i) != Wanted(o)(i) <==> LosesDay(o, i) {
    }
  }

  /** No instance from the second day on starts before the UTC midnight of its date; one millisecond
      before does no harm, because the exit compares strictly. */
  predicate StartsOnItsDate(o: Options)
    requires Valid(o.anchor)
  {
    forall i: nat :: 1 <= i < CAP && Member(o, i) ==> Midnight(o, i) <= Start(o, i) + 1
  }

  /** What the expander returns for one window. */
  function Expanded(o: Options, from: int, to: int): seq<Occurrence>
    requires Valid(o.anchor)
  {
    Collect(Window(o, from, to), Kept(Window(o, from, to)), CAP)
  }

  lemma EarlyDayIsLost(o: Options, i: nat)
    requires Valid(o.anchor) && o.rule.count.None? && 1 <= i < CAP && Member(o, i) && Start(o, i) + 1 < Midnight(o, i)
    ensures Loses(Window(o, Start(o, i), Start(o, i) + 1))
  {
    MemberOfWindow(o, Start(o, i), Start(o, i) + 1, i);
    assert LosesDay(Window(o, Start(o, i), Start(o, i) + 1), i);
  }

  lemma OnDateIsKept(o: Options, from: int, to: int)
    requires Valid(o.anchor) && (o.rule.count.Some? || StartsOnItsDate(o))
    ensures !Loses(Window(o, from, to))
  {
    forall i: nat | i < CAP ensures !LosesDay(Window(o, from, to), i) { MemberOfWindow(o, from, to, i); }
  }

  /** Windowing never changes which instances exist exactly when the rule has a COUNT or no instance, from
      the second day on, starts before the UTC midnight of its date. */
  lemma NoWindowLosesExactlyWhen(o: Options)
    requires Valid(o.anchor)
    ensures (forall from, to :: Expanded(o, from, to) == Ideal(Window(o, from, to))) <==> o.rule.count.Some? || StartsOnItsDate(o)
  {
    hide Collect, Member, Start, Loses;
    forall from, to ensures Expanded(o, from, to) == Ideal(Window(o, from, to)) <==> !Loses(Window(o, from, to)) {
      WalkIsIdealExactlyWhen(Window(o, from, to));
    }
    if o.rule.count.Some? || StartsOnItsDate(o) {
      forall from, to ensures !Loses(Window(o, from, to)) { OnDateIsKept(o, from, to); }
    } else {
      var i: nat :| 1 <= i < CAP && Member(o, i) && !(Midnight(o, i) <= Start(o, i) + 1);
      EarlyDayIsLost(o, i);
      assert Expanded(o, Start(o, i), Start(o, i) + 1) != Ideal(Window(o, Start(o, i), Start(o, i) + 1));
    }
  }

  lemma DayNotLost(o: Options, i: nat)
    requires Valid(o.anchor)
    requires o.rule.count.Some? || forall x :: o.zone(x) <= o.startMinute
    ensures !LosesDay(o, i)
  {
    var naive := Midnight(o, i) + o.startMinute * MINUTE;
    var x := naive - o.zone(naive) * MINUTE;
    assert o.rule.count.Some? || o.zone(x) <= o.startMinute;
    assert o.rule.count.Some? || Start(o, i) >= Midnight(o, i);
  }

  /** With COUNT, or with a local start time never earlier than the zone's offset, nothing is lost. */
  lemma NothingLost(o: Options)
    requires Valid(o.anchor)
    requires o.rule.count.Some? || forall x :: o.zone(x) <= o.startMinute
    ensures Collect(o, Kept(o), CAP) == Ideal(o)
  {
    WalkIsIdealExactlyWhen(o);
    forall i: nat ensures !LosesDay(o, i) { DayNotLost(o, i); }
  }

  /** A concrete loss: a class at 00:30 on Fridays two hours east of UTC starts at 22:30 UTC the evening
      before, inside a window that ends at 23:00 UTC; the walk never looks at that Friday. */
  function NightClass(): Options {
    Options(RuleData({5}, 1, None, None), 30, 60, (x: int) => 120, Date(1970, 1, 1), 0, 23 * 60 * MINUTE)
  }

  lemma ExpandCanLose()
    ensures Steady(NightClass().zone) && Loses(NightClass())
    ensures Collect(NightClass(), Kept(NightClass()), CAP) != Ideal(NightClass())
  {
    var o := NightClass();
    assert DayNumber(o.anchor) == 0;
    assert Start(o, 1) == DAY + 30 * MINUTE - 120 * MINUTE;
    assert LosesDay(o, 1);
    WalkIsIdealExactlyWhen(o);
  }

  function Window(o: Options, from: int, to: int): Options {
    o.(from := from, to := to)
  }

  lemma {:induction false} RankOfWindow(o: Options, from: int, to: int, i: nat)
    requires Valid(o.anchor)
    ensures Rank(Window(o, from, to), i) == Rank(o, i)
  {
    if i > 0 { RankOfWindow(o, from, to, i - 1); }
  }

  /** Windowing never changes which instances exist. */
  lemma MemberOfWindow(o: Options, from: int, to: int, i: nat)
    requires Valid(o.anchor)
    ensures Member(Window(o, from, to), i) == Member(o, i)
    ensures OccurrenceOf(Window(o, from, to), i) == OccurrenceOf(o, i) && Start(Window(o, from, to), i) == Start(o, i)
  {
    RankOfWindow(o, from, to, i);
  }

  /** The ideal series of one window, among the first n days. */
  function Within(o: Options, from: int, to: int, n: nat): seq<Occurrence>
    requires Valid(o.anchor)
  {
    Collect(Window(o, from, to), Wanted(Window(o, from, to)), n)
  }

  function IfWithin(o: Options, from: int, to: int, i: nat): seq<Occurrence>
    requires Valid(o.anchor)
  {
    if Member(o, i) && from <= Start(o, i) < to then [OccurrenceOf(o, i)] else []
  }

  /** What the last day adds to the list of one window. */
  lemma DayWithin(o: Options, from: int, to: int, i: nat)
    requires Valid(o.anchor)
    ensures Within(o, from, to, i + 1) == Within(o, from, to, i) + IfWithin(o, from, to, i)
  {
    MemberOfWindow(o, from, to, i);
  }

  lemma {:induction false} BeforeSplit(o: Options, b: int, c: int, n: nat)
    requires Valid(o.anchor) && Steady(o.zone) && n > 0 && Start(o, n - 1) < b
    ensures Within(o, b, c, n) == []
  {
    hide Start, Steady, Member, Collect;
    var w := Window(o, b, c);
    forall j: nat | j < n ensures !Wanted(w)(j) {
      MemberOfWindow(o, b, c, j);
      if j < n - 1 { StartsIncrease(o, j, n - 1); }
    }
    NothingMore(w, Wanted(w), 0, n);
    NoDays(w, Wanted(w));
  }

  lemma NoDays(o: Options, p: nat -> bool)
    requires Valid(o.anchor)
    ensures Collect(o, p, 0) == []
  {
  }

  /** A start falls in one of two adjoining windows when it falls in their union. */
  lemma OneOfTwo(o: Options, a: int, b: int, c: int, i: nat)
    requires Valid(o.anchor) && a <= b <= c
    ensures IfWithin(o, a, c, i) == if Start(o, i) < b then IfWithin(o, a, b, i) else IfWithin(o, b, c, i)
    ensures Start(o, i) < b ==> IfWithin(o, b, c, i) == []
    ensures b <= Start(o, i) ==> IfWithin(o, a, b, i) == []
  {
  }

  /** Two lists and their concatenation, each longer by what one more day adds. */
  lemma OneMoreDay<T>(whole: seq<T>, x: seq<T>, first: seq<T>, inFirst: seq<T>, second: seq<T>, inSecond: seq<T>, early: bool)
    requires whole == first + second && x == if early then inFirst else inSecond
    requires if early then second + inSecond == [] else inFirst == []
    ensures whole + x == (first + inFirst) + (second + inSecond)
  {
    if early {
      assert |second + inSecond| == |second| + |inSecond|;
      assert second == [] && inSecond == [];
    }
  }

  lemma NothingWithin(o: Options, from: int, to: int)
    requires Valid(o.anchor)
    ensures Within(o, from, to, 0) == []
  {
  }

  lemma {:induction false} WindowsJoin(o: Options, a: int, b: int, c: int, n: nat)
    requires Valid(o.anchor) && Steady(o.zone) && a <= b <= c
    ensures Within(o, a, c, n) == Within(o, a, b, n) + Within(o, b, c, n)
  {
    hide *;
    if n == 0 {
      NothingWithin(o, a, b);
      NothingWithin(o, b, c);
      NothingWithin(o, a, c);
    } else {
      WindowsJoin(o, a, b, c, n - 1);
      DayWithin(o, a, b, n - 1);
      DayWithin(o, b, c, n - 1);
      DayWithin(o, a, c, n - 1);
      OneOfTwo(o, a, b, c, n - 1);
      if Start(o, n - 1) < b { BeforeSplit(o, b, c, n); }
      OneMoreDay(Within(o, a, c, n - 1), IfWithin(o, a, c, n - 1), Within(o, a, b, n - 1), IfWithin(o, a, b, n - 1),
                 Within(o, b, c, n - 1), IfWithin(o, b, c, n - 1), Start(o, n - 1) < b);
    }
  }

  /** Expanding two adjoining windows and concatenating is expanding their union. */
  lemma IdealSplits(o: Options, a: int, b: int, c: int)
    requires Valid(o.anchor) && Steady(o.zone) && a <= b <= c
    ensures Ideal(Window(o, a, c)) == Ideal(Window(o, a, b)) + Ideal(Window(o, b, c))
  {
    WindowsJoin(o, a, b, c, CAP);
  }

  /** So do two calls of the expander, when neither window nor their union loses anything. */
  lemma CallsSplit(o: Options, a: int, b: int, c: int)
    requires Valid(o.anchor) && Steady(o.zone) && a <= b <= c
    requires !Loses(Window(o, a, b)) && !Loses(Window(o, b, c)) && !Loses(Window(o, a, c))
    ensures Collect(Window(o, a, c), Kept(Window(o, a, c)), CAP)
         == Collect(Window(o, a, b), Kept(Window(o, a, b)), CAP) + Collect(Window(o, b, c), Kept(Window(o, b, c)), CAP)
  {
    IdealSplits(o, a, b, c);
    WalkIsIdealExactlyWhen(Window(o, a, b));
    WalkIsIdealExactlyWhen(Window(o, b, c));
    WalkIsIdealExactlyWhen(Window(o, a, c));
  }

  /** Expanding two adjoining windows is expanding their union. */
  predicate Splits(o: Options, a: int, b: int, c: int)
    requires Valid(o.anchor)
  {
    Expanded(o, a, c) == Expanded(o, a, b) + Expanded(o, b, c)
  }

  /** A window that ends after the last day of the walk loses nothing. */
  lemma FarWindowKeeps(o: Options, from: int, to: int)
    requires Valid(o.anchor) && Midnight(o, CAP) <= to
    ensures Expanded(o, from, to) == Ideal(Window(o, from, to))
  {
    var w := Window(o, from, to);
    forall i: nat | i < CAP ensures !LosesDay(w, i) { assert Midnight(w, i) <= Midnight(o, CAP); }
    WalkIsIdealExactlyWhen(w);
  }

  /** If one window loses an instance, extending it on the right by a second call never brings it back. */
  lemma LossIsSeen(o: Options, a: int, b: int, c: int)
    requires Valid(o.anchor) && Steady(o.zone) && a <= b <= c && Midnight(o, CAP) <= c
    requires Loses(Window(o, a, b))
    ensures !Splits(o, a, b, c)
  {
    hide Collect, Member, Start, Loses, Steady;
    FarWindowKeeps(o, a, c);
    FarWindowKeeps(o, b, c);
    IdealSplits(o, a, b, c);
    LosesFewer(Window(o, a, b));
  }

  lemma LosesFewer(o: Options)
    requires Valid(o.anchor) && Loses(o)
    ensures |Collect(o, Kept(o), CAP)| < |Ideal(o)|
  {
    FewerKept(o, CAP);
    var i: nat :| i < CAP && LosesDay(o, i);
    assert Kept(o)(i) != Wanted(o)(i);
  }

  /** Calls for adjoining windows always join into the call for their union exactly under the same
      condition. */
  lemma CallsSplitExactlyWhen(o: Options)
    requires Valid(o.anchor) && Steady(o.zone)
    ensures (forall a, b, c :: a <= b <= c ==> Splits(o, a, b, c)) <==> o.rule.count.Some? || StartsOnItsDate(o)
  {
    hide Collect, Member, Start, Loses, Steady;
    if o.rule.count.Some? || StartsOnItsDate(o) {
      forall a, b, c | a <= b <= c ensures Splits(o, a, b, c) {
        OnDateIsKept(o, a, b);
        OnDateIsKept(o, b, c);
        OnDateIsKept(o, a, c);
        CallsSplit(o, a, b, c);
      }
    } else {
      var i: nat :| 1 <= i < CAP && Member(o, i) && !(Midnight(o, i) <= Start(o, i) + 1);
      var a, b := Start(o, i), Start(o, i) + 1;
      var c := if b <= Midnight(o, CAP) then Midnight(o, CAP) else b;
      EarlyDayIsLost(o, i);
      LossIsSeen(o, a, b, c);
    }
  }
}
