/**
 `_build_segments` of mcp_server/analysis/game_coaching.py: the confirmed states
 of a game are cut into phases, each with its extremes, the ply that caused it,
 the ply that confirmed it and how stable it was.
 */
module GameSegments {
  import opened Options
  import opened SegmentStates

  datatype Stability = High | Medium | Low

  datatype GameSegment = GameSegment(
    start: nat,
    end: nat,
    state: Band,
    evalStart: int,
    evalEnd: int,
    peak: int,
    trough: int,
    cause: Option<int>,
    confirmed: Option<int>,
    stability: Stability,
    rawChanges: nat)

  /* ---------- stability of a phase ---------- */

  function RawChanges(raw: seq<Band>): nat {
    if |raw| <= 1 then 0
    else RawChanges(raw[..|raw| - 1]) + (if raw[|raw| - 2] != raw[|raw| - 1] then 1 else 0)
  }

  function Matching(raw: seq<Band>, state: Band): (n: nat)
    ensures n <= |raw|
  {
    if raw == [] then 0
    else Matching(raw[..|raw| - 1], state) + (if raw[|raw| - 1] == state then 1 else 0)
  }

  // The thresholds 0.8 and 0.6 as fractions.
  function SegmentStability(raw: seq<Band>, state: Band): Stability {
    if raw == [] then High
    else if 5 * Matching(raw, state) >= 4 * |raw| && RawChanges(raw) <= 1 then High
    else if 5 * Matching(raw, state) >= 3 * |raw| then Medium
    else Low
  }

  function MaxOf(values: seq<int>): (m: int)
    requires values != []
    ensures m in values && forall i | 0 <= i < |values| :: values[i] <= m
  {
    if |values| == 1 then values[0]
    else
      var rest := MaxOf(values[1..]);
      if values[0] >= rest then values[0] else rest
  }

  function MinOf(values: seq<int>): (m: int)
    requires values != []
    ensures m in values && forall i | 0 <= i < |values| :: m <= values[i]
  {
    if |values| == 1 then values[0]
    else
      var rest := MinOf(values[1..]);
      if values[0] <= rest then values[0] else rest
  }

  /* ---------- what a list of phases has to be ---------- */

  function RawStates(values: seq<int>): (raw: seq<Band>)
    requires values != []
  {
    seq(|values| - 1, i requires 0 <= i < |values| - 1 => PositionState(values[i + 1]))
  }

  // One phase, on plies `start` to `end` counted from one.
  ghost predicate IsRun(states: seq<Band>, s: GameSegment) {
    1 <= s.start <= s.end <= |states| && forall i | s.start - 1 <= i < s.end :: states[i] == s.state
  }

  ghost predicate Follows(s: GameSegment, next: GameSegment) {
    next.start == s.end + 1 && next.state != s.state
  }

  // The phases follow each other from ply 1 on and neighbours differ.
  ghost predicate Chained(segments: seq<GameSegment>) {
    && (segments != [] ==> segments[0].start == 1)
    && (forall k | 0 < k < |segments| :: Follows(segments[k - 1], segments[k]))
  }

  // The phases cut a sequence of states into its maximal runs.
  ghost predicate Runs(states: seq<Band>, segments: seq<GameSegment>) {
    && Chained(segments)
    && segments != [] && segments[|segments| - 1].end == |states|
    && forall k | 0 <= k < |segments| :: IsRun(states, segments[k])
  }

  function MakeSegment(values: seq<int>, raw: seq<Band>, start: nat, end: nat, state: Band, confirmed: Option<int>):
    (s: GameSegment)
    requires |values| == |raw| + 1 && 1 <= start <= end <= |raw|
  {
    GameSegment(
      start, end, state, values[start], values[end],
      MaxOf(values[start..end + 1]), MinOf(values[start..end + 1]),
      if start > 1 then Some(start) else None, confirmed,
      SegmentStability(raw[start - 1..end], state),
      RawChanges(raw[start - 1..end]))
  }

  // What is said about a phase: every phase but the first has a cause, its first ply,
  // and the ply that confirmed it.
  ghost predicate Reported(values: seq<int>, raw: seq<Band>, states: seq<Band>, s: GameSegment)
    requires |values| == |raw| + 1 == |states| + 1
  {
    && 1 <= s.start <= s.end <= |raw|
    && s == MakeSegment(values, raw, s.start, s.end, s.state,
                        if s.start > 1 then Some(KnownAt(raw, states, s.start)) else None)
  }

  ghost predicate AllReported(values: seq<int>, raw: seq<Band>, states: seq<Band>, segments: seq<GameSegment>)
    requires |values| == |raw| + 1 == |states| + 1
  {
    forall k {:trigger Reported(values, raw, states, segments[k])} | 0 <= k < |segments| ::
      Reported(values, raw, states, segments[k])
  }

  ghost predicate PhasesOf(values: seq<int>, raw: seq<Band>, states: seq<Band>, segments: seq<GameSegment>)
    requires |values| == |raw| + 1 == |states| + 1
  {
    Runs(states, segments) && AllReported(values, raw, states, segments)
  }

  /* ---------- the loop ---------- */

  // The phases that end before ply `start`, where the next one begins.
  ghost predicate CutUpTo(values: seq<int>, raw: seq<Band>, states: seq<Band>, segments: seq<GameSegment>, start: nat)
    requires |values| == |raw| + 1 == |states| + 1
  {
    && 1 <= start <= |states| + 1
    && Chained(segments) && AllReported(values, raw, states, segments)
    && (forall k | 0 <= k < |segments| :: IsRun(states, segments[k]))
    && (if segments == [] then start == 1
        else
          var last := segments[|segments| - 1];
          last.end + 1 == start && (start <= |states| ==> states[start - 1] != last.state))
  }

  lemma NextPhase(values: seq<int>, raw: seq<Band>, states: seq<Band>, segments: seq<GameSegment>, s: GameSegment)
    requires |values| == |raw| + 1 == |states| + 1
    requires CutUpTo(values, raw, states, segments, s.start)
    requires IsRun(states, s) && Reported(values, raw, states, s)
    requires s.end == |states| || states[s.end] != s.state
    ensures CutUpTo(values, raw, states, segments + [s], s.end + 1)
  {
    assert s.state == states[s.start - 1];
    ChainGrows(segments, s);
    ReportsGrow(values, raw, states, segments, s);
    forall k | 0 <= k <= |segments|
      ensures IsRun(states, (segments + [s])[k])
    {
      assert k < |segments| ==> (segments + [s])[k] == segments[k];
    }
  }

  lemma ChainGrows(segments: seq<GameSegment>, s: GameSegment)
    requires Chained(segments) && (segments == [] ==> s.start == 1)
    requires segments != [] ==> Follows(segments[|segments| - 1], s)
    ensures Chained(segments + [s])
  {
    var longer := segments + [s];
    forall k | 0 < k < |longer|
      ensures Follows(longer[k - 1], longer[k])
    {
      if k < |segments| {
        assert longer[k] == segments[k] && longer[k - 1] == segments[k - 1];
      }
    }
  }

  lemma ReportsGrow(values: seq<int>, raw: seq<Band>, states: seq<Band>, segments: seq<GameSegment>, s: GameSegment)
    requires |values| == |raw| + 1 == |states| + 1
    requires AllReported(values, raw, states, segments) && Reported(values, raw, states, s)
    ensures AllReported(values, raw, states, segments + [s])
  {
  }

  lemma CutToTheEnd(values: seq<int>, raw: seq<Band>, states: seq<Band>, segments: seq<GameSegment>)
    requires |values| == |raw| + 1 == |states| + 1 && states != []
    requires CutUpTo(values, raw, states, segments, |states| + 1)
    ensures PhasesOf(values, raw, states, segments)
  {
  }

  method AppendSegment(values: seq<int>, raw: seq<Band>, at: map<int, int>, segments: seq<GameSegment>,
                       start: nat, end: nat, state: Band, ghost states: seq<Band>) returns (longer: seq<GameSegment>)
    requires |values| == |raw| + 1 == |states| + 1 && Records(raw, states, |raw|, at)
    requires 1 <= start <= end <= |raw| && (start == 1 || ChangesAt(states, start))
    requires forall i | start - 1 <= i < end :: states[i] == state
    requires end == |states| || states[end] != state
    requires CutUpTo(values, raw, states, segments, start)
    ensures CutUpTo(values, raw, states, longer, end + 1)
  {
    var confirmed := if start > 1 && start in at then Some(at[start]) else None;
    var segment := MakeSegment(values, raw, start, end, state, confirmed);
    assert confirmed == if start > 1 then Some(KnownAt(raw, states, start)) else None;
    assert Reported(values, raw, states, segment);
    NextPhase(values, raw, states, segments, segment);
    longer := segments + [segment];
  }

  method CutIntoPhases(values: seq<int>, raw: seq<Band>, states: seq<Band>, at: map<int, int>)
    returns (segments: seq<GameSegment>)
    requires |values| == |raw| + 1 == |states| + 1 && states != [] && Records(raw, states, |raw|, at)
    ensures PhasesOf(values, raw, states, segments)
  {
    segments := [];
    var start := 1;
    var current := states[0];
    for ply := 2 to |values|
      invariant 1 <= start < ply && (start == 1 || ChangesAt(states, start))
      invariant forall i | start - 1 <= i < ply - 1 :: states[i] == current
      invariant CutUpTo(values, raw, states, segments, start)
    {
      var state := states[ply - 1];
      if state == current {
        continue;
      }
      segments := AppendSegment(values, raw, at, segments, start, ply - 1, current, states);
      start := ply;
      current := state;
    }
    segments := AppendSegment(values, raw, at, segments, start, |values| - 1, current, states);
    CutToTheEnd(values, raw, states, segments);
  }

  /* ---------- what a phase tells, in plain terms ---------- */

  // The plies that show a state, and those at which the raw state moves.
  function Showing(values: seq<int>, state: Band, start: nat, end: nat): set<nat>
    requires end < |values|
  {
    set p: nat | start <= p <= end && PositionState(values[p]) == state
  }

  function Moving(values: seq<int>, start: nat, end: nat): set<nat>
    requires end < |values|
  {
    set p: nat | start < p <= end && MovesAt(values, p)
  }

  predicate MovesAt(values: seq<int>, p: nat)
    requires 0 < p < |values|
  {
    PositionState(values[p]) != PositionState(values[p - 1])
  }

  // A change to this band is accepted at the ply where it shows.
  predicate AtOnce(before: Band, value: int) {
    || value >= 350 || value <= -350
    || Rank(PositionState(value)) >= Rank(before) + 2 || Rank(PositionState(value)) + 2 <= Rank(before)
  }

  ghost predicate TellsValues(values: seq<int>, s: GameSegment) {
    && 1 <= s.start <= s.end < |values|
    && s.evalStart == values[s.start] && s.evalEnd == values[s.end]
    && (forall p | s.start <= p <= s.end :: s.trough <= values[p] <= s.peak)
    && (exists p :: s.start <= p <= s.end && values[p] == s.peak)
    && (exists p :: s.start <= p <= s.end && values[p] == s.trough)
  }

  ghost predicate TellsCause(values: seq<int>, states: seq<Band>, s: GameSegment) {
    && 1 <= s.start <= |states| && s.start < |values|
    && if s.start == 1 then s.cause == None && s.confirmed == None
       else
         && s.cause == Some(s.start)
         && s.confirmed == Some(if AtOnce(states[s.start - 2], values[s.start]) then s.start else s.start + 1)
  }

  // Eight tenths of the plies show the state of a phase rated high, which moves once
  // at most; of one rated low less than six tenths do.
  ghost predicate TellsStability(values: seq<int>, s: GameSegment) {
    && 1 <= s.start <= s.end < |values|
    && s.rawChanges == |Moving(values, s.start, s.end)|
    && var plies, showing := s.end + 1 - s.start, |Showing(values, s.state, s.start, s.end)|;
       && (s.stability == High <==> 10 * showing >= 8 * plies && s.rawChanges <= 1)
       && (s.stability == Low <==> 10 * showing < 6 * plies)
  }

  // One ply more.
  lemma ShowingNext(values: seq<int>, state: Band, start: nat, end: nat)
    requires start < end < |values|
    ensures |Showing(values, state, start, end)| ==
            |Showing(values, state, start, end - 1)| + (if PositionState(values[end]) == state then 1 else 0)
  {
    var before := Showing(values, state, start, end - 1);
    if PositionState(values[end]) == state {
      assert Showing(values, state, start, end) == before + {end};
    } else {
      assert Showing(values, state, start, end) == before;
    }
  }

  lemma MovingNext(values: seq<int>, start: nat, end: nat)
    requires start < end < |values|
    ensures |Moving(values, start, end)| == |Moving(values, start, end - 1)| + (if MovesAt(values, end) then 1 else 0)
  {
    var before := Moving(values, start, end - 1);
    if MovesAt(values, end) {
      assert Moving(values, start, end) == before + {end};
    } else {
      assert Moving(values, start, end) == before;
    }
  }

  lemma {:induction false} MatchingCounts(values: seq<int>, state: Band, start: nat, end: nat, raw: seq<Band>)
    requires start <= end < |values| && |raw| == end + 1 - start
    requires forall i | 0 <= i < |raw| :: raw[i] == PositionState(values[start + i])
    ensures Matching(raw, state) == |Showing(values, state, start, end)|
    decreases end
  {
    var last := |raw| - 1;
    if last > 0 {
      MatchingCounts(values, state, start, end - 1, raw[..last]);
      ShowingNext(values, state, start, end);
    } else {
      assert raw[..0] == [];
      assert Showing(values, state, start, end) == if raw[0] == state then {end} else {};
    }
  }

  lemma {:induction false} ChangesCount(values: seq<int>, start: nat, end: nat, raw: seq<Band>)
    requires start <= end < |values| && |raw| == end + 1 - start
    requires forall i | 0 <= i < |raw| :: raw[i] == PositionState(values[start + i])
    ensures RawChanges(raw) == |Moving(values, start, end)|
    decreases end
  {
    var last := |raw| - 1;
    if last > 0 {
      ChangesCount(values, start, end - 1, raw[..last]);
      MovingNext(values, start, end);
      assert MovesAt(values, end) <==> raw[last - 1] != raw[last];
    } else {
      assert Moving(values, start, end) == {};
    }
  }

  lemma StretchOfStates(values: seq<int>, start: nat, end: nat, i: nat)
    requires 1 <= start <= end < |values| && i <= end - start
    ensures RawStates(values)[start - 1..end][i] == PositionState(values[start + i])
  {
  }

  lemma StabilityMeans(raw: seq<Band>, state: Band)
    requires raw != []
    ensures SegmentStability(raw, state) == High <==> 10 * Matching(raw, state) >= 8 * |raw| && RawChanges(raw) <= 1
    ensures SegmentStability(raw, state) == Low <==> 10 * Matching(raw, state) < 6 * |raw|
  {
  }

  lemma CountsInside(values: seq<int>, state: Band, start: nat, end: nat)
    requires 1 <= start <= end < |values|
    ensures var inside := RawStates(values)[start - 1..end];
            && Matching(inside, state) == |Showing(values, state, start, end)|
            && RawChanges(inside) == |Moving(values, start, end)|
  {
    var inside := RawStates(values)[start - 1..end];
    forall i | 0 <= i < |inside|
      ensures inside[i] == PositionState(values[start + i])
    {
      StretchOfStates(values, start, end, i);
    }
    MatchingCounts(values, state, start, end, inside);
    ChangesCount(values, start, end, inside);
  }

  lemma ReportTellsStability(values: seq<int>, states: seq<Band>, s: GameSegment)
    requires values != [] && |values| == |states| + 1 && Reported(values, RawStates(values), states, s)
    ensures TellsStability(values, s)
  {
    CountsInside(values, s.state, s.start, s.end);
    StabilityMeans(RawStates(values)[s.start - 1..s.end], s.state);
  }

  lemma ReportTellsValues(values: seq<int>, states: seq<Band>, s: GameSegment)
    requires values != [] && |values| == |states| + 1 && Reported(values, RawStates(values), states, s)
    ensures TellsValues(values, s)
  {
    SliceExtremes(values, s.start, s.end, s.peak, s.trough);
  }

  lemma SliceExtremes(values: seq<int>, start: nat, end: nat, peak: int, trough: int)
    requires start <= end < |values|
    requires peak == MaxOf(values[start..end + 1]) && trough == MinOf(values[start..end + 1])
    ensures forall p | start <= p <= end :: trough <= values[p] <= peak
    ensures exists p :: start <= p <= end && values[p] == peak
    ensures exists p :: start <= p <= end && values[p] == trough
  {
    var inside := values[start..end + 1];
    forall p | start <= p <= end
      ensures trough <= values[p] <= peak
    {
      assert inside[p - start] == values[p];
    }
    SliceReaches(values, start, end, peak);
    SliceReaches(values, start, end, trough);
  }

  lemma SliceReaches(values: seq<int>, start: nat, end: nat, value: int)
    requires start <= end < |values| && value in values[start..end + 1]
    ensures exists p :: start <= p <= end && values[p] == value
  {
    var i :| 0 <= i < end + 1 - start && values[start..end + 1][i] == value;
    assert values[start + i] == value;
  }

  lemma AtOnceMeans(before: Band, value: int)
    ensures Immediate(before, PositionState(value)) <==> AtOnce(before, value)
  {
  }

  lemma ReportTellsCause(values: seq<int>, states: seq<Band>, s: GameSegment)
    requires values != [] && |values| == |states| + 1 && Reported(values, RawStates(values), states, s)
    ensures TellsCause(values, states, s)
  {
    if s.start > 1 {
      AtOnceMeans(states[s.start - 2], values[s.start]);
    }
  }

  // The phases of a game, each with the extremes of its plies, its first and last
  // value, the ply that caused it and the ply that confirmed it, how often the raw
  // state moved and how stable it was.
  method BuildSegments(values: seq<int>) returns (segments: seq<GameSegment>)
    ensures |values| <= 1 ==> segments == []
    ensures |values| > 1 ==> PhasesOf(values, RawStates(values), Settled(RawStates(values)), segments)
    ensures forall k | 0 <= k < |segments| ::
              && TellsValues(values, segments[k]) && TellsStability(values, segments[k])
              && |values| > 1 && TellsCause(values, Settled(RawStates(values)), segments[k])
  {
    if |values| <= 1 {
      return [];
    }
    var raw := RawStates(values);
    var states, at := ConfirmSegmentStates(raw);
    segments := CutIntoPhases(values, raw, states, at);
    forall k | 0 <= k < |segments|
      ensures TellsValues(values, segments[k]) && TellsStability(values, segments[k])
      ensures TellsCause(values, states, segments[k])
    {
      assert Reported(values, raw, states, segments[k]);
      ReportTellsValues(values, states, segments[k]);
      ReportTellsStability(values, states, segments[k]);
      ReportTellsCause(values, states, segments[k]);
    }
  }

  /* ---------- what the phases say ---------- */

  function Expand(segments: seq<GameSegment>): seq<Band> {
    if segments == [] then []
    else
      var last := segments[|segments| - 1];
      Expand(segments[..|segments| - 1]) +
      seq(if last.end < last.start then 0 else last.end + 1 - last.start, _ => last.state)
  }

  // Writing every phase out again gives back the states.
  lemma {:induction false} ExpandTo(states: seq<Band>, segments: seq<GameSegment>, n: nat)
    requires Runs(states, segments) && 1 <= n <= |segments|
    ensures segments[n - 1].end <= |states| && Expand(segments[..n]) == states[..segments[n - 1].end]
  {
    var last := segments[n - 1];
    var run := seq(last.end + 1 - last.start, _ => last.state);
    assert segments[..n][..n - 1] == segments[..n - 1];
    assert IsRun(states, last);
    assert run == states[last.start - 1..last.end];
    if n > 1 {
      ExpandTo(states, segments, n - 1);
    }
    assert Expand(segments[..n]) == states[..last.start - 1] + run;
  }

  lemma PhasesExpandToConfirmed(states: seq<Band>, segments: seq<GameSegment>)
    requires Runs(states, segments)
    ensures Expand(segments) == states
  {
    ExpandTo(states, segments, |segments|);
    assert segments[..|segments|] == segments && states[..|states|] == states;
  }

  // Every ply lies in a phase,
  lemma {:induction false} PhaseAt(states: seq<Band>, segments: seq<GameSegment>, p: nat, n: nat) returns (k: nat)
    requires Runs(states, segments)
    requires 1 <= n <= |segments| && 1 <= p <= segments[n - 1].end
    ensures k < n && segments[k].start <= p <= segments[k].end
  {
    if segments[n - 1].start <= p {
      return n - 1;
    }
    k := PhaseAt(states, segments, p, n - 1);
  }

  // and only in one: an earlier phase ends before a later one starts.
  lemma {:induction false} PhasesAreOrdered(states: seq<Band>, segments: seq<GameSegment>, i: nat, j: nat)
    requires Runs(states, segments) && i < j < |segments|
    ensures segments[i].end < segments[j].start
    decreases j
  {
    if i < j - 1 {
      assert IsRun(states, segments[j - 1]);
      PhasesAreOrdered(states, segments, i, j - 1);
    }
  }

  // The phases begin exactly at ply 1 and where the state changes.
  lemma PhasesStartAtChanges(states: seq<Band>, segments: seq<GameSegment>, p: nat)
    requires Runs(states, segments) && 1 <= p <= |states|
    ensures (exists k | 0 <= k < |segments| :: segments[k].start == p) <==> p == 1 || ChangesAt(states, p)
  {
    var k := PhaseAt(states, segments, p, |segments|);
    assert IsRun(states, segments[k]);
    if segments[k].start == p && k > 0 {
      assert IsRun(states, segments[k - 1]);
      assert states[p - 2] == segments[k - 1].state && states[p - 1] == segments[k].state;
    } else if segments[k].start < p {
      assert states[p - 2] == states[p - 1];
      forall j | 0 <= j < |segments|
        ensures segments[j].start != p
      {
        assert IsRun(states, segments[j]);
        if j < k {
          PhasesAreOrdered(states, segments, j, k);
        } else if k < j {
          PhasesAreOrdered(states, segments, k, j);
        }
      }
    }
  }

  lemma NextPhaseDiffers(states: seq<Band>, segments: seq<GameSegment>, k: nat)
    requires Runs(states, segments) && k + 1 < |segments|
    ensures 1 <= segments[k].start <= segments[k].end < |states|
    ensures states[segments[k].end] != states[segments[k].start - 1]
  {
    assert IsRun(states, segments[k]) && IsRun(states, segments[k + 1]);
  }

  // There is only one way to cut a game into phases.
  lemma PhasesAreUnique(values: seq<int>, raw: seq<Band>, states: seq<Band>, a: seq<GameSegment>, b: seq<GameSegment>)
    requires |values| == |raw| + 1 == |states| + 1
    requires PhasesOf(values, raw, states, a) && PhasesOf(values, raw, states, b)
    ensures a == b
  {
    var n := if |a| <= |b| then |a| else |b|;
    SamePhases(values, raw, states, a, b, n);
    assert a[n - 1] == b[n - 1];
    if |a| < |b| {
      NextPhaseDiffers(states, b, n - 1);
    } else if |b| < |a| {
      NextPhaseDiffers(states, a, n - 1);
    }
  }

  lemma {:induction false} SamePhases(values: seq<int>, raw: seq<Band>, states: seq<Band>,
                                      a: seq<GameSegment>, b: seq<GameSegment>, n: nat)
    requires |values| == |raw| + 1 == |states| + 1
    requires PhasesOf(values, raw, states, a) && PhasesOf(values, raw, states, b) && n <= |a| && n <= |b|
    ensures forall k | 0 <= k < n :: a[k] == b[k]
  {
    if n > 0 {
      SamePhases(values, raw, states, a, b, n - 1);
      assert n > 1 ==> a[n - 2] == b[n - 2];
      SameStart(a, b, n - 1);
      NoLongerPhase(states, a, b, n - 1);
      NoLongerPhase(states, b, a, n - 1);
      SameReport(values, raw, states, a[n - 1], b[n - 1]);
    }
  }

  lemma SameStart(a: seq<GameSegment>, b: seq<GameSegment>, k: nat)
    requires Chained(a) && Chained(b) && k < |a| && k < |b| && (k > 0 ==> a[k - 1] == b[k - 1])
    ensures a[k].start == b[k].start
  {
    assert k > 0 ==> Follows(a[k - 1], a[k]) && Follows(b[k - 1], b[k]);
  }

  lemma SameReport(values: seq<int>, raw: seq<Band>, states: seq<Band>, s: GameSegment, t: GameSegment)
    requires |values| == |raw| + 1 == |states| + 1 && s.start == t.start && s.end == t.end
    requires IsRun(states, s) && IsRun(states, t) && Reported(values, raw, states, s) && Reported(values, raw, states, t)
    ensures s == t
  {
    assert s.state == states[s.start - 1] == t.state;
  }

  lemma NoLongerPhase(states: seq<Band>, a: seq<GameSegment>, b: seq<GameSegment>, k: nat)
    requires Runs(states, a) && Runs(states, b) && k < |a| && k < |b|
    requires a[k].start == b[k].start
    ensures b[k].end <= a[k].end
  {
    assert IsRun(states, a[k]) && IsRun(states, b[k]);
    if a[k].end < b[k].end {
      assert states[a[k].end] == b[k].state == states[a[k].start - 1];
      NextPhaseDiffers(states, a, k);
    }
  }

  /* ---------- stability of a phase, read off its plies ---------- */

  // Inside a phase the raw state moves at least once for every ply that flickers,
  // and not at all if none does.
  lemma {:induction false} FlickerCostsAChange(inside: seq<Band>, state: Band)
    requires inside != [] && inside[0] == state
    requires forall i | 0 < i < |inside| && inside[i] != state :: inside[i] != inside[i - 1]
    ensures |inside| - Matching(inside, state) <= RawChanges(inside)
    ensures Matching(inside, state) == |inside| ==> RawChanges(inside) == 0 && inside[|inside| - 1] == state
  {
    var last := |inside| - 1;
    if last > 0 {
      FlickerCostsAChange(inside[..last], state);
    } else {
      assert inside[..0] == [];
    }
  }

  lemma PhaseStartsAgreed(raw: seq<Band>, start: nat)
    requires 1 <= start <= |raw| && (start == 1 || ChangesAt(Settled(raw), start))
    ensures Settled(raw)[start - 1] == raw[start - 1]
  {
    if start > 1 {
      ChangesAreKnownInTime(raw, start);
    }
  }

  lemma FlickerFollowsAChange(raw: seq<Band>, i: nat)
    requires 0 < i < |raw| && raw[i] != Settled(raw)[i]
    ensures raw[i] != raw[i - 1]
  {
    if raw[i] == raw[i - 1] {
      LastingStatesAreConfirmed(raw, i - 1);
    }
  }

  // A phase is rated `high` exactly if the raw state never moved inside it, or moved
  // once in five plies or more.
  lemma HighStabilityMeansQuiet(raw: seq<Band>, states: seq<Band>, start: nat, end: nat, state: Band)
    requires states == Settled(raw)
    requires 1 <= start <= end <= |raw| && (start == 1 || ChangesAt(states, start))
    requires forall i | start - 1 <= i < end :: states[i] == state
    ensures var inside := raw[start - 1..end];
            SegmentStability(inside, state) == High <==>
            RawChanges(inside) == 0 || (RawChanges(inside) == 1 && |inside| >= 5)
  {
    var inside := raw[start - 1..end];
    PhaseStartsAgreed(raw, start);
    forall i | 0 < i < |inside| && inside[i] != state
      ensures inside[i] != inside[i - 1]
    {
      assert states[start - 1 + i] == state;
      FlickerFollowsAChange(raw, start - 1 + i);
    }
    FlickerCostsAChange(inside, state);
  }
}
