/**
 The debouncer of mcp_server/analysis/game_coaching.py: `_position_state` turns a
 value into one of seven bands, `_confirm_segment_states` suppresses one-ply
 flicker between neighbouring bands by rewriting its own output.
 */
module SegmentStates {
  import opened Options

  datatype Band =
    | DecisivelyWorse | Worse | SlightlyWorse | ApproximatelyEqual
    | SlightlyBetter | Better | DecisivelyBetter

  function Rank(b: Band): nat {
    match b
    case DecisivelyWorse => 0
    case Worse => 1
    case SlightlyWorse => 2
    case ApproximatelyEqual => 3
    case SlightlyBetter => 4
    case Better => 5
    case DecisivelyBetter => 6
  }

  function PositionState(value: int): Band {
    if value >= 350 then DecisivelyBetter
    else if value >= 150 then Better
    else if value >= 60 then SlightlyBetter
    else if value > -60 then ApproximatelyEqual
    else if value > -150 then SlightlyWorse
    else if value > -350 then Worse
    else DecisivelyWorse
  }

  // The bounds of the bands: a value is in as high a band as it reaches bounds.
  const BOUNDS: set<int> := {-349, -149, -59, 60, 150, 350}

  lemma RankCountsBounds(value: int)
    ensures Rank(PositionState(value)) == |set b | b in BOUNDS && b <= value|
  {
    var reached := set b | b in BOUNDS && b <= value;
    if value >= 350 {
      assert reached == {-349, -149, -59, 60, 150, 350};
    } else if value >= 150 {
      assert reached == {-349, -149, -59, 60, 150};
    } else if value >= 60 {
      assert reached == {-349, -149, -59, 60};
    } else if value > -60 {
      assert reached == {-349, -149, -59};
    } else if value > -150 {
      assert reached == {-349, -149};
    } else if value > -350 {
      assert reached == {-349};
    } else {
      assert reached == {};
    }
  }

  function Distance(a: Band, b: Band): nat {
    if Rank(a) >= Rank(b) then Rank(a) - Rank(b) else Rank(b) - Rank(a)
  }

  predicate Decisive(b: Band) { b == DecisivelyBetter || b == DecisivelyWorse }

  // A change that is accepted at once.
  predicate Immediate(current: Band, observed: Band) {
    Distance(observed, current) >= 2 || Decisive(observed)
  }

  /* ---------- what is confirmed: a scan with one ply of lookahead ---------- */

  predicate Repeats(raw: seq<Band>, i: nat)
    requires i < |raw|
  {
    i + 1 < |raw| && raw[i + 1] == raw[i]
  }

  // The state confirmed for ply i + 1 when `current` is confirmed for ply i.
  function Next(raw: seq<Band>, i: nat, current: Band): Band
    requires i < |raw|
  {
    if raw[i] == current || Immediate(current, raw[i]) || Repeats(raw, i) then raw[i] else current
  }

  function Confirmed(raw: seq<Band>, i: nat): Band
    requires i < |raw|
  {
    if i == 0 then raw[0] else Next(raw, i, Confirmed(raw, i - 1))
  }

  function Settled(raw: seq<Band>): (s: seq<Band>) {
    seq(|raw|, i requires 0 <= i < |raw| => Confirmed(raw, i))
  }

  lemma SettledNext(raw: seq<Band>, i: nat)
    requires 0 < i < |raw|
    ensures Settled(raw)[i] == Next(raw, i, Settled(raw)[i - 1])
  {
  }

  // A new phase starts at ply p, counting plies from one.
  predicate ChangesAt(states: seq<Band>, p: int) {
    2 <= p <= |states| && states[p - 1] != states[p - 2]
  }

  // The ply at which the change at ply p is known for certain.
  function KnownAt(raw: seq<Band>, states: seq<Band>, p: int): int
    requires |raw| == |states| && 2 <= p <= |states|
  {
    if Immediate(states[p - 2], raw[p - 1]) then p else p + 1
  }

  // The bookkeeping of the changes among the first n plies: the keys are the plies
  // where the confirmed state changes, the values the plies where that is known.
  ghost predicate Records(raw: seq<Band>, states: seq<Band>, n: int, at: map<int, int>)
    requires |raw| == |states|
  {
    && (forall p :: p in at <==> p <= n && ChangesAt(states, p))
    && (forall p | p in at :: at[p] == KnownAt(raw, states, p))
  }

  // After n plies with no state pending, where s is what will be confirmed in the end.
  ghost predicate Decided(raw: seq<Band>, s: seq<Band>, n: int, confirmed: seq<Band>, current: Band, at: map<int, int>) {
    && 1 <= n <= |raw| == |s|
    && confirmed == s[..n] && current == s[n - 1]
    && Records(raw, s, n, at)
  }

  // After n plies of which the last shows a neighbouring state for the first time.
  ghost predicate Waiting(raw: seq<Band>, s: seq<Band>, n: int, confirmed: seq<Band>, current: Band, at: map<int, int>) {
    && 2 <= n <= |raw| == |s|
    && confirmed == s[..n - 1] + [current] && current == s[n - 2]
    && current != raw[n - 1] && !Immediate(current, raw[n - 1])
    && Records(raw, s, n - 1, at)
  }

  // A pending state that the next ply does not repeat was flicker.
  lemma FlickerIsDropped(raw: seq<Band>, s: seq<Band>, n: int, confirmed: seq<Band>, current: Band, at: map<int, int>)
    requires Waiting(raw, s, n, confirmed, current, at)
    requires s[n - 1] == Next(raw, n - 1, s[n - 2]) && !Repeats(raw, n - 1)
    ensures Decided(raw, s, n, confirmed, current, at)
  {
    assert s[n - 1] == current;
    assert !ChangesAt(s, n);
  }

  lemma SameStateStays(raw: seq<Band>, s: seq<Band>, n: int, confirmed: seq<Band>, current: Band, at: map<int, int>)
    requires Decided(raw, s, n, confirmed, current, at)
    requires n < |raw| && s[n] == Next(raw, n, s[n - 1]) && raw[n] == current
    ensures Decided(raw, s, n + 1, confirmed + [current], current, at)
  {
    assert !ChangesAt(s, n + 1);
  }

  lemma JumpIsTakenAtOnce(raw: seq<Band>, s: seq<Band>, n: int, confirmed: seq<Band>, current: Band, at: map<int, int>)
    requires Decided(raw, s, n, confirmed, current, at)
    requires n < |raw| && s[n] == Next(raw, n, s[n - 1])
    requires raw[n] != current && Immediate(current, raw[n])
    ensures Decided(raw, s, n + 1, confirmed + [raw[n]], raw[n], at[n + 1 := n + 1])
  {
    assert ChangesAt(s, n + 1);
  }

  lemma SecondSightingConfirms(raw: seq<Band>, s: seq<Band>, n: int, confirmed: seq<Band>, current: Band,
                               at: map<int, int>, rewritten: seq<Band>)
    requires Waiting(raw, s, n, confirmed, current, at)
    requires n < |raw| && raw[n] == raw[n - 1]
    requires s[n - 1] == Next(raw, n - 1, s[n - 2]) && s[n] == Next(raw, n, s[n - 1])
    requires rewritten == confirmed[..n - 1] + [raw[n], raw[n]]
    ensures Decided(raw, s, n + 1, rewritten, raw[n], at[n := n + 1])
  {
    assert s[n - 1] == s[n] == raw[n];
    assert ChangesAt(s, n) && !ChangesAt(s, n + 1);
  }

  // The retroactive rewrite of everything from a ply on.
  method RewriteFrom(confirmed: seq<Band>, start: nat, state: Band) returns (rewritten: seq<Band>)
    requires start <= |confirmed|
    ensures rewritten == confirmed[..start] + seq(|confirmed| - start, _ => state)
  {
    rewritten := confirmed;
    for i := start to |confirmed|
      invariant |rewritten| == |confirmed|
      invariant forall j | 0 <= j < |confirmed| ::
                  rewritten[j] == if start <= j < i then state else confirmed[j]
    {
      rewritten := rewritten[i := state];
    }
  }

  lemma LastTwoRewritten(before: seq<Band>, current: Band, state: Band, rewritten: seq<Band>)
    requires before != []
    requires var last := |before| - 1; rewritten == (before + [current])[..last] + seq(2, _ => state)
    ensures rewritten == before[..|before| - 1] + [state, state]
  {
    assert (before + [current])[..|before| - 1] == before[..|before| - 1];
  }

  // The loop of the source: a pending state that is seen twice in a row rewrites
  // the output from the ply where it first appeared.
  method ConfirmSegmentStates(raw: seq<Band>) returns (confirmed: seq<Band>, confirmedPly: map<int, int>)
    ensures confirmed == Settled(raw)
    ensures Records(raw, Settled(raw), |raw|, confirmedPly)
  {
    if raw == [] {
      return [], map[];
    }
    ghost var s := Settled(raw);
    var current := raw[0];
    confirmed := [current];
    confirmedPly := map[];
    var pending: Option<Band> := None;
    var pendingStart := 0;
    var pendingCount := 0;
    for idx := 1 to |raw|
      invariant pending == None ==>
                  pendingCount == 0 && Decided(raw, s, idx, confirmed, current, confirmedPly)
      invariant pending.Some? ==>
                  && pendingCount == 1 && pendingStart == idx && pending.value == raw[idx - 1]
                  && Waiting(raw, s, idx, confirmed, current, confirmedPly)
    {
      var ply := idx + 1;
      var observed := raw[idx];
      SettledNext(raw, idx);
      if pending.Some? {
        SettledNext(raw, idx - 1);
      }
      if pending.Some? && observed != pending.value {
        FlickerIsDropped(raw, s, idx, confirmed, current, confirmedPly);
      }
      if observed == current {
        SameStateStays(raw, s, idx, confirmed, current, confirmedPly);
        pending, pendingStart, pendingCount := None, 0, 0;
        confirmed := confirmed + [current];
        continue;
      }
      if Immediate(current, observed) {
        JumpIsTakenAtOnce(raw, s, idx, confirmed, current, confirmedPly);
        current := observed;
        confirmedPly := confirmedPly[ply := ply];
        pending, pendingStart, pendingCount := None, 0, 0;
        confirmed := confirmed + [current];
        continue;
      }
      if pending == Some(observed) {
        pendingCount := pendingCount + 1;
      } else {
        pending := Some(observed);
        pendingStart := ply;
        pendingCount := 1;
      }
      ghost var before := confirmed;
      confirmed := confirmed + [current];
      if pendingCount < 2 {
        continue;
      }
      confirmed := RewriteFrom(confirmed, pendingStart - 1, observed);
      LastTwoRewritten(before, current, observed, confirmed);
      SecondSightingConfirms(raw, s, idx, before, current, confirmedPly, confirmed);
      current := observed;
      confirmedPly := confirmedPly[pendingStart := ply];
      pending, pendingStart, pendingCount := None, 0, 0;
    }
    if pending.Some? {
      SettledNext(raw, |raw| - 1);
      FlickerIsDropped(raw, s, |raw|, confirmed, current, confirmedPly);
    }
    assert confirmed == s;
  }

  /* ---------- what the debouncer promises ---------- */

  // Where the confirmed state is not the raw one, the raw state is a neighbouring
  // band, not a decisive one, and does not last.
  lemma DiffersOnlyByFlicker(raw: seq<Band>, i: nat)
    requires i < |raw| && Confirmed(raw, i) != raw[i]
    ensures i > 0 && Confirmed(raw, i) == Confirmed(raw, i - 1)
    ensures Distance(raw[i], Confirmed(raw, i)) == 1 && !Decisive(raw[i]) && !Repeats(raw, i)
  {
    RankIsInjective(raw[i], Confirmed(raw, i));
  }

  lemma RankIsInjective(a: Band, b: Band)
    ensures Rank(a) == Rank(b) <==> a == b
  {
  }

  // A state that lasts two plies is confirmed on both.
  lemma LastingStatesAreConfirmed(raw: seq<Band>, i: nat)
    requires i < |raw| && Repeats(raw, i)
    ensures Confirmed(raw, i) == raw[i] && Confirmed(raw, i + 1) == raw[i]
  {
  }

  // A second pass over the confirmed states changes nothing.
  lemma {:induction false} DebouncingIsIdempotent(raw: seq<Band>, i: nat)
    requires i < |raw|
    ensures Confirmed(Settled(raw), i) == Confirmed(raw, i)
  {
    if i > 0 {
      DebouncingIsIdempotent(raw, i - 1);
      var current := Confirmed(raw, i - 1);
      if Confirmed(raw, i) != current && !Immediate(current, raw[i]) {
        LastingStatesAreConfirmed(raw, i);
      }
    }
  }

  lemma SettledIsIdempotent(raw: seq<Band>)
    ensures Settled(Settled(raw)) == Settled(raw)
  {
    forall i | 0 <= i < |raw|
      ensures Settled(Settled(raw))[i] == Settled(raw)[i]
    {
      DebouncingIsIdempotent(raw, i);
    }
  }

  // A change is to the raw state of its ply and is known at most one ply late.
  lemma ChangesAreKnownInTime(raw: seq<Band>, p: int)
    requires ChangesAt(Settled(raw), p)
    ensures Settled(raw)[p - 1] == raw[p - 1]
    ensures p <= KnownAt(raw, Settled(raw), p) <= |raw|
    ensures KnownAt(raw, Settled(raw), p) == p + 1 ==> raw[p] == raw[p - 1]
  {
    SettledNext(raw, p - 1);
  }

  // No look-ahead beyond the next ply: what is confirmed of a ply can be decided
  // once the next ply is known.
  lemma {:induction false} DecidedByTheNextPly(raw: seq<Band>, other: seq<Band>, i: nat)
    requires i < |raw| && i < |other| && raw[..i + 1] == other[..i + 1]
    requires i + 1 < |raw| <==> i + 1 < |other|
    requires i + 1 < |raw| ==> raw[i + 1] == other[i + 1]
    ensures Confirmed(raw, i) == Confirmed(other, i)
  {
    assert raw[i] == raw[..i + 1][i] && other[i] == other[..i + 1][i];
    if i > 0 {
      assert raw[..i] == raw[..i + 1][..i] && other[..i] == other[..i + 1][..i];
      DecidedByTheNextPly(raw, other, i - 1);
    } else {
      assert raw[0] == other[0];
    }
  }

  /* ---------- the two players' views ---------- */

  function Mirror(b: Band): Band {
    match b
    case DecisivelyWorse => DecisivelyBetter
    case Worse => Better
    case SlightlyWorse => SlightlyBetter
    case ApproximatelyEqual => ApproximatelyEqual
    case SlightlyBetter => SlightlyWorse
    case Better => Worse
    case DecisivelyBetter => DecisivelyWorse
  }

  lemma StateOfTheOtherSide(value: int)
    ensures PositionState(-value) == Mirror(PositionState(value))
  {
  }

  lemma MirrorKeepsSteps(a: Band, b: Band)
    ensures Immediate(Mirror(a), Mirror(b)) == Immediate(a, b)
    ensures Mirror(a) == Mirror(b) <==> a == b
  {
  }

  // Seen from the other side the same plies change state, to the mirrored states.
  lemma {:induction false} ConfirmedFromTheOtherSide(raw: seq<Band>, seen: seq<Band>, i: nat)
    requires i < |raw| == |seen| && forall j | 0 <= j < |raw| :: seen[j] == Mirror(raw[j])
    ensures Confirmed(seen, i) == Mirror(Confirmed(raw, i))
  {
    if i > 0 {
      ConfirmedFromTheOtherSide(raw, seen, i - 1);
      MirrorKeepsSteps(Confirmed(raw, i - 1), raw[i]);
      if i + 1 < |raw| {
        MirrorKeepsSteps(raw[i + 1], raw[i]);
      }
    }
  }
}
