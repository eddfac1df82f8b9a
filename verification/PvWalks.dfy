/**
 Two walkers along a returned variation: `build_adaptive_forcing_resolution` of
 mcp_server/analysis/forensic_extensions.py, which stops where the forcing play is
 over, and `build_reply_materialization_trace` of
 mcp_server/analysis/reply_materialization.py, which goes on to the end.
 */
module PvWalks {
  import opened Options

  type Position = nat
  type Move = string

  // What the walkers ask about a game, with material seen from one side.
  datatype Rules = Rules(
    after: (Position, Move) -> Option<Position>,   // none for text that is not a legal move
    check: (Position, Move) -> bool,
    capture: (Position, Move) -> bool,
    promotion: Move -> bool,
    balance: Position -> int,
    over: Position -> bool,
    mate: Position -> bool,
    drawn: Position -> bool,                       // over by repetition, stalemate or material
    inCheck: Position -> bool,
    forcingAvailable: Position -> bool)

  // Checkmate ends the game.
  ghost predicate Lawful(rules: Rules) {
    forall p :: rules.mate(p) ==> rules.over(p)
  }

  datatype Step = Step(
    ply: nat, move: Move, check: bool, capture: bool, promotion: bool, change: int, cumulative: int)

  const PAWN_VALUE := 100

  /* ---------- the line both walkers follow ---------- */

  function StepAt(rules: Rules, start: Position, from: Position, to: Position, move: Move, ply: nat): Step {
    Step(ply, move, rules.check(from, move), rules.capture(from, move), rules.promotion(move),
         rules.balance(to) - rules.balance(from), rules.balance(to) - rules.balance(start))
  }

  // How many moves of the line can be played before the game is over or the text
  // makes no sense, and where that leads.
  function Reached(rules: Rules, start: Position, pv: seq<Move>, n: nat): Option<Position>
    requires n <= |pv|
  {
    if n == 0 then Some(start)
    else
      var before := Reached(rules, start, pv, n - 1);
      if before == None || (n > 1 && rules.over(before.value)) then None else rules.after(before.value, pv[n - 1])
  }

  predicate Playable(rules: Rules, start: Position, pv: seq<Move>, n: nat)
    requires n <= |pv|
  {
    Reached(rules, start, pv, n).Some?
  }

  function Line(rules: Rules, start: Position, pv: seq<Move>, n: nat): (steps: seq<Step>)
    requires n <= |pv| && Playable(rules, start, pv, n)
    ensures |steps| == n
  {
    if n == 0 then []
    else
      Line(rules, start, pv, n - 1) +
      [StepAt(rules, start, Reached(rules, start, pv, n - 1).value, Reached(rules, start, pv, n).value, pv[n - 1], n)]
  }

  // What a step of the line says: its ply and move, what the move is where it is
  // played, and the balance after it against the balance before it and at the start.
  lemma {:induction false} StepsOfTheLine(rules: Rules, start: Position, pv: seq<Move>, n: nat, i: nat)
    requires i < n <= |pv| && Playable(rules, start, pv, n)
    ensures Playable(rules, start, pv, i) && Playable(rules, start, pv, i + 1)
    ensures var step := Line(rules, start, pv, n)[i];
            var from, to := Reached(rules, start, pv, i).value, Reached(rules, start, pv, i + 1).value;
            && step.ply == i + 1 && step.move == pv[i] && rules.after(from, pv[i]) == Some(to)
            && (step.check <==> rules.check(from, pv[i]))
            && (step.capture <==> rules.capture(from, pv[i]))
            && (step.promotion <==> rules.promotion(pv[i]))
            && rules.balance(to) == rules.balance(from) + step.change == rules.balance(start) + step.cumulative
  {
    if i < n - 1 {
      StepsOfTheLine(rules, start, pv, n - 1, i);
    }
  }

  // The first ply with the balance a pawn or more below the start.
  function FirstLoss(steps: seq<Step>): (ply: Option<nat>)
    ensures ply.Some? ==> 1 <= ply.value <= |steps|
  {
    if steps == [] then None
    else
      var before := FirstLoss(steps[..|steps| - 1]);
      if before.Some? then before
      else if steps[|steps| - 1].cumulative <= -PAWN_VALUE then Some(|steps|)
      else None
  }

  // How much is lost at that ply.
  function LossCp(steps: seq<Step>): Option<int> {
    var ply := FirstLoss(steps);
    if ply == None then None else Some(steps[ply.value - 1].cumulative)
  }

  lemma {:induction false} FirstLossIsTheFirst(steps: seq<Step>, i: nat)
    requires i < |steps|
    ensures FirstLoss(steps) == Some(i + 1) <==>
            steps[i].cumulative <= -PAWN_VALUE && forall j | 0 <= j < i :: steps[j].cumulative > -PAWN_VALUE
    ensures FirstLoss(steps) == None ==> steps[i].cumulative > -PAWN_VALUE
  {
    var before := steps[..|steps| - 1];
    if i < |before| {
      FirstLossIsTheFirst(before, i);
    } else {
      forall j | 0 <= j < i
        ensures FirstLoss(before) == None ==> steps[j].cumulative > -PAWN_VALUE
      {
        FirstLossIsTheFirst(before, j);
      }
      if FirstLoss(before).Some? {
        FirstLossIsTheFirst(before, FirstLoss(before).value - 1);
      }
    }
  }

  predicate Material(step: Step) { step.capture || step.promotion }

  predicate Forcing(step: Step) { step.check || Material(step) }

  predicate AnyForcing(steps: seq<Step>) {
    exists i | 0 <= i < |steps| :: steps[i].check || steps[i].capture || steps[i].promotion
  }

  predicate AnyMaterial(steps: seq<Step>) {
    exists i | 0 <= i < |steps| :: steps[i].capture || steps[i].promotion
  }

  /* ---------- the walkers ---------- */

  datatype Reason =
    | NoPv | PvExhausted | InvalidPvMove | TerminalPosition
    | RepetitionOrDraw | ForcedMate | MaterialResolution | QuietPosition

  datatype Walk = Walk(steps: seq<Step>, firstLoss: Option<nat>, reason: Reason)

  // Why a walk along the whole line ends after n moves.
  predicate WholeLine(rules: Rules, start: Position, pv: seq<Move>, n: nat, reason: Reason)
    requires n <= |pv| && Playable(rules, start, pv, n)
  {
    match reason
    case NoPv => pv == []
    case PvExhausted => n == |pv| > 0 && !rules.over(Reached(rules, start, pv, n).value)
    case TerminalPosition => n > 0 && rules.over(Reached(rules, start, pv, n).value)
    case InvalidPvMove =>
      && n < |pv| && !Playable(rules, start, pv, n + 1)
      && (n > 0 ==> !rules.over(Reached(rules, start, pv, n).value))
    case _ => false
  }

  // What the trace promises: the line as far as it can be played.
  ghost predicate TraceWalk(rules: Rules, start: Position, pv: seq<Move>, walk: Walk) {
    var n := |walk.steps|;
    && n <= |pv| && Playable(rules, start, pv, n)
    && walk.steps == Line(rules, start, pv, n) && walk.firstLoss == FirstLoss(walk.steps)
    && WholeLine(rules, start, pv, n, walk.reason)
  }

  // A walker after n moves.
  ghost predicate Walked(rules: Rules, start: Position, pv: seq<Move>, n: nat, work: Position, steps: seq<Step>) {
    && n <= |pv| && Reached(rules, start, pv, n) == Some(work)
    && steps == Line(rules, start, pv, n)
    && (n > 0 ==> !rules.over(work))
  }

  lemma WalkOn(rules: Rules, start: Position, pv: seq<Move>, n: nat, work: Position, steps: seq<Step>)
    requires Walked(rules, start, pv, n, work, steps) && n < |pv|
    ensures var next := rules.after(work, pv[n]);
            && Reached(rules, start, pv, n + 1) == next
            && (next.Some? ==>
                  steps + [StepAt(rules, start, work, next.value, pv[n], n + 1)] == Line(rules, start, pv, n + 1))
  {
  }

  lemma AddStep(steps: seq<Step>, step: Step)
    ensures FirstLoss(steps + [step]) ==
            if FirstLoss(steps).Some? then FirstLoss(steps)
            else if step.cumulative <= -PAWN_VALUE then Some(|steps| + 1) else None
  {
    var longer := steps + [step];
    assert longer[..|steps|] == steps && longer[|steps|] == step;
  }

  lemma AddSeen(steps: seq<Step>, step: Step)
    ensures AnyForcing(steps + [step]) <==> AnyForcing(steps) || Forcing(step)
    ensures AnyMaterial(steps + [step]) <==> AnyMaterial(steps) || Material(step)
  {
    var longer := steps + [step];
    assert longer[|steps|] == step;
    assert forall i | 0 <= i < |steps| :: longer[i] == steps[i];
  }

  lemma AddLoss(steps: seq<Step>, step: Step)
    ensures LossCp(steps + [step]) ==
            if FirstLoss(steps).Some? || step.cumulative > -PAWN_VALUE then LossCp(steps) else Some(step.cumulative)
  {
    AddStep(steps, step);
  }

  method MakeStep(rules: Rules, start: Position, from: Position, to: Position, move: Move, ply: nat) returns (step: Step)
    ensures step == StepAt(rules, start, from, to, move, ply)
  {
    var before, after := rules.balance(from), rules.balance(to);
    step := Step(ply, move, rules.check(from, move), rules.capture(from, move), rules.promotion(move),
                 after - before, after - rules.balance(start));
  }

  // One move of either walker, if the text is a legal move.
  method TakeStep(rules: Rules, start: Position, pv: seq<Move>, n: nat, work: Position, steps: seq<Step>, loss: Option<nat>)
    returns (next: Option<Position>, longer: seq<Step>, firstLoss: Option<nat>)
    requires Walked(rules, start, pv, n, work, steps) && n < |pv| && loss == FirstLoss(steps)
    ensures next == Reached(rules, start, pv, n + 1)
    ensures next == None ==> longer == steps && firstLoss == loss
    ensures next.Some? ==>
              && longer == Line(rules, start, pv, n + 1) && firstLoss == FirstLoss(longer)
              && longer == steps + [longer[n]]
              && LossCp(longer) == if loss.Some? || firstLoss == None then LossCp(steps) else Some(longer[n].cumulative)
  {
    WalkOn(rules, start, pv, n, work, steps);
    next := rules.after(work, pv[n]);
    longer, firstLoss := steps, loss;
    if next.Some? {
      var step := MakeStep(rules, start, work, next.value, pv[n], n + 1);
      if firstLoss == None && step.cumulative <= -PAWN_VALUE {
        firstLoss := Some(n + 1);
      }
      AddStep(steps, step);
      AddLoss(steps, step);
      longer := steps + [step];
    }
  }

  method MaterializationTrace(rules: Rules, start: Position, pv: seq<Move>)
    returns (walk: Walk, finalChange: int, lossCp: Option<int>, complete: bool)
    ensures TraceWalk(rules, start, pv, walk)
    ensures finalChange == rules.balance(Reached(rules, start, pv, |walk.steps|).value) - rules.balance(start)
    ensures complete <==> walk.reason != InvalidPvMove
    ensures lossCp == LossCp(walk.steps)
  {
    var work := start;
    var steps: seq<Step> := [];
    var firstLoss: Option<nat> := None;
    var reason := if pv == [] then NoPv else PvExhausted;
    lossCp, complete := None, true;
    for ply := 1 to |pv| + 1
      invariant reason == (if pv == [] then NoPv else PvExhausted) && complete
      invariant Walked(rules, start, pv, ply - 1, work, steps) && firstLoss == FirstLoss(steps)
      invariant lossCp == LossCp(steps)
    {
      var next;
      var loss := firstLoss;
      next, steps, firstLoss := TakeStep(rules, start, pv, ply - 1, work, steps, loss);
      if next == None {
        complete := false;
        reason := InvalidPvMove;
        break;
      }
      work := next.value;
      if loss == None && firstLoss.Some? {
        lossCp := Some(steps[ply - 1].cumulative);
      }
      if rules.over(work) {
        reason := TerminalPosition;
        break;
      }
    }
    walk := Walk(steps, firstLoss, reason);
    finalChange := rules.balance(work) - rules.balance(start);
  }

  // The forcing play is over after n moves.
  predicate Quiet(rules: Rules, start: Position, pv: seq<Move>, n: nat)
    requires n <= |pv| && Playable(rules, start, pv, n)
  {
    var p := Reached(rules, start, pv, n).value;
    AnyForcing(Line(rules, start, pv, n)) && !rules.inCheck(p) && !rules.forcingAvailable(p)
  }

  ghost predicate NotQuietBefore(rules: Rules, start: Position, pv: seq<Move>, n: nat)
    requires n <= |pv| + 1
  {
    forall m | 0 < m < n && Playable(rules, start, pv, m) :: !Quiet(rules, start, pv, m)
  }

  lemma NotQuietYet(rules: Rules, start: Position, pv: seq<Move>, n: nat)
    requires n <= |pv| && NotQuietBefore(rules, start, pv, n)
    requires Playable(rules, start, pv, n) ==> !Quiet(rules, start, pv, n)
    ensures NotQuietBefore(rules, start, pv, n + 1)
  {
  }

  // Why the adaptive walk ends after n moves.
  predicate Resolution(rules: Rules, start: Position, pv: seq<Move>, n: nat, reason: Reason)
    requires n <= |pv| && Playable(rules, start, pv, n)
  {
    var p := Reached(rules, start, pv, n).value;
    match reason
    case ForcedMate => n > 0 && rules.mate(p)
    case RepetitionOrDraw => n > 0 && !rules.mate(p) && rules.over(p) && rules.drawn(p)
    case TerminalPosition => n > 0 && !rules.mate(p) && rules.over(p) && !rules.drawn(p)
    case MaterialResolution =>
      n > 0 && !rules.over(p) && Quiet(rules, start, pv, n) && AnyMaterial(Line(rules, start, pv, n))
    case QuietPosition =>
      n > 0 && !rules.over(p) && Quiet(rules, start, pv, n) && !AnyMaterial(Line(rules, start, pv, n))
    case _ => WholeLine(rules, start, pv, n, reason)
  }

  // What the adaptive walk promises: the line up to the first quiet point.
  ghost predicate AdaptiveWalk(rules: Rules, start: Position, pv: seq<Move>, walk: Walk) {
    var n := |walk.steps|;
    && n <= |pv| && Playable(rules, start, pv, n)
    && walk.steps == Line(rules, start, pv, n) && walk.firstLoss == FirstLoss(walk.steps)
    && Resolution(rules, start, pv, n, walk.reason)
    && NotQuietBefore(rules, start, pv, n)
  }

  // The three ways to be resolved, in the order they are looked at.
  function Stop(rules: Rules, work: Position, forcingSeen: bool, materialSeen: bool): Option<Reason> {
    if rules.mate(work) then Some(ForcedMate)
    else if rules.over(work) then Some(if rules.drawn(work) then RepetitionOrDraw else TerminalPosition)
    else if forcingSeen && !rules.inCheck(work) && !rules.forcingAvailable(work) then
      Some(if materialSeen then MaterialResolution else QuietPosition)
    else None
  }

  lemma StopResolves(rules: Rules, start: Position, pv: seq<Move>, n: nat, work: Position, steps: seq<Step>)
    requires 0 < n <= |pv| && Reached(rules, start, pv, n) == Some(work) && steps == Line(rules, start, pv, n)
    requires Lawful(rules)
    ensures match Stop(rules, work, AnyForcing(steps), AnyMaterial(steps))
            case Some(reason) => Resolution(rules, start, pv, n, reason) && reason !in {NoPv, PvExhausted, InvalidPvMove}
            case None => !rules.over(work) && !Quiet(rules, start, pv, n)
  {
  }

  method AdaptiveForcingResolution(rules: Rules, start: Position, pv: seq<Move>) returns (walk: Walk, resolved: bool)
    requires Lawful(rules)
    ensures AdaptiveWalk(rules, start, pv, walk)
    ensures resolved <==> walk.reason !in {NoPv, PvExhausted, InvalidPvMove}
  {
    var work := start;
    var steps: seq<Step> := [];
    var firstLoss: Option<nat> := None;
    var forcingSeen, materialSeen := false, false;
    var reason := if pv == [] then NoPv else PvExhausted;
    resolved := false;
    for ply := 1 to |pv| + 1
      invariant reason == (if pv == [] then NoPv else PvExhausted) && !resolved
      invariant Walked(rules, start, pv, ply - 1, work, steps) && firstLoss == FirstLoss(steps)
      invariant forcingSeen <==> AnyForcing(steps)
      invariant materialSeen <==> AnyMaterial(steps)
      invariant NotQuietBefore(rules, start, pv, ply)
    {
      var next;
      ghost var before := steps;
      next, steps, firstLoss := TakeStep(rules, start, pv, ply - 1, work, steps, firstLoss);
      if next == None {
        reason := InvalidPvMove;
        break;
      }
      AddSeen(before, steps[ply - 1]);
      work := next.value;
      forcingSeen := forcingSeen || Forcing(steps[ply - 1]);
      materialSeen := materialSeen || Material(steps[ply - 1]);
      StopResolves(rules, start, pv, ply, work, steps);
      var stop := Stop(rules, work, forcingSeen, materialSeen);
      if stop.Some? {
        reason, resolved := stop.value, true;
        break;
      }
      NotQuietYet(rules, start, pv, ply);
    }
    walk := Walk(steps, firstLoss, reason);
  }

  /* ---------- the walkers agree ---------- */

  lemma {:induction false} PlayableEarlier(rules: Rules, start: Position, pv: seq<Move>, m: nat, n: nat)
    requires m < n <= |pv| && Playable(rules, start, pv, n)
    ensures Playable(rules, start, pv, m) && (m > 0 ==> !rules.over(Reached(rules, start, pv, m).value))
    decreases n
  {
    if m < n - 1 {
      PlayableEarlier(rules, start, pv, m, n - 1);
    }
  }

  lemma {:induction false} LinePrefix(rules: Rules, start: Position, pv: seq<Move>, m: nat, n: nat)
    requires m <= n <= |pv| && Playable(rules, start, pv, m) && Playable(rules, start, pv, n)
    ensures Line(rules, start, pv, m) <= Line(rules, start, pv, n)
    ensures FirstLoss(Line(rules, start, pv, m)).Some? ==>
              FirstLoss(Line(rules, start, pv, n)) == FirstLoss(Line(rules, start, pv, m))
    decreases n
  {
    if m < n {
      PlayableEarlier(rules, start, pv, n - 1, n);
      LinePrefix(rules, start, pv, m, n - 1);
      var all := Line(rules, start, pv, n);
      AddStep(all[..n - 1], all[n - 1]);
    }
  }

  // As far as the line can be played.
  predicate Furthest(rules: Rules, start: Position, pv: seq<Move>, n: nat)
    requires n <= |pv|
  {
    Playable(rules, start, pv, n) && (n == |pv| || !Playable(rules, start, pv, n + 1))
  }

  lemma NoneGoesFurther(rules: Rules, start: Position, pv: seq<Move>, n: nat, m: nat)
    requires n <= |pv| && m <= |pv| && Playable(rules, start, pv, n) && Furthest(rules, start, pv, m)
    ensures n <= m
  {
    if m + 1 < n {
      PlayableEarlier(rules, start, pv, m + 1, n);
    }
  }

  lemma WholeLineGoesFurthest(rules: Rules, start: Position, pv: seq<Move>, n: nat, reason: Reason)
    requires n <= |pv| && Playable(rules, start, pv, n) && WholeLine(rules, start, pv, n, reason)
    ensures Furthest(rules, start, pv, n)
  {
  }

  lemma UnlessQuietGoesFurthest(rules: Rules, start: Position, pv: seq<Move>, n: nat, reason: Reason)
    requires n <= |pv| && Playable(rules, start, pv, n) && Lawful(rules) && Resolution(rules, start, pv, n, reason)
    ensures reason !in {MaterialResolution, QuietPosition} ==> Furthest(rules, start, pv, n)
  {
  }

  // The trace goes as far as the line can be played, so the adaptive walk is its
  // beginning and finds the same first loss if it finds one; unless it stopped at a
  // quiet point the two walks are the same.
  lemma WalkersAgree(rules: Rules, start: Position, pv: seq<Move>, adaptive: Walk, trace: Walk)
    requires AdaptiveWalk(rules, start, pv, adaptive) && TraceWalk(rules, start, pv, trace) && Lawful(rules)
    ensures adaptive.steps <= trace.steps
    ensures adaptive.firstLoss.Some? ==> trace.firstLoss == adaptive.firstLoss
    ensures adaptive.reason !in {MaterialResolution, QuietPosition} ==>
              adaptive.steps == trace.steps && adaptive.firstLoss == trace.firstLoss
  {
    var n, m := |adaptive.steps|, |trace.steps|;
    WholeLineGoesFurthest(rules, start, pv, m, trace.reason);
    UnlessQuietGoesFurthest(rules, start, pv, n, adaptive.reason);
    NoneGoesFurther(rules, start, pv, n, m);
    LinePrefix(rules, start, pv, n, m);
    if Furthest(rules, start, pv, n) {
      NoneGoesFurther(rules, start, pv, m, n);
    }
  }

  function TotalChange(steps: seq<Step>): int {
    if steps == [] then 0 else TotalChange(steps[..|steps| - 1]) + steps[|steps| - 1].change
  }

  // The changes of the single plies add up to the cumulative change.
  lemma {:induction false} ChangesTelescope(rules: Rules, start: Position, pv: seq<Move>, n: nat)
    requires n <= |pv| && Playable(rules, start, pv, n)
    ensures TotalChange(Line(rules, start, pv, n)) ==
            rules.balance(Reached(rules, start, pv, n).value) - rules.balance(start)
    ensures n > 0 ==> Line(rules, start, pv, n)[n - 1].cumulative == TotalChange(Line(rules, start, pv, n))
  {
    if n > 0 {
      ChangesTelescope(rules, start, pv, n - 1);
      assert Line(rules, start, pv, n)[..n - 1] == Line(rules, start, pv, n - 1);
    }
  }
}
