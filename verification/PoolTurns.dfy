/**
 In which order a pool hands its engines out, and what one crash costs a caller and
 the pool.
 */
module PoolTurns {
  import opened Options
  import opened EnginePool
  import opened PoolSafety

  /* ---------- first idle, first out ---------- */

  // The engine a step hands to a caller, and the one it makes idle, by what becomes of
  // the callers and the healer.
  function TakenBy(s: State, a: Action, s': State): seq<EngineId> {
    if a.Checkout? && PhaseOf(s', a.caller).Using? then [PhaseOf(s', a.caller).engine] else []
  }

  function FreedBy(s: State, a: Action, s': State): seq<EngineId> {
    if a.UseReturns? && PhaseOf(s, a.caller).Using? then [PhaseOf(s, a.caller).engine]
    else if a.RetryReturns? && PhaseOf(s, a.caller).Retrying? && PhaseOf(s', a.caller).Finished?
    then [PhaseOf(s, a.caller).engine]
    else if a.HealSpawnOk? && s'.healer == Sleeping then [s.next]
    else []
  }

  // All of them, in the order of the run.
  ghost function Taken(init: State, actions: seq<Action>): seq<EngineId>
    decreases |actions|
  {
    if actions == [] then []
    else
      var earlier := actions[..|actions| - 1];
      var before, after := Run(init, earlier), Run(init, actions);
      Taken(init, earlier) +
      if before.Some? && after.Some? then TakenBy(before.value, actions[|actions| - 1], after.value) else []
  }

  ghost function Freed(init: State, actions: seq<Action>): seq<EngineId>
    decreases |actions|
  {
    if actions == [] then []
    else
      var earlier := actions[..|actions| - 1];
      var before, after := Run(init, earlier), Run(init, actions);
      Freed(init, earlier) +
      if before.Some? && after.Some? then FreedBy(before.value, actions[|actions| - 1], after.value) else []
  }

  lemma RoomToReturn(s: State, c: CallerId)
    requires Capacity(s) && c in s.callers && s.callers[c].Using?
    ensures |s.queue| < s.target
  {
    assert c in Members(s.callers, IsUsing);
  }

  lemma StepTurns(s: State, a: Action, s': State)
    requires Inv(s) && Step(s, a) == Some(s') && s'.mode == Open
    ensures s.mode == Open && s.queue + FreedBy(s, a, s') == TakenBy(s, a, s') + s'.queue
  {
    match a
    case Checkout(c) => assert s.queue == [s.queue[0]] + s.queue[1..];
    case UseReturns(c) => RoomToReturn(s, c);
    case _ =>
  }

  lemma Shift(idle: seq<EngineId>, freed: seq<EngineId>, taken: seq<EngineId>, q: seq<EngineId>,
              more: seq<EngineId>, out: seq<EngineId>, q': seq<EngineId>)
    requires idle + freed == taken + q && q + more == out + q'
    ensures idle + (freed + more) == (taken + out) + q'
  {
    assert idle + (freed + more) == (idle + freed) + more;
    assert (taken + q) + more == taken + (q + more);
    assert taken + (out + q') == (taken + out) + q';
  }

  // In every run of an open pool engines are handed out in the order in which they
  // became idle, those of the beginning first: what was idle at first and became idle
  // since is what has been taken and what still waits, in that order.
  lemma {:induction false} EnginesTakeTurns(size: nat, actions: seq<Action>, s: State)
    requires Run(Init(size), actions) == Some(s) && s.mode == Open
    ensures Init(size).queue + Freed(Init(size), actions) == Taken(Init(size), actions) + s.queue
    decreases |actions|
  {
    var init := Init(size);
    if actions == [] {
      assert init.queue + [] == [] + init.queue;
    } else {
      var earlier, a := actions[..|actions| - 1], actions[|actions| - 1];
      var before := Run(init, earlier).value;
      InitInv(size);
      RunKeeps(init, earlier);
      StepTurns(before, a, s);
      EnginesTakeTurns(size, earlier, before);
      Shift(init.queue, Freed(init, earlier), Taken(init, earlier), before.queue,
            FreedBy(before, a, s), TakenBy(before, a, s), s.queue);
    }
  }

  /* ---------- one crash ---------- */

  lemma CrashedCallerIsMissed(s: State, c: CallerId)
    requires Capacity(s) && s.mode == Open && c in s.callers && s.callers[c].Using?
    ensures 0 < s.alive <= s.target && |s.queue| < s.target
  {
    RoomToReturn(s, c);
    assert c in Members(s.callers, IsUsing);
  }

  // A caller whose engine crashes can close it, have another made, run on that one and
  // give it to the pool, which then has as many engines as before: the dead one is
  // withdrawn, and the new one, which nobody has had yet, waits last in the queue.
  lemma CrashIsMadeGood(s: State, c: CallerId) returns (s': State)
    requires Reachable(s) && s.mode == Open && c in s.callers && s.callers[c].Using?
    ensures Run(s, [UseCrashes(c), Discarded(c), RespawnOk(c), RetryReturns(c)]) == Some(s')
    ensures s' == s.(queue := s.queue + [s.next], next := s.next + 1, retired := s.retired + {s.callers[c].engine},
                     callers := s.callers[c := Finished])
    ensures s.next !in s.queue && s.next !in s.retired && !Held(s.callers, s.next)
  {
    ReachableKeeps(s);
    var s1, s2, s3, s4 := CrashSteps(s, c);
    s' := s4;
    FourSteps(s, UseCrashes(c), s1, Discarded(c), s2, RespawnOk(c), s3, RetryReturns(c), s');
  }

  lemma CrashSteps(s: State, c: CallerId) returns (s1: State, s2: State, s3: State, s4: State)
    requires Capacity(s) && s.mode == Open && c in s.callers && s.callers[c].Using?
    ensures Step(s, UseCrashes(c)) == Some(s1) && Step(s1, Discarded(c)) == Some(s2)
    ensures Step(s2, RespawnOk(c)) == Some(s3) && Step(s3, RetryReturns(c)) == Some(s4)
    ensures s4 == s.(queue := s.queue + [s.next], next := s.next + 1, retired := s.retired + {s.callers[c].engine},
                     callers := s.callers[c := Finished])
  {
    CrashedCallerIsMissed(s, c);
    var e := s.callers[c].engine;
    s1 := s.(alive := s.alive - 1, retired := s.retired + {e}, callers := s.callers[c := Discarding(e)]);
    s2 := s1.(callers := s1.callers[c := Respawning]);
    s3 := s2.(next := s2.next + 1, callers := s2.callers[c := Retrying(s2.next)]);
    s4 := s3.(queue := s3.queue + [s.next], alive := s3.alive + 1, callers := s3.callers[c := Finished]);
  }

  lemma OneMore(s: State, actions: seq<Action>, before: State, a: Action, after: State, all: seq<Action>)
    requires Run(s, actions) == Some(before) && Step(before, a) == Some(after) && all == actions + [a]
    ensures Run(s, all) == Some(after)
  {
    RunAppend(s, actions, a, before);
  }

  lemma FourSteps(s: State, a: Action, s1: State, b: Action, s2: State, c: Action, s3: State, d: Action, s4: State)
    requires Step(s, a) == Some(s1) && Step(s1, b) == Some(s2) && Step(s2, c) == Some(s3) && Step(s3, d) == Some(s4)
    ensures Run(s, [a, b, c, d]) == Some(s4)
  {
    OneMore(s, [], s, a, s1, [a]);
    OneMore(s, [a], s1, b, s2, [a, b]);
    OneMore(s, [a, b], s2, c, s3, [a, b, c]);
    OneMore(s, [a, b, c], s3, d, s4, [a, b, c, d]);
  }

  /* ---------- one retry ---------- */

  function Progress(p: Phase): nat {
    match p
    case Using(_) => 0
    case Discarding(_) => 1
    case Respawning => 2
    case Retrying(_) => 3
    case Dropping(_, _) => 4
    case Finished => 5
  }

  // A call never goes back.
  lemma CallsGoOn(s: State, a: Action, c: CallerId)
    requires Step(s, a).Some? && c in s.callers
    ensures c in Step(s, a).value.callers && Progress(s.callers[c]) <= Progress(Step(s, a).value.callers[c])
  {
  }

  lemma {:induction false} CallsGoOnForTheRun(s: State, actions: seq<Action>, c: CallerId)
    requires Run(s, actions).Some? && c in s.callers
    ensures c in Run(s, actions).value.callers
    ensures Progress(s.callers[c]) <= Progress(Run(s, actions).value.callers[c])
    decreases |actions|
  {
    if actions != [] {
      CallsGoOnForTheRun(s, actions[..|actions| - 1], c);
      CallsGoOn(Run(s, actions[..|actions| - 1]).value, actions[|actions| - 1], c);
    }
  }

  // A call is retried once: after a fresh engine has been made for it, none is made
  // for it again, in any run.
  lemma OneRetryForEachCall(s: State, c: CallerId, actions: seq<Action>)
    requires Step(s, RespawnOk(c)).Some? && Run(Step(s, RespawnOk(c)).value, actions).Some?
    ensures Step(Run(Step(s, RespawnOk(c)).value, actions).value, RespawnOk(c)) == None
    ensures Step(Run(Step(s, RespawnOk(c)).value, actions).value, Checkout(c)) == None
  {
    CallsGoOnForTheRun(Step(s, RespawnOk(c)).value, actions, c);
  }

  /* ---------- after close ---------- */

  lemma ClosedPoolKeepsQuiet(s: State, a: Action)
    requires Step(s, a).Some? && (s.mode != Open ==> s.healer == NotRunning)
    ensures Step(s, a).value.mode != Open ==> Step(s, a).value.healer == NotRunning
  {
  }

  // Once the pool is closing, nothing starts the healer again.
  lemma {:induction false} NoHealerAfterClose(size: nat, actions: seq<Action>, s: State)
    requires Run(Init(size), actions) == Some(s)
    ensures s.mode != Open ==> s.healer == NotRunning
    decreases |actions|
  {
    if actions != [] {
      var before := Run(Init(size), actions[..|actions| - 1]).value;
      NoHealerAfterClose(size, actions[..|actions| - 1], before);
      ClosedPoolKeepsQuiet(before, actions[|actions| - 1]);
    }
  }
}
