/**
 The crash-healing pool of core/engines/pool.py as a transition system: every
 `await` of a caller, of a retry and of the background healer is a place where
 the others may run.  `_cardinality_lock` is never held across an await, so each
 of its critical sections is part of one step.
 */
module EnginePool {
  import opened Options

  type EngineId = nat
  type CallerId = nat

  // Where a call of `run` is suspended once it has an engine.
  datatype Phase =
    | Using(engine: EngineId)                  // fn runs on an engine of the queue
    | Discarding(engine: EngineId)             // closing the dead engine before a respawn
    | Respawning                               // awaiting the factory
    | Retrying(engine: EngineId)               // fn runs on the fresh engine
    | Dropping(engine: EngineId, heal: bool)   // closing an engine the pool will not keep
    | Finished

  // The background task; NotRunning also stands for a task that has ended.
  datatype Healer = NotRunning | AtTop | Spawning | DroppingSpare(engine: EngineId) | Sleeping

  datatype Mode = Open | Closing | Closed

  // Engines are numbered in the order the factory made them.  `retired` holds the
  // engines withdrawn from the pool; `orphans` counts recoveries cut short by a
  // cancellation; `overflow` records a `put_nowait` on a full queue.
  datatype State = State(
    target: nat, queue: seq<EngineId>, alive: int, mode: Mode,
    callers: map<CallerId, Phase>, healer: Healer,
    next: EngineId, retired: set<EngineId>, orphans: nat, overflow: bool)

  function Init(size: nat): State {
    State(size, seq(size, i => i), size, Open, map[], NotRunning, size, {}, 0, false)
  }

  function Max0(n: int): int { if n < 0 then 0 else n }

  function SetCaller(s: State, c: CallerId, p: Phase): State {
    s.(callers := s.callers[c := p])
  }

  function Retire(s: State, e: EngineId): State {
    s.(retired := s.retired + {e})
  }

  function Put(s: State, e: EngineId): State {
    if |s.queue| >= s.target then s.(overflow := true) else s.(queue := s.queue + [e])
  }

  function StartSelfHeal(s: State): State {
    if s.mode != Open || s.healer != NotRunning then s else s.(healer := AtTop)
  }

  predicate Accepts(s: State) {
    s.mode == Open && s.alive < s.target && |s.queue| < s.target
  }

  // `_accept_fresh` up to the point where it would close a rejected engine.
  function AcceptFresh(s: State, e: EngineId): State {
    if Accepts(s) then s.(queue := s.queue + [e], alive := s.alive + 1) else Retire(s, e)
  }

  function Lose(s: State): State {
    s.(alive := Max0(s.alive - 1))
  }

  datatype Action =
    | Checkout(caller: CallerId)
    | UseReturns(caller: CallerId)     // fn returned, or raised something that is no transport error
    | UseCrashes(caller: CallerId)
    | UseCancelled(caller: CallerId)
    | Discarded(caller: CallerId)
    | RespawnOk(caller: CallerId)
    | RespawnFails(caller: CallerId)
    | RecoveryCancelled(caller: CallerId)
    | RetryReturns(caller: CallerId)
    | RetryCrashes(caller: CallerId)   // a transport error or a cancellation
    | Dropped(caller: CallerId)
    | HealChecks
    | HealSpawnOk
    | HealSpawnFails
    | HealDropped
    | HealWakes
    | CloseBegins
    | CloseDrains
    | CloseEnds

  function PhaseOf(s: State, c: CallerId): Phase {
    if c in s.callers then s.callers[c] else Finished
  }

  function CallerStep(s: State, a: Action): Option<State>
    requires a.Checkout? || a.UseReturns? || a.UseCrashes? || a.UseCancelled? || a.Discarded? || a.RespawnOk?
             || a.RespawnFails? || a.RecoveryCancelled? || a.RetryReturns? || a.RetryCrashes? || a.Dropped?
  {
    var c := a.caller;
    var p := PhaseOf(s, c);
    match a
    case Checkout(_) =>
      if c !in s.callers && s.queue != []
      then Some(SetCaller(s.(queue := s.queue[1..]), c, Using(s.queue[0]))) else None
    case UseReturns(_) =>
      if p.Using? then Some(SetCaller(Put(s, p.engine), c, Finished)) else None
    case UseCrashes(_) =>
      if p.Using? then Some(SetCaller(Retire(Lose(s), p.engine), c, Discarding(p.engine))) else None
    case UseCancelled(_) =>
      if p.Using? then Some(SetCaller(Retire(Lose(s), p.engine), c, Dropping(p.engine, true))) else None
    case Discarded(_) =>
      if p.Discarding? then Some(SetCaller(s, c, Respawning)) else None
    case RespawnOk(_) =>
      if p.Respawning? then Some(SetCaller(s.(next := s.next + 1), c, Retrying(s.next))) else None
    case RespawnFails(_) =>
      if p.Respawning? then Some(SetCaller(StartSelfHeal(s), c, Finished)) else None
    case RecoveryCancelled(_) =>
      if p.Discarding? || p.Respawning? || (p.Dropping? && p.heal)
      then Some(SetCaller(s, c, Finished).(orphans := s.orphans + 1)) else None
    case RetryReturns(_) =>
      if p.Retrying?
      then Some(SetCaller(AcceptFresh(s, p.engine), c, if Accepts(s) then Finished else Dropping(p.engine, false)))
      else None
    case RetryCrashes(_) =>
      if p.Retrying? then Some(SetCaller(Retire(s, p.engine), c, Dropping(p.engine, true))) else None
    case Dropped(_) =>
      if p.Dropping? then Some(SetCaller(if p.heal then StartSelfHeal(s) else s, c, Finished)) else None
  }

  function HealStep(s: State, a: Action): Option<State>
    requires a.HealChecks? || a.HealSpawnOk? || a.HealSpawnFails? || a.HealDropped? || a.HealWakes?
  {
    match a
    case HealChecks =>
      if s.healer != AtTop then None
      else if s.mode != Open then Some(s.(healer := NotRunning))
      else Some(s.(healer := if s.target - s.alive > 0 then Spawning else Sleeping))
    case HealSpawnOk =>
      if s.healer != Spawning then None
      else Some(AcceptFresh(s.(next := s.next + 1), s.next).(
                  healer := if Accepts(s) then Sleeping else DroppingSpare(s.next)))
    case HealSpawnFails => if s.healer == Spawning then Some(s.(healer := Sleeping)) else None
    case HealDropped => if s.healer.DroppingSpare? then Some(s.(healer := Sleeping)) else None
    case HealWakes =>
      if s.healer == Sleeping then Some(s.(healer := if s.mode == Open then AtTop else NotRunning)) else None
  }

  function CloseStep(s: State, a: Action): Option<State>
    requires a.CloseBegins? || a.CloseDrains? || a.CloseEnds?
  {
    match a
    case CloseBegins => if s.mode == Open then Some(s.(mode := Closing, healer := NotRunning)) else None
    case CloseDrains =>
      if s.mode == Closing && s.queue != []
      then Some(Retire(s.(queue := s.queue[1..]), s.queue[0])) else None
    case CloseEnds =>
      if s.mode == Closing && s.queue == [] then Some(s.(mode := Closed, alive := 0)) else None
  }

  function Step(s: State, a: Action): Option<State> {
    match a
    case HealChecks => HealStep(s, a)
    case HealSpawnOk => HealStep(s, a)
    case HealSpawnFails => HealStep(s, a)
    case HealDropped => HealStep(s, a)
    case HealWakes => HealStep(s, a)
    case CloseBegins => CloseStep(s, a)
    case CloseDrains => CloseStep(s, a)
    case CloseEnds => CloseStep(s, a)
    case _ => CallerStep(s, a)
  }

  function Run(s: State, actions: seq<Action>): Option<State>
    decreases |actions|
  {
    if actions == [] then Some(s)
    else
      var before := Run(s, actions[..|actions| - 1]);
      if before.None? then None else Step(before.value, actions[|actions| - 1])
  }

  ghost predicate Reachable(s: State) {
    exists size, actions: seq<Action> :: Run(Init(size), actions) == Some(s)
  }
}
