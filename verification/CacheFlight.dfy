/**
 The cached evaluator: `get_eval` and `set_eval` of mcp_server/cache/multi_tier.py,
 `SingleFlight.do` of mcp_server/cache/single_flight.py and the miss path of
 `evaluate_game_position_cached` in mcp_server/engine/cached_evaluator.py, as one
 transition system.  The asyncio locks of the cache and of SingleFlight are never
 held across an await, so a caller is suspended only while the disk thread works,
 while the engine computes, or while it waits for another caller's flight.
 */
module CacheFlight {
  import opened Options

  type Key = string
  type CallerId = nat
  type FlightId = nat

  datatype Eval = Eval(cp: int, bestMove: string, depth: nat)

  datatype Outcome = Pending | Resolved(value: Eval) | Failed
  // A shared future, with the caller that registered it.
  datatype Flight = Flight(key: Key, producer: CallerId, outcome: Outcome)

  datatype Phase =
    | ReadingL2                                // the disk thread has not read yet
    | GotL2(raw: Option<Eval>)                 // ... has read
    | Waiting(flight: FlightId)                // for another caller's future
    | Computing(flight: FlightId)              // awaiting the engine
    | Storing(flight: FlightId, value: Eval)   // awaiting the disk write
    | Answered(value: Eval)
    | Raised

  datatype Caller = Caller(key: Key, phase: Phase)

  // `writes` are disk writes handed to a thread, which may land late or never;
  // `computed` lists the successful engine computations of each key.
  datatype State = State(
    l1: map<Key, Eval>, l2: map<Key, Eval>, writes: set<(Key, Eval)>,
    inFlight: map<Key, FlightId>, flights: seq<Flight>,
    callers: map<CallerId, Caller>, computed: map<Key, seq<Eval>>)

  function Init(l1: map<Key, Eval>, l2: map<Key, Eval>): State {
    State(l1, l2, {}, map[], [], map[], map[])
  }

  function Computed(s: State, k: Key): seq<Eval> {
    if k in s.computed then s.computed[k] else []
  }

  function Put(s: State, c: CallerId, k: Key, phase: Phase): State {
    s.(callers := s.callers[c := Caller(k, phase)])
  }

  // The first lines of `get_eval`: a hit in L1, or the disk read begins.
  function Start(s: State, c: CallerId, k: Key): State {
    Put(s, c, k, if k in s.l1 then Answered(s.l1[k]) else ReadingL2)
  }

  function DiskRead(s: State, k: Key, ok: bool): Option<Eval> {
    if ok && k in s.l2 then Some(s.l2[k]) else None
  }

  // `SingleFlight.do` up to its first await.
  function Enter(s: State, c: CallerId, k: Key): State {
    if k in s.inFlight then Put(s, c, k, Waiting(s.inFlight[k]))
    else
      var f := |s.flights|;
      Put(s.(flights := s.flights + [Flight(k, c, Pending)], inFlight := s.inFlight[k := f]), c, k, Computing(f))
  }

  // From the end of the disk read to the next suspension.  `recheck` is the second
  // look into L1, `usable` whether the stored text still parses.
  function AfterL2(s: State, c: CallerId, k: Key, raw: Option<Eval>, usable: bool, recheck: bool): State {
    if raw.Some? && usable then Put(s.(l1 := s.l1[k := raw.value]), c, k, Answered(raw.value))
    else if recheck && k in s.l1 then Put(s, c, k, Answered(s.l1[k]))
    else Enter(s, c, k)
  }

  // The producer leaves SingleFlight: the future is settled, the key deregistered.
  function Leave(s: State, c: CallerId, k: Key, f: FlightId, outcome: Outcome): State
    requires f < |s.flights|
  {
    Put(s.(flights := s.flights[f := s.flights[f].(outcome := outcome)], inFlight := s.inFlight - {k}), c, k,
        if outcome.Resolved? then Answered(outcome.value) else Raised)
  }

  // The engine has answered: `set_eval` fills L1 and, if L1 was cold, L2.
  function Produce(s: State, c: CallerId, k: Key, f: FlightId, v: Eval): State
    requires f < |s.flights|
  {
    var counted := s.(computed := s.computed[k := Computed(s, k) + [v]], l1 := s.l1[k := v]);
    if k in s.l1 then Leave(counted, c, k, f, Resolved(v))
    else Put(counted.(writes := s.writes + {(k, v)}), c, k, Storing(f, v))
  }

  // What can happen to a suspended caller.
  datatype Event =
    | DiskReads(ok: bool)
    | Resumes(usable: bool)
    | EngineAnswers(value: Eval)
    | StoreDone
    | ProducerFails            // an exception or a cancellation
    | Wakes                    // a waiter sees the settled future
    | Cancelled                // a caller that produces nothing is cancelled

  predicate Producing(phase: Phase) {
    phase.Computing? || phase.Storing?
  }

  predicate Settled(s: State, f: FlightId) {
    f < |s.flights| && s.flights[f].outcome != Pending
  }

  function Awake(outcome: Outcome): Phase {
    if outcome.Resolved? then Answered(outcome.value) else Raised
  }

  function CallerStep(s: State, c: CallerId, e: Event, recheck: bool): Option<State>
    requires c in s.callers
  {
    var k := s.callers[c].key;
    var p := s.callers[c].phase;
    match e
    case DiskReads(ok) => if p.ReadingL2? then Some(Put(s, c, k, GotL2(DiskRead(s, k, ok)))) else None
    case Resumes(usable) => if p.GotL2? then Some(AfterL2(s, c, k, p.raw, usable, recheck)) else None
    case EngineAnswers(v) =>
      if p.Computing? && p.flight < |s.flights| then Some(Produce(s, c, k, p.flight, v)) else None
    case StoreDone =>
      if p.Storing? && p.flight < |s.flights| then Some(Leave(s, c, k, p.flight, Resolved(p.value))) else None
    case ProducerFails =>
      if Producing(p) && p.flight < |s.flights| then Some(Leave(s, c, k, p.flight, Failed)) else None
    case Wakes =>
      if p.Waiting? && Settled(s, p.flight) then Some(Put(s, c, k, Awake(s.flights[p.flight].outcome))) else None
    case Cancelled =>
      if p.ReadingL2? || p.GotL2? || p.Waiting? then Some(Put(s, c, k, Raised)) else None
  }

  datatype Action =
    | Call(caller: CallerId, key: Key)
    | Happens(caller: CallerId, event: Event)
    | DiskWrites(key: Key, value: Eval)

  function Step(s: State, a: Action, recheck: bool): Option<State> {
    match a
    case Call(c, k) => if c in s.callers then None else Some(Start(s, c, k))
    case Happens(c, e) => if c in s.callers then CallerStep(s, c, e, recheck) else None
    case DiskWrites(k, v) => if (k, v) in s.writes then Some(s.(l2 := s.l2[k := v])) else None
  }

  function Run(s: State, actions: seq<Action>, recheck: bool): Option<State>
    decreases |actions|
  {
    if actions == [] then Some(s)
    else
      var before := Run(s, actions[..|actions| - 1], recheck);
      if before.None? then None else Step(before.value, actions[|actions| - 1], recheck)
  }
}
