/**
 The evaluator's shared cache and SingleFlight over the fields the source updates
 (`_l1`, the L2 table, `_in_flight` and its futures), one method per stretch
 between two awaits.
 */
module CachedEvaluator {
  import opened Options
  import opened CacheFlight

  class Evaluator {
    var l1: map<Key, Eval>
    var l2: map<Key, Eval>
    var writes: set<(Key, Eval)>
    var inFlight: map<Key, FlightId>
    var flights: seq<Flight>
    var callers: map<CallerId, Caller>
    ghost var computed: map<Key, seq<Eval>>

    ghost function Now(): State
      reads this
    {
      State(l1, l2, writes, inFlight, flights, callers, computed)
    }

    constructor (l2: map<Key, Eval>)
      ensures Now() == Init(map[], l2)
    {
      l1, this.l2, writes, inFlight, flights, callers, computed := map[], l2, {}, map[], [], map[], map[];
    }

    // `get_eval` up to the disk read.
    method BeginGet(c: CallerId, k: Key)
      requires c !in callers
      modifies this`callers
      ensures Some(Now()) == Step(old(Now()), Call(c, k), true)
    {
      if k in l1 {
        callers := callers[c := Caller(k, Answered(l1[k]))];
        return;
      }
      callers := callers[c := Caller(k, ReadingL2)];
    }

    // `get_eval` from the end of the disk read to its return.
    method FinishGet(k: Key, raw: Option<Eval>, usable: bool) returns (v: Option<Eval>)
      modifies this`l1
      ensures raw.Some? && usable ==> v == raw && l1 == old(l1)[k := raw.value]
      ensures !(raw.Some? && usable) ==> l1 == old(l1) && v == if k in l1 then Some(l1[k]) else None
    {
      if raw.Some? {
        if usable {
          l1 := l1[k := raw.value];
          return raw;
        }
      }
      if k in l1 {
        return Some(l1[k]);
      }
      return None;
    }

    // `SingleFlight.do` up to its first await.
    method EnterFlight(c: CallerId, k: Key)
      modifies this`callers, this`inFlight, this`flights
      ensures Now() == Enter(old(Now()), c, k)
    {
      if k in inFlight {
        callers := callers[c := Caller(k, Waiting(inFlight[k]))];
      } else {
        var f := |flights|;
        flights := flights + [Flight(k, c, Pending)];
        inFlight := inFlight[k := f];
        callers := callers[c := Caller(k, Computing(f))];
      }
    }

    // The disk read is back: the recheck and the registration are one step.
    method AfterDisk(c: CallerId, usable: bool)
      requires c in callers && callers[c].phase.GotL2?
      modifies this`l1, this`callers, this`inFlight, this`flights
      ensures Some(Now()) == Step(old(Now()), Happens(c, Resumes(usable)), true)
    {
      var k := callers[c].key;
      var cached := FinishGet(k, callers[c].phase.raw, usable);
      if cached.Some? {
        callers := callers[c := Caller(k, Answered(cached.value))];
        return;
      }
      EnterFlight(c, k);
    }

    // The producer's `finally`: its future is settled, the key deregistered.
    method LeaveFlight(c: CallerId, k: Key, f: FlightId, outcome: Outcome)
      requires f < |flights|
      modifies this`callers, this`inFlight, this`flights
      ensures Now() == Leave(old(Now()), c, k, f, outcome)
    {
      flights := flights[f := flights[f].(outcome := outcome)];
      inFlight := inFlight - {k};
      callers := callers[c := Caller(k, Awake(outcome))];
    }

    // The engine has answered: `set_eval`, and the flight ends unless L1 was cold.
    method EngineAnswered(c: CallerId, v: Eval)
      requires c in callers && callers[c].phase.Computing? && callers[c].phase.flight < |flights|
      modifies this
      ensures Some(Now()) == Step(old(Now()), Happens(c, EngineAnswers(v)), true)
    {
      var k, f := callers[c].key, callers[c].phase.flight;
      var wasCold := k !in l1;
      computed := computed[k := Computed(Now(), k) + [v]];
      l1 := l1[k := v];
      if wasCold {
        writes := writes + {(k, v)};
        callers := callers[c := Caller(k, Storing(f, v))];
      } else {
        LeaveFlight(c, k, f, Resolved(v));
      }
    }
  }
}
