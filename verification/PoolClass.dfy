/**
 `_EnginePool` of core/engines/pool.py over the fields the source updates.  Each
 method is a stretch of the source between two awaits; its contract places it in
 the transition system.
 */
module PoolClass {
  import opened Options
  import opened EnginePool
  import opened PoolSafety

  class Pool {
    const targetSize: nat
    var queue: seq<EngineId>
    var aliveCount: int
    var mode: Mode
    var callers: map<CallerId, Phase>
    var healer: Healer
    var made: EngineId
    ghost var retired: set<EngineId>
    ghost var orphans: nat

    ghost function Now(): State
      reads this
    {
      State(targetSize, queue, aliveCount, mode, callers, healer, made, retired, orphans, false)
    }

    constructor (size: nat)
      ensures Now() == Init(size) && Inv(Now())
    {
      targetSize, aliveCount, made := size, size, size;
      queue := seq(size, i => i);
      mode, callers, healer := Open, map[], NotRunning;
      retired, orphans := {}, 0;
      InitInv(size);
    }

    method StartSelfHeal()
      modifies this`healer
      ensures Now() == EnginePool.StartSelfHeal(old(Now()))
    {
      if mode != Open {
        return;
      }
      if healer != NotRunning {
        return;
      }
      healer := AtTop;
    }

    // A full queue would raise here; the invariant says it never is.
    method PutNowait(e: EngineId)
      requires |queue| < targetSize
      modifies this`queue
      ensures Now() == Put(old(Now()), e)
    {
      queue := queue + [e];
    }

    method AcceptFresh(engine: EngineId) returns (accepted: bool)
      modifies this`queue, this`aliveCount, this`retired
      ensures Now() == EnginePool.AcceptFresh(old(Now()), engine) && accepted == Accepts(old(Now()))
    {
      accepted := false;
      if mode == Open && aliveCount < targetSize {
        if |queue| < targetSize {
          queue := queue + [engine];
          aliveCount := aliveCount + 1;
          accepted := true;
        }
      }
      if !accepted {
        retired := retired + {engine};
      }
    }

    method DecrementAlive()
      modifies this`aliveCount
      ensures Now() == Lose(old(Now()))
    {
      aliveCount := if 0 >= aliveCount - 1 then 0 else aliveCount - 1;
    }

    method Acquire(c: CallerId) returns (e: EngineId)
      requires Inv(Now()) && c !in callers && queue != []
      modifies this
      ensures Some(Now()) == Step(old(Now()), Checkout(c)) && e == old(queue[0]) && Inv(Now())
    {
      StepKeeps(Now(), Checkout(c));
      e := queue[0];
      queue := queue[1..];
      callers := callers[c := Using(e)];
    }

    method ReturnEngine(c: CallerId)
      requires Inv(Now()) && c in callers && callers[c].Using?
      modifies this
      ensures Some(Now()) == Step(old(Now()), UseReturns(c)) && Inv(Now())
    {
      StepKeeps(Now(), UseReturns(c));
      assert c in Members(callers, IsUsing);
      PutNowait(callers[c].engine);
      callers := callers[c := Finished];
    }

    // fn raised on an engine of the queue: a transport error, or a cancellation.
    method EngineLost(c: CallerId, cancelled: bool)
      requires Inv(Now()) && c in callers && callers[c].Using?
      modifies this
      ensures Some(Now()) == Step(old(Now()), if cancelled then UseCancelled(c) else UseCrashes(c)) && Inv(Now())
    {
      StepKeeps(Now(), if cancelled then UseCancelled(c) else UseCrashes(c));
      var e := callers[c].engine;
      DecrementAlive();
      retired := retired + {e};
      callers := callers[c := if cancelled then Dropping(e, true) else Discarding(e)];
    }

    // The factory call of `_replace_and_retry` came back, with an engine or not.
    method Respawned(c: CallerId, ok: bool)
      requires Inv(Now()) && c in callers && callers[c].Respawning?
      modifies this
      ensures Some(Now()) == Step(old(Now()), if ok then RespawnOk(c) else RespawnFails(c)) && Inv(Now())
    {
      StepKeeps(Now(), if ok then RespawnOk(c) else RespawnFails(c));
      if ok {
        callers := callers[c := Retrying(made)];
        made := made + 1;
      } else {
        StartSelfHeal();
        callers := callers[c := Finished];
      }
    }

    // The retry on the fresh engine is over.
    method RetryDone(c: CallerId, crashed: bool)
      requires Inv(Now()) && c in callers && callers[c].Retrying?
      modifies this
      ensures Some(Now()) == Step(old(Now()), if crashed then RetryCrashes(c) else RetryReturns(c)) && Inv(Now())
    {
      StepKeeps(Now(), if crashed then RetryCrashes(c) else RetryReturns(c));
      var engine := callers[c].engine;
      if crashed {
        retired := retired + {engine};
        callers := callers[c := Dropping(engine, true)];
      } else {
        var accepted := AcceptFresh(engine);
        callers := callers[c := if accepted then Finished else Dropping(engine, false)];
      }
    }

    method EngineClosed(c: CallerId)
      requires Inv(Now()) && c in callers && callers[c].Dropping?
      modifies this
      ensures Some(Now()) == Step(old(Now()), Dropped(c)) && Inv(Now())
    {
      StepKeeps(Now(), Dropped(c));
      if callers[c].heal {
        StartSelfHeal();
      }
      callers := callers[c := Finished];
    }

    // The top of the healer's loop, up to the factory call or the sleep.
    method HealTop()
      requires Inv(Now()) && healer == AtTop
      modifies this`healer
      ensures Some(Now()) == Step(old(Now()), HealChecks) && Inv(Now())
    {
      StepKeeps(Now(), HealChecks);
      if mode != Open {
        healer := NotRunning;
        return;
      }
      var missing := targetSize - aliveCount;
      if missing > 0 {
        healer := Spawning;
      } else {
        healer := Sleeping;
      }
    }

    method HealSpawned()
      requires Inv(Now()) && healer == Spawning
      modifies this
      ensures Some(Now()) == Step(old(Now()), HealSpawnOk) && Inv(Now())
    {
      StepKeeps(Now(), HealSpawnOk);
      var engine := made;
      made := made + 1;
      var accepted := AcceptFresh(engine);
      healer := if accepted then Sleeping else DroppingSpare(engine);
    }
  }
}
