/**
 Conservation of engines and of capacity in every run of the pool, and the
 progress of its self-heal.
 */
module PoolSafety {
  import opened Options
  import opened EnginePool

  type Callers = map<CallerId, Phase>

  /* ---------- counting callers ---------- */

  predicate IsUsing(p: Phase) { p.Using? }

  // A lost slot that a caller will still refill or report to the healer.
  predicate IsRecovering(p: Phase) {
    p.Discarding? || p.Respawning? || p.Retrying? || (p.Dropping? && p.heal)
  }

  function Members(callers: Callers, f: Phase -> bool): set<CallerId> {
    set c | c in callers && f(callers[c])
  }

  function Size(callers: Callers, f: Phase -> bool): nat {
    |Members(callers, f)|
  }

  function One(b: bool): nat { if b then 1 else 0 }

  lemma SizeUpdate(callers: Callers, f: Phase -> bool, c: CallerId, p: Phase)
    requires !f(Finished)
    ensures Size(callers[c := p], f)
            == Size(callers, f) - One(f(if c in callers then callers[c] else Finished)) + One(f(p))
  {
    var was := Members(callers, f);
    MembersUpdate(callers, f, c, p);
    if f(p) && c !in was {
      assert |was + {c}| == |was| + 1;
    } else if !f(p) && c in was {
      assert |was - {c}| == |was| - 1;
    } else {
      assert (if f(p) then was + {c} else was - {c}) == was;
    }
  }

  lemma MembersUpdate(callers: Callers, f: Phase -> bool, c: CallerId, p: Phase)
    ensures Members(callers[c := p], f) == if f(p) then Members(callers, f) + {c} else Members(callers, f) - {c}
  {
  }

  /* ---------- where engines are ---------- */

  predicate Owns(p: Phase, e: EngineId) {
    (p.Using? || p.Retrying?) && p.engine == e
  }

  ghost predicate Held(callers: Callers, e: EngineId) {
    exists c :: c in callers && Owns(callers[c], e)
  }

  // No engine is in two places ...
  ghost predicate Apart(queue: seq<EngineId>, callers: Callers, retired: set<EngineId>) {
    && (forall i, j | 0 <= i < j < |queue| :: queue[i] != queue[j])
    && (forall i | 0 <= i < |queue| :: queue[i] !in retired)
    && (forall c, e | c in callers && Owns(callers[c], e) :: e !in retired && e !in queue)
    && (forall c, d, e | c in callers && d in callers && Owns(callers[c], e) && Owns(callers[d], e) :: c == d)
  }

  // ... none is nowhere, and no other engine exists.
  ghost predicate Covered(queue: seq<EngineId>, callers: Callers, retired: set<EngineId>, next: EngineId) {
    forall e: EngineId :: e < next <==> (e in queue || e in retired || Held(callers, e))
  }

  ghost predicate Capacity(s: State) {
    && !s.overflow
    && |s.queue| + Size(s.callers, IsUsing) <= s.target
    && (s.mode == Open ==> s.alive == |s.queue| + Size(s.callers, IsUsing))
  }

  // Until the healer is started the missing slots are exactly those that a caller
  // is recovering and those whose recovery was cut short.
  ghost predicate Recovery(s: State) {
    s.mode == Open && s.healer == NotRunning ==>
      s.target - s.alive == Size(s.callers, IsRecovering) + s.orphans
  }

  ghost predicate Inv(s: State) {
    && Apart(s.queue, s.callers, s.retired)
    && Covered(s.queue, s.callers, s.retired, s.next)
    && Capacity(s)
    && Recovery(s)
  }

  /* ---------- moving one engine ---------- */

  lemma TakeFromQueue(queue: seq<EngineId>, callers: Callers, retired: set<EngineId>, next: EngineId, c: CallerId)
    requires Apart(queue, callers, retired) && Covered(queue, callers, retired, next)
    requires queue != [] && c !in callers
    ensures Apart(queue[1..], callers[c := Using(queue[0])], retired)
    ensures Covered(queue[1..], callers[c := Using(queue[0])], retired, next)
  {
    var callers' := callers[c := Using(queue[0])];
    forall e: EngineId
      ensures e < next <==> (e in queue[1..] || e in retired || Held(callers', e))
    {
      assert queue == [queue[0]] + queue[1..];
      if Held(callers, e) {
        var d :| d in callers && Owns(callers[d], e);
        assert Owns(callers'[d], e);
      }
      assert Owns(callers'[c], queue[0]);
    }
  }

  // Caller c lets go of engine e, which goes to the queue or out of the pool.
  lemma LetGo(queue: seq<EngineId>, callers: Callers, retired: set<EngineId>, next: EngineId,
              c: CallerId, p: Phase, keep: bool)
    requires Apart(queue, callers, retired) && Covered(queue, callers, retired, next)
    requires c in callers && (callers[c].Using? || callers[c].Retrying?) && !p.Using? && !p.Retrying?
    ensures var e := callers[c].engine;
            var queue' := if keep then queue + [e] else queue;
            var retired' := if keep then retired else retired + {e};
            Apart(queue', callers[c := p], retired') && Covered(queue', callers[c := p], retired', next)
  {
    var e := callers[c].engine;
    var callers' := callers[c := p];
    var queue' := if keep then queue + [e] else queue;
    var retired' := if keep then retired else retired + {e};
    assert Owns(callers[c], e);
    forall x: EngineId
      ensures x < next <==> (x in queue' || x in retired' || Held(callers', x))
    {
      if Held(callers, x) {
        var d :| d in callers && Owns(callers[d], x);
        assert d != c ==> Owns(callers'[d], x);
      }
      if Held(callers', x) {
        var d :| d in callers' && Owns(callers'[d], x);
        assert Owns(callers[d], x);
      }
    }
  }

  // A caller that owns no engine changes phase; with `fresh` it gets a new one.
  lemma Move(queue: seq<EngineId>, callers: Callers, retired: set<EngineId>, next: EngineId, c: CallerId, p: Phase)
    requires Apart(queue, callers, retired) && Covered(queue, callers, retired, next)
    requires c in callers && !callers[c].Using? && !callers[c].Retrying?
    requires !p.Using? && (p.Retrying? ==> p.engine == next)
    ensures Apart(queue, callers[c := p], retired)
    ensures Covered(queue, callers[c := p], retired, if p.Retrying? then next + 1 else next)
  {
    var callers' := callers[c := p];
    assert next !in queue && next !in retired && !Held(callers, next);
    forall d, e | d in callers && Owns(callers[d], e)
      ensures e != next
    {
      assert Held(callers, e);
    }
    forall x: EngineId
      ensures x < (if p.Retrying? then next + 1 else next) <==> (x in queue || x in retired || Held(callers', x))
    {
      if Held(callers, x) {
        var d :| d in callers && Owns(callers[d], x);
        assert d != c && Owns(callers'[d], x);
      }
      if Held(callers', x) {
        var d :| d in callers' && Owns(callers'[d], x);
        assert d != c ==> Owns(callers[d], x);
      }
      if p.Retrying? {
        assert Owns(callers'[c], next);
      }
    }
  }

  // A brand-new engine joins the queue, or leaves at once.
  lemma Newcomer(queue: seq<EngineId>, callers: Callers, retired: set<EngineId>, next: EngineId, keep: bool)
    requires Apart(queue, callers, retired) && Covered(queue, callers, retired, next)
    ensures var queue' := if keep then queue + [next] else queue;
            var retired' := if keep then retired else retired + {next};
            Apart(queue', callers, retired') && Covered(queue', callers, retired', next + 1)
  {
    assert next !in queue && next !in retired && !Held(callers, next);
    var queue' := if keep then queue + [next] else queue;
    var retired' := if keep then retired else retired + {next};
    forall c, e | c in callers && Owns(callers[c], e)
      ensures e !in queue' && e !in retired'
    {
      assert Held(callers, e);
    }
  }

  lemma DrainOne(queue: seq<EngineId>, callers: Callers, retired: set<EngineId>, next: EngineId)
    requires Apart(queue, callers, retired) && Covered(queue, callers, retired, next) && queue != []
    ensures Apart(queue[1..], callers, retired + {queue[0]})
    ensures Covered(queue[1..], callers, retired + {queue[0]}, next)
  {
    assert queue == [queue[0]] + queue[1..];
  }

  /* ---------- every step keeps the invariant ---------- */

  predicate ByCaller(a: Action) {
    !a.HealChecks? && !a.HealSpawnOk? && !a.HealSpawnFails? && !a.HealDropped? && !a.HealWakes?
    && !a.CloseBegins? && !a.CloseDrains? && !a.CloseEnds?
  }

  lemma CallerKeepsPlaces(s: State, a: Action)
    requires Inv(s) && ByCaller(a) && Step(s, a).Some?
    ensures var s' := Step(s, a).value;
            Apart(s'.queue, s'.callers, s'.retired) && Covered(s'.queue, s'.callers, s'.retired, s'.next)
  {
    var p := Step(s, a).value.callers[a.caller];
    if a.Checkout? {
      TakeFromQueue(s.queue, s.callers, s.retired, s.next, a.caller);
    } else if s.callers[a.caller].Using? || s.callers[a.caller].Retrying? {
      SizeUpdate(s.callers, IsUsing, a.caller, p);
      LetGo(s.queue, s.callers, s.retired, s.next, a.caller, p, a.UseReturns? || (a.RetryReturns? && Accepts(s)));
    } else {
      Move(s.queue, s.callers, s.retired, s.next, a.caller, p);
    }
  }

  lemma CallerKeepsCounts(s: State, a: Action)
    requires Capacity(s) && Recovery(s) && ByCaller(a) && Step(s, a).Some?
    ensures Capacity(Step(s, a).value) && Recovery(Step(s, a).value)
  {
    var p := Step(s, a).value.callers[a.caller];
    SizeUpdate(s.callers, IsUsing, a.caller, p);
    SizeUpdate(s.callers, IsRecovering, a.caller, p);
    assert a.RetryReturns? ==> a.caller in Members(s.callers, IsRecovering);
  }

  lemma OtherKeeps(s: State, a: Action)
    requires Inv(s) && !ByCaller(a) && Step(s, a).Some?
    ensures Inv(Step(s, a).value)
  {
    match a
    case HealSpawnOk => Newcomer(s.queue, s.callers, s.retired, s.next, Accepts(s));
    case CloseDrains => DrainOne(s.queue, s.callers, s.retired, s.next);
    case _ =>
  }

  lemma StepKeeps(s: State, a: Action)
    requires Inv(s) && Step(s, a).Some?
    ensures Inv(Step(s, a).value)
  {
    if ByCaller(a) {
      CallerKeepsPlaces(s, a);
      CallerKeepsCounts(s, a);
    } else {
      OtherKeeps(s, a);
    }
  }

  lemma InitInv(size: nat)
    ensures Inv(Init(size))
  {
    var s := Init(size);
    assert Members(s.callers, IsUsing) == {} && Members(s.callers, IsRecovering) == {};
    forall e: EngineId
      ensures e < size <==> e in s.queue
    {
      if e < size {
        assert s.queue[e] == e;
      }
    }
  }

  lemma {:induction false} RunKeeps(s: State, actions: seq<Action>)
    requires Inv(s) && Run(s, actions).Some?
    ensures Inv(Run(s, actions).value)
    decreases |actions|
  {
    if actions != [] {
      RunKeeps(s, actions[..|actions| - 1]);
      StepKeeps(Run(s, actions[..|actions| - 1]).value, actions[|actions| - 1]);
    }
  }

  lemma ReachableKeeps(s: State)
    requires Reachable(s)
    ensures Inv(s)
  {
    var size, actions: seq<Action> :| Run(Init(size), actions) == Some(s);
    InitInv(size);
    RunKeeps(Init(size), actions);
  }

  /* ---------- what it means ---------- */

  // Conservation: every engine ever made is in exactly one place, and once there.
  lemma EveryEngineIsInOnePlace(s: State, e: EngineId)
    requires Reachable(s)
    ensures e < s.next <==> (e in s.queue || e in s.retired || Held(s.callers, e))
    ensures !(e in s.queue && e in s.retired)
    ensures Held(s.callers, e) ==> e !in s.queue && e !in s.retired
    ensures forall i, j | 0 <= i < |s.queue| && 0 <= j < |s.queue| && s.queue[i] == e == s.queue[j] :: i == j
    ensures forall c, d | c in s.callers && d in s.callers && Owns(s.callers[c], e) && Owns(s.callers[d], e) :: c == d
  {
    ReachableKeeps(s);
  }

  // Capacity: a queue slot is always free for a returned engine, open or closed,
  // and while the pool is open `alive` counts exactly the queued engines and the
  // ones in use, so neither the clamp at zero nor `QueueFull` can ever happen.
  lemma NoPutFindsTheQueueFull(s: State)
    requires Reachable(s)
    ensures !s.overflow
    ensures (exists c :: c in s.callers && s.callers[c].Using?) ==> |s.queue| < s.target
    ensures s.mode == Open ==>
              && s.alive == |s.queue| + Size(s.callers, IsUsing) && 0 <= s.alive <= s.target
              && (s.alive < s.target ==> |s.queue| < s.target)
              && ((exists c :: c in s.callers && s.callers[c].Using?) ==> s.alive >= 1)
  {
    ReachableKeeps(s);
    if c :| c in s.callers && s.callers[c].Using? {
      assert c in Members(s.callers, IsUsing);
    }
  }

  // When no call is under way, an open pool is full or its healer is running exactly
  // if no recovery was cut short or the healer was started after all; without the
  // healer, one slot is missing for every recovery that was cut short.
  lemma QuietPoolIsFullOrHealing(s: State)
    requires Reachable(s) && s.mode == Open
    requires forall c | c in s.callers :: s.callers[c] == Finished
    ensures s.alive == s.target || s.healer != NotRunning <==> s.orphans == 0 || s.healer != NotRunning
    ensures s.healer == NotRunning ==> s.target - s.alive == s.orphans
    ensures s.alive == |s.queue|
  {
    ReachableKeeps(s);
    assert Members(s.callers, IsUsing) == {} && Members(s.callers, IsRecovering) == {};
  }

  // The missing slots that nobody is going to refill: no caller is at it, and there
  // is no healer.
  function Stranded(s: State): int {
    if s.mode != Open || s.healer != NotRunning then 0
    else s.target - s.alive - Size(s.callers, IsRecovering)
  }

  // In every step of an open pool: a cancelled recovery strands one slot exactly if
  // the healer has not been started, and nothing else strands or frees one but the
  // start of the healer, which frees them all.
  lemma OnlyCancelledRecoveriesStrand(s: State, a: Action, s': State)
    requires Reachable(s) && s.mode == Open && Step(s, a) == Some(s') && s'.mode == Open
    ensures Stranded(s') == if s'.healer != NotRunning then 0 else Stranded(s) + One(a.RecoveryCancelled?)
    ensures a.RecoveryCancelled? ==> (Stranded(s') == Stranded(s) + 1 <==> s.healer == NotRunning)
  {
    ReachableKeeps(s);
    StepKeeps(s, a);
    StrandedAreOrphans(s);
    StrandedAreOrphans(s');
    OrphansAreCounted(s, a);
  }

  lemma StrandedAreOrphans(s: State)
    requires Recovery(s)
    ensures Stranded(s) == if s.mode != Open || s.healer != NotRunning then 0 else s.orphans
  {
  }

  lemma OrphansAreCounted(s: State, a: Action)
    requires Step(s, a).Some?
    ensures Step(s, a).value.orphans == s.orphans + One(a.RecoveryCancelled?)
    ensures s.mode == Open && Step(s, a).value.mode == Open && s.healer != NotRunning ==>
              Step(s, a).value.healer != NotRunning
  {
  }

  // Only a failed respawn, or the close of an engine lost to a cancellation or in a
  // retry, starts the healer.
  predicate StartsHealer(s: State, a: Action) {
    a.RespawnFails? || (a.Dropped? && PhaseOf(s, a.caller).Dropping? && PhaseOf(s, a.caller).heal)
  }

  lemma HealerStartsOnlyThere(s: State, a: Action)
    requires Step(s, a).Some? && s.mode == Open && s.healer == NotRunning
    ensures Step(s, a).value.healer != NotRunning <==> StartsHealer(s, a)
  {
  }

  // No step of a run starts the healer, and the pool stays open.
  predicate Unhealed(s: State, actions: seq<Action>) {
    actions == [] ||
    var before := actions[..|actions| - 1];
    Unhealed(s, before) && Run(s, before).Some? &&
    !StartsHealer(Run(s, before).value, actions[|actions| - 1]) && !actions[|actions| - 1].CloseBegins?
  }

  function Cancelled(actions: seq<Action>): nat {
    if actions == [] then 0
    else Cancelled(actions[..|actions| - 1]) + One(actions[|actions| - 1].RecoveryCancelled?)
  }

  // A stranded slot stays lost, whatever is called and however the calls end, until
  // the healer is started: the missing slots never fall below the stranded ones.
  lemma {:induction false} StrandedUntilTheHealerStarts(s: State, actions: seq<Action>)
    requires Inv(s) && s.mode == Open && s.healer == NotRunning
    requires Run(s, actions).Some? && Unhealed(s, actions)
    ensures var s' := Run(s, actions).value;
            && Inv(s') && s'.mode == Open && s'.healer == NotRunning && s'.target == s.target
            && Stranded(s') == Stranded(s) + Cancelled(actions)
            && s'.alive <= s'.target - Stranded(s) - Cancelled(actions)
    decreases |actions|
  {
    if actions != [] {
      var a := actions[|actions| - 1];
      var before := Run(s, actions[..|actions| - 1]).value;
      StrandedUntilTheHealerStarts(s, actions[..|actions| - 1]);
      StillUnhealed(before, a);
    }
  }

  lemma StillUnhealed(s: State, a: Action)
    requires Inv(s) && s.mode == Open && s.healer == NotRunning && Step(s, a).Some?
    requires !StartsHealer(s, a) && !a.CloseBegins?
    ensures var s' := Step(s, a).value;
            && Inv(s') && s'.mode == Open && s'.healer == NotRunning && s'.target == s.target
            && Stranded(s') == Stranded(s) + One(a.RecoveryCancelled?)
            && s'.alive <= s'.target - Stranded(s')
  {
    StepKeeps(s, a);
    HealerStartsOnlyThere(s, a);
    OpenStays(s, a);
    StrandedAreOrphans(s);
    StrandedAreOrphans(Step(s, a).value);
    OrphansAreCounted(s, a);
  }

  lemma OpenStays(s: State, a: Action)
    requires Step(s, a).Some?
    ensures Step(s, a).value.target == s.target
    ensures s.mode == Open && !a.CloseBegins? ==> Step(s, a).value.mode == Open
  {
  }

  lemma RunAppend(s: State, actions: seq<Action>, a: Action, before: State)
    requires Run(s, actions) == Some(before)
    ensures Run(s, actions + [a]) == Step(before, a)
  {
    assert (actions + [a])[..|actions|] == actions;
  }

  // A pool of one engine: checked out, crashed, and its recovery cancelled.
  const OneUsed := State(1, [], 1, Open, map[0 := Using(0)], NotRunning, 1, {}, 0, false)
  const OneDead := State(1, [], 0, Open, map[0 := Discarding(0)], NotRunning, 1, {0}, 0, false)
  const LostSlot := State(1, [], 0, Open, map[0 := Finished], NotRunning, 1, {0}, 1, false)

  lemma LosingASlot()
    ensures Step(Init(1), Checkout(0)) == Some(OneUsed)
    ensures Step(OneUsed, UseCrashes(0)) == Some(OneDead)
    ensures Step(OneDead, RecoveryCancelled(0)) == Some(LostSlot)
  {
    assert Init(1).queue == [0] && [0][1..] == [];
    assert map[][0 := Using(0)] == OneUsed.callers;
    assert OneUsed.callers[0 := Discarding(0)] == OneDead.callers && {} + {0} == OneDead.retired;
    assert OneDead.callers[0 := Finished] == LostSlot.callers;
  }

  // The proviso on recoveries is needed: a cancellation during the close or the
  // respawn of a dead engine skips the start of the healer.
  lemma CancelledRecoveryLosesTheSlot()
    ensures Reachable(LostSlot)
  {
    LosingASlot();
    var run: seq<Action> := [];
    RunAppend(Init(1), run, Checkout(0), Init(1));
    run := run + [Checkout(0)];
    RunAppend(Init(1), run, UseCrashes(0), OneUsed);
    run := run + [UseCrashes(0)];
    RunAppend(Init(1), run, RecoveryCancelled(0), OneDead);
  }

  // A pool of one can then only be closed: nothing is left that could fail and so
  // start the healer.
  lemma LostSlotOfOneIsNeverRefilled(a: Action)
    requires Step(LostSlot, a).Some?
    ensures a == CloseBegins && Stranded(LostSlot) == 1
  {
    assert Members(LostSlot.callers, IsRecovering) == {};
  }

  /* ---------- progress of self-heal ---------- */

  // Nothing crashes, nobody cancels, the factory works and the pool stays open.
  predicate Calm(a: Action) {
    !a.UseCrashes? && !a.UseCancelled? && !a.HealSpawnFails? && !a.CloseBegins?
  }

  function Rounds(actions: seq<Action>): nat {
    if actions == [] then 0
    else Rounds(actions[..|actions| - 1]) + One(actions[|actions| - 1].HealWakes?)
  }

  // The round in progress has done its work once the healer goes to sleep.
  function Credit(s: State): nat {
    One(s.healer.Sleeping? || s.healer.DroppingSpare?)
  }

  ghost predicate Within(s: State, deficit: int, rounds: nat) {
    && s.mode == Open && s.healer != NotRunning
    && s.target - s.alive <= Max0(deficit - rounds - Credit(s))
    && (s.healer.Spawning? ==> s.target - s.alive <= Max0(deficit - rounds))
  }

  lemma CalmStep(s: State, a: Action, deficit: int, rounds: nat)
    requires Inv(s) && Within(s, deficit, rounds) && Calm(a) && Step(s, a).Some?
    ensures Within(Step(s, a).value, deficit, rounds + One(a.HealWakes?))
  {
  }

  // Self-heal races with retries that refill slots too, and never overshoots; in
  // calm weather every round of it closes the gap by one until the pool is full.
  lemma {:induction false} HealingProgress(s: State, actions: seq<Action>)
    requires Inv(s) && s.mode == Open && s.healer == AtTop && Run(s, actions).Some?
    requires forall k | 0 <= k < |actions| :: Calm(actions[k])
    ensures Inv(Run(s, actions).value)
    ensures Within(Run(s, actions).value, s.target - s.alive, Rounds(actions))
    decreases |actions|
  {
    if actions != [] {
      HealingProgress(s, actions[..|actions| - 1]);
      var before := Run(s, actions[..|actions| - 1]).value;
      CalmStep(before, actions[|actions| - 1], s.target - s.alive, Rounds(actions[..|actions| - 1]));
      StepKeeps(before, actions[|actions| - 1]);
    }
  }

  // At most the slots are missing that the rounds have not made up for; with as
  // many rounds as slots missing the pool is full.
  predicate Filled(s: State, missing: int, rounds: nat) {
    && s.target - s.alive <= Max0(missing - rounds)
    && (rounds >= missing ==> s.alive == s.target)
  }

  lemma WithinMeansFilled(s: State, missing: int, rounds: nat)
    requires Capacity(s) && Within(s, missing, rounds)
    ensures Filled(s, missing, rounds)
  {
  }

  // After as many rounds as there were slots missing the pool is full.
  lemma HealingFillsThePool(s: State, actions: seq<Action>)
    requires Inv(s) && s.mode == Open && s.healer == AtTop && Run(s, actions).Some?
    requires forall k | 0 <= k < |actions| :: Calm(actions[k])
    ensures Filled(Run(s, actions).value, s.target - s.alive, Rounds(actions))
  {
    HealingProgress(s, actions);
    WithinMeansFilled(Run(s, actions).value, s.target - s.alive, Rounds(actions));
  }
}
