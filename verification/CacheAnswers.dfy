/**
 Who gets an answer from where: a key on disk needs no engine, a value once computed
 is found by later evaluators, and no caller fails without a fault.
 */
module CacheAnswers {
  import opened Options
  import opened CacheFlight
  import opened CacheSafety

  /* ---------- a key on disk ---------- */

  // What happens to other callers and to the disk.
  predicate NotOf(a: Action, c: CallerId) {
    a.Happens? ==> a.caller != c
  }

  lemma OthersLeaveCaller(s: State, a: Action, c: CallerId)
    requires c in s.callers && NotOf(a, c) && Step(s, a, true).Some?
    ensures c in Step(s, a, true).value.callers && Step(s, a, true).value.callers[c] == s.callers[c]
  {
    match a
    case Happens(d, e) => StepIsItsOwn(s, d, e, true);
    case _ =>
  }

  // An event changes the record of one caller only.
  lemma StepIsItsOwn(s: State, d: CallerId, e: Event, recheck: bool)
    requires d in s.callers && CallerStep(s, d, e, recheck).Some?
    ensures forall c | c in s.callers && c != d ::
              c in CallerStep(s, d, e, recheck).value.callers
              && CallerStep(s, d, e, recheck).value.callers[c] == s.callers[c]
  {
    match e
    case Resumes(usable) =>
      assert CallerStep(s, d, e, recheck) ==
             Some(AfterL2(s, d, s.callers[d].key, s.callers[d].phase.raw, usable, recheck));
    case EngineAnswers(v) =>
      assert CallerStep(s, d, e, recheck) == Some(Produce(s, d, s.callers[d].key, s.callers[d].phase.flight, v));
    case _ =>
  }

  lemma {:induction false} OthersLeaveCallerForTheRun(s: State, actions: seq<Action>, c: CallerId, s': State)
    requires c in s.callers && (forall j | 0 <= j < |actions| :: NotOf(actions[j], c)) && Run(s, actions, true) == Some(s')
    ensures c in s'.callers && s'.callers[c] == s.callers[c]
    decreases |actions|
  {
    if actions != [] {
      var before := Run(s, actions[..|actions| - 1], true).value;
      OthersLeaveCallerForTheRun(s, actions[..|actions| - 1], c, before);
      OthersLeaveCaller(before, actions[|actions| - 1], c);
    }
  }

  // A caller that misses L1 and whose key is on disk, in a read that succeeds and in
  // text that still parses, gets what the disk held then, whatever others do before it
  // resumes; it puts the value into L1 and neither computes nor waits.
  lemma DiskHitIsAnswered(s: State, c: CallerId, k: Key, others: seq<Action>, before: State)
    requires c in s.callers && s.callers[c] == Caller(k, ReadingL2) && k in s.l2
    requires forall j | 0 <= j < |others| :: NotOf(others[j], c)
    requires Step(s, Happens(c, DiskReads(true)), true).Some?
    requires Run(Step(s, Happens(c, DiskReads(true)), true).value, others, true) == Some(before)
    ensures Step(before, Happens(c, Resumes(true)), true).Some?
    ensures var after := Step(before, Happens(c, Resumes(true)), true).value;
            && c in after.callers && after.callers[c].phase == Answered(s.l2[k])
            && after.l1 == before.l1[k := s.l2[k]]
            && after.computed == before.computed && after.flights == before.flights
  {
    OthersLeaveCallerForTheRun(Step(s, Happens(c, DiskReads(true)), true).value, others, c, before);
  }

  /* ---------- a value outlives its evaluator ---------- */

  // The first value computed for a key that was nowhere is handed to the disk.
  ghost predicate HandedOn(s: State, k: Key) {
    forall v | v in Computed(s, k) :: (k, v) in s.writes
  }

  lemma AnswerHandsOn(s: State, c: CallerId, v: Eval, k: Key)
    requires Inv(s, k) && HandedOn(s, k) && c in s.callers && s.callers[c].phase.Computing?
    requires s.callers[c].phase.flight < |s.flights|
    ensures HandedOn(Produce(s, c, s.callers[c].key, s.callers[c].phase.flight, v), k)
  {
    if s.callers[c].key == k {
      assert Seen(s.callers[c].phase, Computed(s, k));
    }
  }

  lemma OtherEventHandsOn(s: State, c: CallerId, e: Event)
    requires c in s.callers && CallerStep(s, c, e, true).Some? && !e.EngineAnswers?
    ensures CallerStep(s, c, e, true).value.computed == s.computed
    ensures CallerStep(s, c, e, true).value.writes == s.writes
  {
  }

  lemma StepHandsOn(s: State, a: Action, k: Key)
    requires Inv(s, k) && HandedOn(s, k) && Step(s, a, true).Some?
    ensures HandedOn(Step(s, a, true).value, k)
  {
    match a
    case Happens(c, EngineAnswers(v)) => AnswerHandsOn(s, c, v, k);
    case Happens(c, e) => OtherEventHandsOn(s, c, e);
    case _ =>
  }

  lemma {:induction false} RunHandsOn(s: State, actions: seq<Action>, k: Key)
    requires Inv(s, k) && HandedOn(s, k) && Run(s, actions, true).Some?
    ensures HandedOn(Run(s, actions, true).value, k)
    decreases |actions|
  {
    if actions != [] {
      var before := Run(s, actions[..|actions| - 1], true).value;
      RunKeeps(s, actions[..|actions| - 1], k);
      RunHandsOn(s, actions[..|actions| - 1], k);
      StepHandsOn(before, actions[|actions| - 1], k);
    }
  }

  // Three steps of one caller of a new evaluator.
  lemma FreshCall(l2: map<Key, Eval>, k: Key) returns (t: State)
    requires k in l2
    ensures Run(Init(map[], l2), [Call(0, k), Happens(0, DiskReads(true)), Happens(0, Resumes(true))], true) == Some(t)
    ensures 0 in t.callers && t.callers[0].phase == Answered(l2[k]) && Computed(t, k) == [] && k in t.l1
  {
    var s0, a, b, c := Init(map[], l2), Call(0, k), Happens(0, DiskReads(true)), Happens(0, Resumes(true));
    var s1 := Start(s0, 0, k);
    RunAppend(s0, [], a, true, s0);
    assert [] + [a] == [a];
    var s2 := Put(s1, 0, k, GotL2(Some(l2[k])));
    RunAppend(s0, [a], b, true, s1);
    assert [a] + [b] == [a, b];
    t := AfterL2(s2, 0, k, Some(l2[k]), true, true);
    RunAppend(s0, [a, b], c, true, s2);
    assert [a, b] + [c] == [a, b, c];
  }

  // In every run a value computed for a key that neither tier had can be written to
  // disk, and an evaluator that starts from that disk answers it without the engine.
  lemma ComputedValueIsFoundLater(l2: map<Key, Eval>, actions: seq<Action>, k: Key, s: State, v: Eval)
    returns (stored: State, t: State)
    requires k !in l2 && Run(Init(map[], l2), actions, true) == Some(s) && v in Computed(s, k)
    ensures Step(s, DiskWrites(k, v), true) == Some(stored)
    ensures Run(Init(map[], stored.l2), [Call(0, k), Happens(0, DiskReads(true)), Happens(0, Resumes(true))], true) == Some(t)
    ensures 0 in t.callers && t.callers[0].phase == Answered(v) && Computed(t, k) == []
  {
    assert Inv(Init(map[], l2), k);
    RunHandsOn(Init(map[], l2), actions, k);
    stored := s.(l2 := s.l2[k := v]);
    t := FreshCall(stored.l2, k);
  }

  // Once a key that was nowhere has been computed, every later call is answered with
  // its value at once, by neither disk nor engine.
  lemma ComputedKeyIsAnsweredAtOnce(l1: map<Key, Eval>, l2: map<Key, Eval>, actions: seq<Action>, k: Key, s: State,
                                    v: Eval, c: CallerId)
    requires k !in l1 && k !in l2 && Run(Init(l1, l2), actions, true) == Some(s)
    requires v in Computed(s, k) && c !in s.callers
    ensures Step(s, Call(c, k), true) == Some(s.(callers := s.callers[c := Caller(k, Answered(v))]))
  {
    assert Inv(Init(l1, l2), k);
    RunKeeps(Init(l1, l2), actions, k);
  }

  /* ---------- no failure without a fault ---------- */

  predicate Fault(a: Action) {
    a.Happens? && (a.event.ProducerFails? || a.event.Cancelled?)
  }

  ghost predicate NobodyFailed(s: State) {
    && (forall c | c in s.callers :: !s.callers[c].phase.Raised?)
    && (forall f | 0 <= f < |s.flights| :: !s.flights[f].outcome.Failed?)
  }

  lemma StepFailsNobody(s: State, a: Action)
    requires NobodyFailed(s) && !Fault(a) && Step(s, a, true).Some?
    ensures NobodyFailed(Step(s, a, true).value)
  {
    match a
    case Happens(c, e) => EventFailsNobody(s, c, e);
    case _ =>
  }

  lemma PutFailsNobody(s: State, c: CallerId, k: Key, p: Phase)
    requires NobodyFailed(s) && !p.Raised?
    ensures NobodyFailed(Put(s, c, k, p))
  {
  }

  lemma EventFailsNobody(s: State, c: CallerId, e: Event)
    requires NobodyFailed(s) && c in s.callers && !e.ProducerFails? && !e.Cancelled? && CallerStep(s, c, e, true).Some?
    ensures NobodyFailed(CallerStep(s, c, e, true).value)
  {
    var k, p := s.callers[c].key, s.callers[c].phase;
    match e
    case DiskReads(ok) => PutFailsNobody(s, c, k, GotL2(DiskRead(s, k, ok)));
    case Resumes(usable) => AfterL2FailsNobody(s, c, k, p.raw, usable);
    case EngineAnswers(v) =>
      var counted := s.(computed := s.computed[k := Computed(s, k) + [v]], l1 := s.l1[k := v]);
      if k in s.l1 {
        LeaveFailsNobody(counted, c, k, p.flight, v);
      } else {
        PutFailsNobody(counted.(writes := s.writes + {(k, v)}), c, k, Storing(p.flight, v));
      }
    case StoreDone => LeaveFailsNobody(s, c, k, p.flight, p.value);
    case Wakes => PutFailsNobody(s, c, k, Awake(s.flights[p.flight].outcome));
  }

  lemma AfterL2FailsNobody(s: State, c: CallerId, k: Key, raw: Option<Eval>, usable: bool)
    requires NobodyFailed(s)
    ensures NobodyFailed(AfterL2(s, c, k, raw, usable, true))
  {
    if raw.Some? && usable {
      PutFailsNobody(s.(l1 := s.l1[k := raw.value]), c, k, Answered(raw.value));
    } else if k in s.l1 {
      PutFailsNobody(s, c, k, Answered(s.l1[k]));
    } else if k in s.inFlight {
      PutFailsNobody(s, c, k, Waiting(s.inFlight[k]));
    } else {
      var f := |s.flights|;
      PutFailsNobody(s.(flights := s.flights + [Flight(k, c, Pending)], inFlight := s.inFlight[k := f]), c, k, Computing(f));
    }
  }

  lemma LeaveFailsNobody(s: State, c: CallerId, k: Key, f: FlightId, v: Eval)
    requires NobodyFailed(s) && f < |s.flights|
    ensures NobodyFailed(Leave(s, c, k, f, Resolved(v)))
  {
  }

  // In every run in which no computation fails and nobody is cancelled, no caller
  // fails: one that has finished has its answer.
  lemma {:induction false} NoFailureWithoutAFault(l1: map<Key, Eval>, l2: map<Key, Eval>, actions: seq<Action>, s: State)
    requires Run(Init(l1, l2), actions, true) == Some(s) && forall j | 0 <= j < |actions| :: !Fault(actions[j])
    ensures NobodyFailed(s)
    decreases |actions|
  {
    if actions != [] {
      var before := Run(Init(l1, l2), actions[..|actions| - 1], true).value;
      NoFailureWithoutAFault(l1, l2, actions[..|actions| - 1], before);
      StepFailsNobody(before, actions[|actions| - 1]);
    }
  }
}
