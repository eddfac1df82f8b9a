/**
 One key, any interleaving of callers: at most one successful engine computation,
 and one answer for everybody.
 */
module CacheSafety {
  import opened Options
  import opened CacheFlight

  /* ---------- the invariant, for one key ---------- */

  // What the two tiers know of key k is the one computed value.
  ghost predicate Tiers(s: State, k: Key) {
    && |Computed(s, k)| <= 1
    && (k in s.l1 <==> Computed(s, k) != [])
    && (k in s.l1 ==> s.l1[k] == Computed(s, k)[0])
    && (k in s.l2 ==> Computed(s, k) == [s.l2[k]])
    && (forall v | (k, v) in s.writes :: Computed(s, k) == [v])
  }

  // What a caller of key k has seen, given the values computed so far.
  predicate Seen(p: Phase, values: seq<Eval>) {
    match p
    case GotL2(raw) => raw.Some? ==> values == [raw.value]
    case Computing(_) => values == []
    case Storing(_, v) => values == [v]
    case Answered(v) => values == [v]
    case _ => true
  }

  ghost predicate CallersSeen(callers: map<CallerId, Caller>, k: Key, values: seq<Eval>) {
    forall c | c in callers && callers[c].key == k :: Seen(callers[c].phase, values)
  }

  // A caller and the flight it is on refer to each other.
  predicate Linked(c: CallerId, k: Key, p: Phase, flights: seq<Flight>, inFlight: map<Key, FlightId>) {
    match p
    case Waiting(f) =>
      f < |flights| && flights[f].key == k && (flights[f].outcome == Pending ==> k in inFlight && inFlight[k] == f)
    case Computing(f) => f < |flights| && flights[f] == Flight(k, c, Pending) && k in inFlight && inFlight[k] == f
    case Storing(f, _) => f < |flights| && flights[f] == Flight(k, c, Pending) && k in inFlight && inFlight[k] == f
    case _ => true
  }

  ghost predicate Links(callers: map<CallerId, Caller>, flights: seq<Flight>, inFlight: map<Key, FlightId>) {
    forall c | c in callers :: Linked(c, callers[c].key, callers[c].phase, flights, inFlight)
  }

  // A registered key has a pending flight whose producer is still at work.
  ghost predicate Registry(callers: map<CallerId, Caller>, flights: seq<Flight>, inFlight: map<Key, FlightId>) {
    forall k | k in inFlight ::
      && inFlight[k] < |flights| && flights[inFlight[k]].key == k
      && var c := flights[inFlight[k]].producer;
         c in callers && callers[c].key == k && Producing(callers[c].phase) && callers[c].phase.flight == inFlight[k]
  }

  ghost predicate Outcomes(flights: seq<Flight>, k: Key, values: seq<Eval>) {
    forall f | 0 <= f < |flights| && flights[f].key == k && flights[f].outcome.Resolved? ::
      values == [flights[f].outcome.value]
  }

  ghost predicate Inv(s: State, k: Key) {
    && Tiers(s, k)
    && CallersSeen(s.callers, k, Computed(s, k))
    && Outcomes(s.flights, k, Computed(s, k))
    && Links(s.callers, s.flights, s.inFlight)
    && Registry(s.callers, s.flights, s.inFlight)
  }

  /* ---------- every step keeps it ---------- */

  // A caller that produces nothing moves on.
  lemma MoveKeeps(s: State, c: CallerId, j: Key, k: Key, p: Phase)
    requires Inv(s, k) && !Producing(p)
    requires c in s.callers ==> s.callers[c].key == j && !Producing(s.callers[c].phase)
    requires j == k ==> Seen(p, Computed(s, k))
    requires Linked(c, j, p, s.flights, s.inFlight)
    ensures Inv(Put(s, c, j, p), k)
  {
    var callers := s.callers[c := Caller(j, p)];
    assert CallersSeen(callers, k, Computed(s, k));
    assert Links(callers, s.flights, s.inFlight);
    assert Registry(callers, s.flights, s.inFlight);
  }

  lemma RegisterLinks(callers: map<CallerId, Caller>, flights: seq<Flight>, inFlight: map<Key, FlightId>,
                      c: CallerId, j: Key)
    requires Links(callers, flights, inFlight) && Registry(callers, flights, inFlight)
    requires j !in inFlight && c in callers && callers[c].key == j && !Producing(callers[c].phase)
    ensures var callers' := callers[c := Caller(j, Computing(|flights|))];
            var flights' := flights + [Flight(j, c, Pending)];
            Links(callers', flights', inFlight[j := |flights|]) && Registry(callers', flights', inFlight[j := |flights|])
  {
  }

  lemma EnterKeeps(s: State, c: CallerId, k: Key)
    requires Inv(s, k) && c in s.callers && !Producing(s.callers[c].phase)
    requires s.callers[c].key == k ==> k !in s.l1
    ensures Inv(Enter(s, c, s.callers[c].key), k)
  {
    var j := s.callers[c].key;
    if j in s.inFlight {
      MoveKeeps(s, c, j, k, Waiting(s.inFlight[j]));
    } else {
      RegisterLinks(s.callers, s.flights, s.inFlight, c, j);
      assert CallersSeen(Enter(s, c, j).callers, k, Computed(s, k));
      assert Outcomes(Enter(s, c, j).flights, k, Computed(s, k));
    }
  }

  lemma AfterL2Keeps(s: State, c: CallerId, k: Key, raw: Option<Eval>, usable: bool)
    requires Inv(s, k) && c in s.callers && s.callers[c].phase == GotL2(raw)
    ensures Inv(AfterL2(s, c, s.callers[c].key, raw, usable, true), k)
  {
    var j := s.callers[c].key;
    if raw.Some? && usable {
      MoveKeeps(s.(l1 := s.l1[j := raw.value]), c, j, k, Answered(raw.value));
    } else if j in s.l1 {
      MoveKeeps(s, c, j, k, Answered(s.l1[j]));
    } else {
      EnterKeeps(s, c, k);
    }
  }

  lemma LeaveLinks(callers: map<CallerId, Caller>, flights: seq<Flight>, inFlight: map<Key, FlightId>,
                   c: CallerId, p: Phase, outcome: Outcome)
    requires Links(callers, flights, inFlight) && Registry(callers, flights, inFlight)
    requires c in callers && Producing(callers[c].phase) && outcome != Pending && (p.Answered? || p.Raised?)
    ensures var j, f := callers[c].key, callers[c].phase.flight;
            f < |flights| && flights[f].key == j
            && Links(callers[c := Caller(j, p)], flights[f := flights[f].(outcome := outcome)], inFlight - {j})
            && Registry(callers[c := Caller(j, p)], flights[f := flights[f].(outcome := outcome)], inFlight - {j})
  {
    assert Linked(c, callers[c].key, callers[c].phase, flights, inFlight);
  }

  lemma LeaveKeeps(s: State, c: CallerId, k: Key, outcome: Outcome)
    requires Inv(s, k) && c in s.callers && Producing(s.callers[c].phase) && outcome != Pending
    requires outcome.Resolved? && s.callers[c].key == k ==> Computed(s, k) == [outcome.value]
    ensures s.callers[c].phase.flight < |s.flights|
    ensures Inv(Leave(s, c, s.callers[c].key, s.callers[c].phase.flight, outcome), k)
  {
    LeaveLinks(s.callers, s.flights, s.inFlight, c, Awake(outcome), outcome);
    var s' := Leave(s, c, s.callers[c].key, s.callers[c].phase.flight, outcome);
    assert CallersSeen(s'.callers, k, Computed(s, k));
    assert Outcomes(s'.flights, k, Computed(s, k));
  }

  // Only one caller of a key produces at a time.
  lemma OneProducer(s: State, c: CallerId, d: CallerId)
    requires Links(s.callers, s.flights, s.inFlight)
    requires c in s.callers && d in s.callers && s.callers[c].key == s.callers[d].key
    requires Producing(s.callers[c].phase) && Producing(s.callers[d].phase)
    ensures c == d
  {
    assert Linked(c, s.callers[c].key, s.callers[c].phase, s.flights, s.inFlight);
    assert Linked(d, s.callers[d].key, s.callers[d].phase, s.flights, s.inFlight);
  }

  // The engine answers: the count goes up, L1 is filled, the flight still registered.
  function Filled(s: State, k: Key, v: Eval): State {
    s.(computed := s.computed[k := Computed(s, k) + [v]], l1 := s.l1[k := v])
  }

  lemma StoringKeeps(s: State, c: CallerId, k: Key, v: Eval)
    requires Inv(s, k) && c in s.callers && s.callers[c].phase.Computing?
    ensures var j, f := s.callers[c].key, s.callers[c].phase.flight;
            Inv(Put(Filled(s, j, v).(writes := s.writes + {(j, v)}), c, j, Storing(f, v)), k)
  {
    var j, f := s.callers[c].key, s.callers[c].phase.flight;
    var s' := Put(Filled(s, j, v).(writes := s.writes + {(j, v)}), c, j, Storing(f, v));
    assert Linked(c, j, s.callers[c].phase, s.flights, s.inFlight);
    forall d | d in s'.callers && s'.callers[d].key == k
      ensures Seen(s'.callers[d].phase, Computed(s', k))
    {
      if j == k && d != c && Producing(s.callers[d].phase) {
        OneProducer(s, c, d);
      }
    }
    assert Links(s'.callers, s'.flights, s'.inFlight);
    assert Registry(s'.callers, s'.flights, s'.inFlight);
  }

  lemma ProduceKeeps(s: State, c: CallerId, k: Key, v: Eval)
    requires Inv(s, k) && c in s.callers && s.callers[c].phase.Computing?
    ensures s.callers[c].phase.flight < |s.flights|
    ensures Inv(Produce(s, c, s.callers[c].key, s.callers[c].phase.flight, v), k)
  {
    var j, f := s.callers[c].key, s.callers[c].phase.flight;
    assert Linked(c, j, s.callers[c].phase, s.flights, s.inFlight);
    if j in s.l1 {
      assert j != k;
      assert Inv(Filled(s, j, v), k);
      LeaveKeeps(Filled(s, j, v), c, k, Resolved(v));
    } else {
      StoringKeeps(s, c, k, v);
    }
  }

  lemma CallerStepKeeps(s: State, c: CallerId, e: Event, k: Key)
    requires Inv(s, k) && c in s.callers && CallerStep(s, c, e, true).Some?
    ensures Inv(CallerStep(s, c, e, true).value, k)
  {
    var j, p := s.callers[c].key, s.callers[c].phase;
    match e
    case DiskReads(ok) => MoveKeeps(s, c, j, k, GotL2(DiskRead(s, j, ok)));
    case Resumes(usable) => AfterL2Keeps(s, c, k, p.raw, usable);
    case EngineAnswers(v) => ProduceKeeps(s, c, k, v);
    case StoreDone => LeaveKeeps(s, c, k, Resolved(p.value));
    case ProducerFails => LeaveKeeps(s, c, k, Failed);
    case Wakes =>
      assert Linked(c, j, p, s.flights, s.inFlight);
      MoveKeeps(s, c, j, k, Awake(s.flights[p.flight].outcome));
    case Cancelled => MoveKeeps(s, c, j, k, Raised);
  }

  lemma StepKeeps(s: State, a: Action, k: Key)
    requires Inv(s, k) && Step(s, a, true).Some?
    ensures Inv(Step(s, a, true).value, k)
  {
    match a
    case Call(c, j) => MoveKeeps(s, c, j, k, if j in s.l1 then Answered(s.l1[j]) else ReadingL2);
    case Happens(c, e) => CallerStepKeeps(s, c, e, k);
    case DiskWrites(j, v) =>
  }

  lemma {:induction false} RunKeeps(s: State, actions: seq<Action>, k: Key)
    requires Inv(s, k) && Run(s, actions, true).Some?
    ensures Inv(Run(s, actions, true).value, k)
    decreases |actions|
  {
    if actions != [] {
      RunKeeps(s, actions[..|actions| - 1], k);
      StepKeeps(Run(s, actions[..|actions| - 1], true).value, actions[|actions| - 1], k);
    }
  }

  /* ---------- what it means ---------- */

  // Whatever the two tiers held for other keys and however calls, disk reads and
  // writes, engine answers, failures and cancellations interleave: a key that both
  // tiers lacked is computed successfully at most once, and every caller that gets
  // an answer gets that value.
  lemma OneComputationPerKey(l1: map<Key, Eval>, l2: map<Key, Eval>, actions: seq<Action>, k: Key, s: State)
    requires k !in l1 && k !in l2 && Run(Init(l1, l2), actions, true) == Some(s)
    ensures |Computed(s, k)| <= 1
    ensures forall c | c in s.callers && s.callers[c].key == k && s.callers[c].phase.Answered? ::
              Computed(s, k) == [s.callers[c].phase.value]
  {
    assert Inv(Init(l1, l2), k);
    RunKeeps(Init(l1, l2), actions, k);
    forall c | c in s.callers && s.callers[c].key == k && s.callers[c].phase.Answered?
      ensures Computed(s, k) == [s.callers[c].phase.value]
    {
      assert Seen(s.callers[c].phase, Computed(s, k));
    }
  }

  ghost function LongerThanAll(keys: set<Key>): (n: nat)
    ensures forall k | k in keys :: |k| < n
  {
    if keys == {} then 0
    else
      var k :| k in keys;
      var n := LongerThanAll(keys - {k});
      if |k| < n then n else |k| + 1
  }

  // Coalescing: at any time at most one caller of a key is at the engine, and no
  // caller waits for a future that nobody is going to settle.
  lemma WaitersHaveAProducer(l1: map<Key, Eval>, l2: map<Key, Eval>, actions: seq<Action>, s: State)
    requires Run(Init(l1, l2), actions, true) == Some(s)
    ensures forall c, d | c in s.callers && d in s.callers && s.callers[c].key == s.callers[d].key
                          && Producing(s.callers[c].phase) && Producing(s.callers[d].phase) :: c == d
    ensures forall c | c in s.callers && s.callers[c].phase.Waiting? ::
              var f := s.callers[c].phase.flight;
              Settled(s, f) || exists d :: d in s.callers && Producing(s.callers[d].phase) && s.callers[d].phase.flight == f
  {
    var k := seq(LongerThanAll(l1.Keys + l2.Keys), _ => 'k');
    assert k !in l1.Keys + l2.Keys;
    assert Inv(Init(l1, l2), k);
    RunKeeps(Init(l1, l2), actions, k);
    forall c, d | c in s.callers && d in s.callers && s.callers[c].key == s.callers[d].key
                  && Producing(s.callers[c].phase) && Producing(s.callers[d].phase)
      ensures c == d
    {
      OneProducer(s, c, d);
    }
    forall c | c in s.callers && s.callers[c].phase.Waiting?
      ensures var f := s.callers[c].phase.flight;
              Settled(s, f) || exists d :: d in s.callers && Producing(s.callers[d].phase) && s.callers[d].phase.flight == f
    {
      var f := s.callers[c].phase.flight;
      assert Linked(c, s.callers[c].key, s.callers[c].phase, s.flights, s.inFlight);
      if !Settled(s, f) {
        assert s.flights[f].producer in s.callers && s.callers[s.flights[f].producer].phase.flight == f;
      }
    }
  }

  /* ---------- the recheck is needed ---------- */

  lemma RunAppend(s: State, actions: seq<Action>, a: Action, recheck: bool, before: State)
    requires Run(s, actions, recheck) == Some(before)
    ensures Run(s, actions + [a], recheck) == Step(before, a, recheck)
  {
    assert (actions + [a])[..|actions|] == actions;
  }

  // Caller c computes key k; caller d missed L1 before and has just come back from
  // the disk with nothing.
  predicate LateReader(s: State, c: CallerId, d: CallerId, k: Key) {
    && c != d && c in s.callers && d in s.callers
    && s.callers[c].key == k && s.callers[c].phase.Computing? && s.callers[c].phase.flight < |s.flights|
    && s.callers[d] == Caller(k, GotL2(None))
    && k !in s.l1
  }

  lemma FirstAnswer(s: State, c: CallerId, d: CallerId, k: Key, v: Eval)
    requires LateReader(s, c, d, k)
    ensures var s1 := Step(s, Happens(c, EngineAnswers(v)), false);
            && s1.Some? && Step(s1.value, Happens(c, StoreDone), false).Some?
            && var s2 := Step(s1.value, Happens(c, StoreDone), false).value;
               && k !in s2.inFlight && k in s2.l1 && s2.l1[k] == v
               && d in s2.callers && s2.callers[d] == Caller(k, GotL2(None)) && Computed(s2, k) == Computed(s, k) + [v]
  {
  }

  lemma SecondAnswer(s: State, d: CallerId, k: Key, w: Eval)
    requires d in s.callers && s.callers[d] == Caller(k, GotL2(None)) && k !in s.inFlight
    ensures var s3 := Step(s, Happens(d, Resumes(true)), false);
            && s3.Some? && Step(s3.value, Happens(d, EngineAnswers(w)), false).Some?
            && Computed(Step(s3.value, Happens(d, EngineAnswers(w)), false).value, k) == Computed(s, k) + [w]
  {
  }

  // Without the second look into L1 a late reader makes the engine search the key
  // again, although L1 holds the value when it resumes: the claim that the recheck
  // removes redundant searches is exact.
  lemma WithoutRecheckALateReaderSearchesAgain(s: State, c: CallerId, d: CallerId, k: Key, v: Eval, w: Eval)
    requires LateReader(s, c, d, k)
    ensures var late := [Happens(c, EngineAnswers(v)), Happens(c, StoreDone),
                         Happens(d, Resumes(true)), Happens(d, EngineAnswers(w))];
            Run(s, late, false).Some? && Computed(Run(s, late, false).value, k) == Computed(s, k) + [v, w]
  {
    FirstAnswer(s, c, d, k, v);
    var s1 := Step(s, Happens(c, EngineAnswers(v)), false).value;
    var s2 := Step(s1, Happens(c, StoreDone), false).value;
    SecondAnswer(s2, d, k, w);
    var s3 := Step(s2, Happens(d, Resumes(true)), false).value;
    FourSteps(s, Happens(c, EngineAnswers(v)), s1, Happens(c, StoreDone), s2,
              Happens(d, Resumes(true)), s3, Happens(d, EngineAnswers(w)));
  }

  lemma FourSteps(s: State, a: Action, s1: State, b: Action, s2: State, c: Action, s3: State, d: Action)
    requires Step(s, a, false) == Some(s1) && Step(s1, b, false) == Some(s2) && Step(s2, c, false) == Some(s3)
    ensures Run(s, [a, b, c, d], false) == Step(s3, d, false)
  {
    RunAppend(s, [], a, false, s);
    assert [] + [a] == [a];
    RunAppend(s, [a], b, false, s1);
    assert [a] + [b] == [a, b];
    RunAppend(s, [a, b], c, false, s2);
    assert [a, b] + [c] == [a, b, c];
    RunAppend(s, [a, b, c], d, false, s3);
    assert [a, b, c] + [d] == [a, b, c, d];
  }

  // Such late readers do occur.
  lemma LateReadersOccur(k: Key) returns (actions: seq<Action>, s: State)
    ensures Run(Init(map[], map[]), actions, false) == Some(s)
    ensures LateReader(s, 0, 1, k) && Computed(s, k) == []
  {
    var s0 := Init(map[], map[]);
    RunAppend(s0, [], Call(0, k), false, s0);
    var s1 := Start(s0, 0, k);
    RunAppend(s0, [] + [Call(0, k)], Happens(0, DiskReads(true)), false, s1);
    var s2 := Put(s1, 0, k, GotL2(None));
    RunAppend(s0, [] + [Call(0, k)] + [Happens(0, DiskReads(true))], Happens(0, Resumes(true)), false, s2);
    var s3 := Enter(s2, 0, k);
    actions := [] + [Call(0, k)] + [Happens(0, DiskReads(true))] + [Happens(0, Resumes(true))];
    RunAppend(s0, actions, Call(1, k), false, s3);
    var s4 := Start(s3, 1, k);
    RunAppend(s0, actions + [Call(1, k)], Happens(1, DiskReads(true)), false, s4);
    s := Put(s4, 1, k, GotL2(None));
    actions := actions + [Call(1, k)] + [Happens(1, DiskReads(true))];
  }
}
