/**
 When the search that holds the lock can be brought to its end by the broker and
 the engine alone, and what happens when it cannot: an endless search whose stop
 was lost keeps the engine.
 */
module BrokerProgress {
  import opened Options
  import opened UciBroker
  import opened BrokerInvariant
  import opened BrokerSafety
  import opened BrokerRuns

  /* ---------- the distance to the end of a search ---------- */

  function Stage(phase: Phase): nat {
    match phase
    case Configuring(_) => 6
    case AwaitReady => 5
    case SentNewGame => 4
    case SentPosition => 3
    case Reading => 2
    case Forwarding(last) => if last then 1 else 2
    case _ => 0
  }

  function One(b: bool): nat { if b then 1 else 0 }

  // What is left to do in one stage: options to write, lines the engine has to read,
  // lines the task has to read, the end of the search.
  function Work(s: State, t: TaskId): nat
    requires t in s.tasks
  {
    match s.tasks[t].phase
    case Configuring(left) => |left|
    case AwaitReady => 2 * |s.input| + |s.output|
    case Reading => 4 * |s.input| + 2 * |s.output| + 6 * One(t !in s.ended)
    case Forwarding(_) => 4 * |s.input| + 2 * |s.output| + 6 * One(t !in s.ended) + 1
    case _ => 0
  }

  // Task t still holds the lock and is closer to its end.
  predicate Closer(s': State, s: State, t: TaskId)
    requires t in s.tasks
  {
    && s'.lock == Some(t) && t in s'.tasks
    && (Stage(s'.tasks[t].phase) < Stage(s.tasks[t].phase)
        || (Stage(s'.tasks[t].phase) == Stage(s.tasks[t].phase) && Work(s', t) < Work(s, t)))
  }

  predicate Over(s: State, t: TaskId) {
    s.lock == None && t in s.tasks && s.tasks[t].phase == Done(Finished) && t in s.ended
  }

  /* ---------- one step closer ---------- */

  lemma ConfiguringMoves(s: State, t: TaskId) returns (a: Action)
    requires Configuration(s) && s.lock == Some(t) && HasTask(s, t) && s.tasks[t].phase.Configuring?
    ensures Internal(a) && Step(s, a).Some? && Closer(Step(s, a).value, s, t)
  {
    var left := s.tasks[t].phase.left;
    if left == {} {
      a := AResume(t, "");
    } else {
      var name :| name in left;
      a := AResume(t, name);
      assert Step(s, a) == Some(SendOption(s, t, name));
      Removed(left, name);
    }
  }

  lemma Removed(left: set<string>, name: string)
    requires name in left
    ensures |left - {name}| < |left|
  {
  }

  lemma AwaitingReadyMoves(s: State, t: TaskId) returns (a: Action)
    requires Streams(s) && s.lock == Some(t) && HasTask(s, t) && s.tasks[t].phase.AwaitReady?
    ensures Internal(a) && Step(s, a).Some? && Closer(Step(s, a).value, s, t)
  {
    if s.output != [] {
      a := AResume(t, "");
      assert Step(s, a) == Some(ReadReady(s, t));
    } else {
      a := AConsume;
      assert s.input != [];
    }
  }

  // The search ends by itself, has ended, or a stop that counts has been written.
  ghost predicate CanEnd(s: State, t: TaskId) {
    Bounded(s, t) || t in s.ended || Drain(s.engine, s.input).search == Some(Search(t, Some(t)))
  }

  lemma ReadingMoves(s: State, t: TaskId) returns (a: Action)
    requires Streams(s) && s.lock == Some(t) && HasTask(s, t) && s.tasks[t].phase.Reading? && CanEnd(s, t)
    ensures Internal(a) && Step(s, a).Some? && Closer(Step(s, a).value, s, t)
  {
    if s.output != [] {
      a := AResume(t, "");
      assert Step(s, a) == Some(ReadLine(s, t));
    } else if s.input != [] {
      a := AConsume;
      ConsumeComesCloser(s, t);
    } else {
      assert t in s.started && t !in s.ended;
      a := ABest;
      SearchIsHolders(s);
    }
  }

  lemma ConsumeComesCloser(s: State, t: TaskId)
    requires s.input != [] && s.lock == Some(t) && t in s.tasks && s.tasks[t].phase.Reading?
    ensures Closer(Consume(s), s, t)
  {
  }

  lemma OtherMoves(s: State, t: TaskId) returns (a: Action)
    requires Streams(s) && s.lock == Some(t) && HasTask(s, t)
    requires s.tasks[t].phase.SentNewGame? || s.tasks[t].phase.SentPosition? || s.tasks[t].phase.Forwarding?
    ensures Internal(a) && Step(s, a).Some?
    ensures Closer(Step(s, a).value, s, t) || Over(Step(s, a).value, t)
  {
    a := AResume(t, "");
    match s.tasks[t].phase
    case SentNewGame => assert Step(s, a) == Some(AfterNewGame(s, t));
    case SentPosition => assert Step(s, a) == Some(SendGo(s, t));
    case Forwarding(_) => assert Step(s, a) == Some(AfterForward(s, t));
  }

  lemma HolderMoves(s: State, t: TaskId) returns (a: Action)
    requires Reachable(s) && s.lock == Some(t) && CanEnd(s, t)
    ensures t in s.tasks && Internal(a) && Step(s, a).Some?
    ensures Closer(Step(s, a).value, s, t) || Over(Step(s, a).value, t)
  {
    ReachableKeeps(s);
    Holds(s, t);
    match s.tasks[t].phase
    case Configuring(_) => a := ConfiguringMoves(s, t);
    case AwaitReady => a := AwaitingReadyMoves(s, t);
    case Reading => a := ReadingMoves(s, t);
    case _ => a := OtherMoves(s, t);
  }

  /* ---------- all the way ---------- */

  lemma {:induction false} RunFrom(s: State, a: Action, rest: seq<Action>)
    requires Step(s, a).Some?
    ensures Run(s, [a] + rest) == Run(Step(s, a).value, rest)
    decreases |rest|
  {
    if rest == [] {
      assert [a] + rest == [a] && [a][..0] == [];
    } else {
      assert ([a] + rest)[..|rest|] == [a] + rest[..|rest| - 1];
      RunFrom(s, a, rest[..|rest| - 1]);
    }
  }

  // These steps of the broker and the engine bring the search of task t to its end.
  predicate Finishes(s: State, t: TaskId, actions: seq<Action>) {
    && (forall k | 0 <= k < |actions| :: Internal(actions[k]))
    && Run(s, actions).Some? && Over(Run(s, actions).value, t)
  }

  lemma FinishesAfter(s: State, t: TaskId, a: Action, next: State, rest: seq<Action>)
    requires Internal(a) && Step(s, a) == Some(next) && Finishes(next, t, rest)
    ensures Finishes(s, t, [a] + rest)
  {
    RunFrom(s, a, rest);
  }

  lemma NothingMoreToDo(s: State, t: TaskId)
    requires Over(s, t)
    ensures Finishes(s, t, [])
  {
  }

  /* ---------- what keeps a search able to end ---------- */

  lemma EndlessStays(s: State, a: Action)
    requires Step(s, a).Some?
    ensures Step(s, a).value.endless == s.endless
  {
    if a.AResume? {
      ResumeEndless(s, a.task, a.name);
    }
  }

  lemma ResumeEndless(s: State, u: TaskId, name: string)
    requires HasTask(s, u) && Resume(s, u, name).Some?
    ensures Resume(s, u, name).value.endless == s.endless
  {
  }

  // Once its `go` is written the holder writes nothing more, and nobody else writes
  // but clients.
  lemma ResumeWritesNothing(s: State, u: TaskId, name: string, t: TaskId)
    requires Ownership(s.tasks, s.lock, s.active) && HasTask(s, u) && Resume(s, u, name).Some?
    requires s.lock == Some(t) && t in s.tasks && (u == t ==> GoWritten(s.tasks[t].phase))
    ensures var s' := Resume(s, u, name).value; s'.input == s.input && s'.engine == s.engine && s'.ended == s.ended
  {
    ResumeShape(s, u, name);
    if u == t {
      match s.tasks[t].phase
      case Reading => assert Resume(s, t, name).value == ReadLine(s, t);
      case Forwarding(_) => assert Resume(s, t, name).value == AfterForward(s, t);
    }
  }

  lemma BoundedStays(s: State, a: Action, t: TaskId)
    requires Inv(s) && s.lock == Some(t) && Step(s, a).Some?
    ensures t in s.tasks && Bounded(Step(s, a).value, t) == Bounded(s, t)
  {
    StepLeaves(s, a, t);
    EndlessStays(s, a);
  }

  lemma CanEndStays(s: State, a: Action, t: TaskId)
    requires Inv(s) && s.lock == Some(t) && CanEnd(s, t) && Internal(a) && Step(s, a).Some?
    ensures CanEnd(Step(s, a).value, t)
  {
    BoundedStays(s, a, t);
    if !Bounded(s, t) {
      StoppedHasStarted(s, t);
      UnboundedCanEndStays(s, a, t);
    }
  }

  lemma UnboundedCanEndStays(s: State, a: Action, t: TaskId)
    requires Ownership(s.tasks, s.lock, s.active) && Streams(s) && s.lock == Some(t) && Internal(a) && Step(s, a).Some?
    requires GoWritten(s.tasks[t].phase)
    requires t in s.ended || Drain(s.engine, s.input).search == Some(Search(t, Some(t)))
    ensures CanEnd(Step(s, a).value, t)
  {
    if a.AResume? {
      ResumeWritesNothing(s, a.task, a.name, t);
    } else if a.ABest? {
      SearchIsHolders(s);
    }
  }

  // A search that ended or was stopped in time has started.
  lemma StoppedHasStarted(s: State, t: TaskId)
    requires Books(s) && Streams(s) && s.lock == Some(t)
    requires t in s.ended || Drain(s.engine, s.input).search == Some(Search(t, Some(t)))
    ensures t in s.tasks && GoWritten(s.tasks[t].phase)
  {
    Holds(s, t);
    if t !in s.ended && !GoWritten(s.tasks[t].phase) {
      DrainHolder(s, t);
    }
  }

  // A step closer to the end, or the last one.
  lemma OneStepCloser(s: State, t: TaskId) returns (a: Action, next: State)
    requires Reachable(s) && s.lock == Some(t) && t in s.tasks && CanEnd(s, t)
    ensures Internal(a) && Step(s, a) == Some(next) && Reachable(next) && CanEnd(next, t)
    ensures Closer(next, s, t) || Over(next, t)
  {
    a := HolderMoves(s, t);
    next := Step(s, a).value;
    ReachableStep(s, a);
    ReachableKeeps(s);
    CanEndStays(s, a, t);
  }

  lemma {:induction false} LockCanBeGivenUp(s: State, t: TaskId) returns (actions: seq<Action>)
    requires Reachable(s) && s.lock == Some(t) && t in s.tasks && CanEnd(s, t)
    ensures Finishes(s, t, actions)
    decreases Stage(s.tasks[t].phase), Work(s, t)
  {
    var a, next := OneStepCloser(s, t);
    var rest: seq<Action> := [];
    if Over(next, t) {
      NothingMoreToDo(next, t);
    } else {
      rest := LockCanBeGivenUp(next, t);
    }
    FinishesAfter(s, t, a, next, rest);
    actions := [a] + rest;
  }

  lemma {:induction false} ReachableRun(s: State, actions: seq<Action>)
    requires Reachable(s) && Run(s, actions).Some?
    ensures Reachable(Run(s, actions).value)
    decreases |actions|
  {
    if actions != [] {
      ReachableRun(s, actions[..|actions| - 1]);
      ReachableStep(Run(s, actions[..|actions| - 1]).value, actions[|actions| - 1]);
    }
  }

  // From every reachable state in which the search holding the lock can end it can
  // finish, without any client doing anything, free the lock and hand on its one
  // `bestmove`.
  lemma EverySearchCanFinish(s: State, t: TaskId) returns (actions: seq<Action>)
    requires Reachable(s) && s.lock == Some(t) && CanEnd(s, t)
    ensures Finishes(s, t, actions) && BestCount(Run(s, actions).value.log, t) == 1
  {
    ReachableOwner(s);
    actions := LockCanBeGivenUp(s, t);
    ReachableRun(s, actions);
    ReachableHistory(Run(s, actions).value);
  }

  // A stop that came too early is really lost: a search with a bound can still run to
  // its end, and that end is caused by no stop.
  lemma EarlyStoppedSearchEndsByItself(s: State, a: Action) returns (actions: seq<Action>)
    requires Reachable(s) && SendsStop(s, a)
    requires s.lock.Some? && Bounded(s, s.lock.value) && !GoWritten(s.tasks[s.lock.value].phase)
    ensures Step(s, a).Some? && Finishes(Step(s, a).value, s.lock.value, actions)
    ensures Run(Step(s, a).value, actions).value.ended[s.lock.value] == None
  {
    var next := StoppedState(s, a);
    actions := LockCanBeGivenUp(next, s.lock.value);
    InternalSendsNoStop(next, actions);
    EarlyStopIsLost(s, a, actions);
  }

  lemma StoppedState(s: State, a: Action) returns (next: State)
    requires Reachable(s) && SendsStop(s, a)
    ensures Step(s, a) == Some(next) && Reachable(next) && next.lock == s.lock
    ensures next.lock.Some? && next.lock.value in next.tasks && s.lock.value in s.tasks
    ensures Bounded(next, next.lock.value) == Bounded(s, s.lock.value)
    ensures next.tasks[next.lock.value] == s.tasks[s.lock.value]
  {
    ReachableKeeps(s);
    StopStep(s, a);
    next := Step(s, a).value;
    ReachableStep(s, a);
    EndlessStays(s, a);
  }

  /* ---------- a search that cannot end ---------- */

  // An endless search holds the lock and no stop can reach it any more.
  ghost predicate Stuck(s: State, t: TaskId) {
    s.lock == Some(t) && Unstopped(s, t) && !Bounded(s, t) && t !in s.ended
  }

  // No search but t has started since.
  predicate OnlyStarted(s: State, s': State, t: TaskId) {
    forall u | u in s'.started :: u in s.started || u == t
  }

  lemma HolderKeepsLock(s: State, a: Action, t: TaskId)
    requires Ownership(s.tasks, s.lock, s.active) && Streams(s) && s.lock == Some(t) && t !in s.ended
    requires Step(s, a).Some?
    ensures Step(s, a).value.lock == Some(t)
  {
    assert s.tasks[t].phase != Forwarding(true);
    if a.AResume? {
      ResumeShape(s, a.task, a.name);
      if a.task == t {
        UnlessLastKeepsLock(s, t, a.name);
      }
    } else {
      ClientLock(s, a);
    }
  }

  lemma UnlessLastKeepsLock(s: State, t: TaskId, name: string)
    requires HasTask(s, t) && Holding(s.tasks[t].phase) && s.tasks[t].phase != Forwarding(true)
    requires Resume(s, t, name).Some?
    ensures Resume(s, t, name).value.lock == s.lock
  {
  }

  // Steps that end no search start none but the holder's.
  lemma StuckHistory(s: State, a: Action, t: TaskId)
    requires Streams(s) && Stuck(s, t) && Step(s, a).Some?
    ensures t !in Step(s, a).value.ended && OnlyStarted(s, Step(s, a).value, t)
  {
    if a.AConsume? {
      if s.input[0].Go? {
        GoAtHead(s);
      }
    } else if a.ABest? {
      SearchIsHolders(s);
    } else {
      HistoryStays(s, a);
    }
  }

  lemma HistoryStays(s: State, a: Action)
    requires Step(s, a).Some? && !a.AConsume? && !a.ABest?
    ensures Step(s, a).value.started == s.started && Step(s, a).value.ended == s.ended
  {
    match a
    case ARequest(c, r) => RequestHistory(s, c, r);
    case ADisconnect(c) => assert Step(s, a) == Some(Disconnect(s, c));
    case AResume(u, name) => ResumeShape(s, u, name);
    case _ =>
  }

  lemma RequestHistory(s: State, c: SessionId, r: Request)
    requires c in s.sessions
    ensures Handle(s, c, r).started == s.started && Handle(s, c, r).ended == s.ended
  {
  }

  lemma StuckStays(s: State, a: Action, t: TaskId)
    requires Inv(s) && Stuck(s, t) && !SendsStop(s, a) && Step(s, a).Some?
    ensures Stuck(Step(s, a).value, t) && OnlyStarted(s, Step(s, a).value, t)
  {
    StepUnstopped(s, a, t);
    HolderKeepsLock(s, a, t);
    StuckHistory(s, a, t);
    BoundedStays(s, a, t);
  }

  // In every run in which no stop is sent for it, whatever else clients send, a stuck
  // search keeps the lock, and no other search starts.
  lemma {:induction false} StuckForTheRun(s: State, actions: seq<Action>, t: TaskId)
    requires Inv(s) && Stuck(s, t) && Run(s, actions).Some? && NoStopSent(s, actions)
    ensures Inv(Run(s, actions).value) && Stuck(Run(s, actions).value, t)
    ensures OnlyStarted(s, Run(s, actions).value, t)
    decreases |actions|
  {
    if actions != [] {
      var before := Run(s, actions[..|actions| - 1]).value;
      StuckForTheRun(s, actions[..|actions| - 1], t);
      StuckStays(before, actions[|actions| - 1], t);
      StepKeeps(before, actions[|actions| - 1]);
    }
  }

  lemma CannotEndIsStuck(s: State, t: TaskId)
    requires Inv(s) && s.lock == Some(t) && !CanEnd(s, t)
    ensures Stuck(s, t)
  {
    Holds(s, t);
    if GoWritten(s.tasks[t].phase) {
      NotStoppedIsUnstopped(s, t);
    }
  }

  lemma NotStoppedIsUnstopped(s: State, t: TaskId)
    requires Streams(s) && s.lock == Some(t) && GoWritten(s.tasks[t].phase) && t !in s.ended
    requires Holding(s.tasks[t].phase) && Drain(s.engine, s.input).search != Some(Search(t, Some(t)))
    ensures Unstopped(s, t)
  {
    if t in s.started {
      DrainStops(s.engine, s.input, t);
    } else {
      var i :| Marked(s.input, i, t, Go(t, s.tasks[t].go));
      DrainMarked(s.engine, s.input, i, t, s.tasks[t].go);
    }
  }

  // The search that holds the lock can be brought to its end without any client
  // exactly if it has a bound, has ended, or a stop that counts has been written.
  lemma CanFinishExactly(s: State, t: TaskId)
    requires Reachable(s) && s.lock == Some(t)
    ensures (exists actions :: Finishes(s, t, actions)) <==> CanEnd(s, t)
  {
    if CanEnd(s, t) {
      var actions := EverySearchCanFinish(s, t);
    } else {
      ReachableKeeps(s);
      CannotEndIsStuck(s, t);
      forall actions | Finishes(s, t, actions)
        ensures false
      {
        InternalSendsNoStop(s, actions);
        StuckForTheRun(s, actions, t);
      }
    }
  }

  // An early stop of an endless search: in every run in which no further stop is sent
  // for it the search keeps the lock, and no other search starts.
  lemma EarlyStoppedEndlessSearchKeepsTheLock(s: State, a: Action, actions: seq<Action>)
    requires Reachable(s) && SendsStop(s, a)
    requires s.lock.Some? && s.lock.value in s.tasks && !Bounded(s, s.lock.value)
    requires !GoWritten(s.tasks[s.lock.value].phase)
    requires Step(s, a).Some? && Run(Step(s, a).value, actions).Some? && NoStopSent(Step(s, a).value, actions)
    ensures var s' := Run(Step(s, a).value, actions).value;
            s'.lock == s.lock && OnlyStarted(s, s', s.lock.value)
  {
    var t := s.lock.value;
    var next := StoppedState(s, a);
    EarlyStoppedIsStuck(s, a, next);
    StuckForTheRun(next, actions, t);
  }

  lemma EarlyStoppedIsStuck(s: State, a: Action, next: State)
    requires Reachable(s) && SendsStop(s, a) && Step(s, a) == Some(next)
    requires s.lock.Some? && s.lock.value in s.tasks && !Bounded(s, s.lock.value)
    requires !GoWritten(s.tasks[s.lock.value].phase)
    ensures Inv(next) && Stuck(next, s.lock.value) && next.started == s.started
  {
    ReachableKeeps(s);
    StopStep(s, a);
    StepKeeps(s, a);
    EndlessStays(s, a);
    Holds(s, s.lock.value);
  }

  /* ---------- a search nobody can stop ---------- */

  // The session of the stuck search has gone, and no preemption may stop it.
  ghost predicate Abandoned(s: State, t: TaskId, c: SessionId) {
    && Stuck(s, t) && t in s.tasks && s.tasks[t].session == c
    && c in s.sessions && s.sessions[c].closed && s.sessions[c].priority == Interactive
  }

  // Session c is still there, still closed or not, at the same priority.
  predicate SameStanding(sessions: map<SessionId, Session>, next: map<SessionId, Session>, c: SessionId) {
    && c in sessions && c in next && next[c].closed == sessions[c].closed
    && next[c].priority == sessions[c].priority
  }

  lemma ClosedStays(s: State, a: Action, c: SessionId)
    requires Step(s, a).Some? && c in s.sessions && s.sessions[c].closed
    ensures SameStanding(s.sessions, Step(s, a).value.sessions, c)
  {
    match a
    case AConnect(d) => assert Step(s, a) == Some(Connect(s, d));
    case ARequest(d, r) => RequestSessions(s, d, r, c);
    case ADisconnect(d) => DisconnectSessions(s, d, c);
    case AResume(u, name) => ResumeSessions(s, u, name, c);
    case _ => EngineSessions(s, a);
  }

  lemma EngineSessions(s: State, a: Action)
    requires (a.AConsume? || a.AInfo? || a.AChatter? || a.ABest?) && Step(s, a).Some?
    ensures Step(s, a).value.sessions == s.sessions
  {
  }

  lemma RequestSessions(s: State, d: SessionId, r: Request, c: SessionId)
    requires d in s.sessions && c in s.sessions && c != d
    ensures SameStanding(s.sessions, Handle(s, d, r).sessions, c)
  {
  }

  lemma DisconnectSessions(s: State, d: SessionId, c: SessionId)
    requires d in s.sessions && c in s.sessions && s.sessions[c].closed
    ensures SameStanding(s.sessions, Disconnect(s, d).sessions, c)
  {
  }

  lemma ResumeSessions(s: State, u: TaskId, name: string, c: SessionId)
    requires HasTask(s, u) && Resume(s, u, name).Some? && c in s.sessions
    ensures SameStanding(s.sessions, Resume(s, u, name).value.sessions, c)
  {
    match s.tasks[u].phase
    case AwaitReady => assert Resume(s, u, name) == Some(ReadReady(s, u));
    case SentNewGame => assert Resume(s, u, name) == Some(AfterNewGame(s, u));
    case _ => OtherResumeSessions(s, u, name);
  }

  lemma OtherResumeSessions(s: State, u: TaskId, name: string)
    requires HasTask(s, u) && Resume(s, u, name).Some?
    requires !s.tasks[u].phase.AwaitReady? && !s.tasks[u].phase.SentNewGame?
    ensures Resume(s, u, name).value.sessions == s.sessions
  {
  }

  lemma NobodyStopsTheAbandoned(s: State, a: Action, t: TaskId, c: SessionId)
    requires Ownership(s.tasks, s.lock, s.active) && Abandoned(s, t, c)
    ensures !SendsStop(s, a)
  {
  }

  lemma AbandonedStays(s: State, a: Action, t: TaskId, c: SessionId)
    requires Inv(s) && Abandoned(s, t, c) && Step(s, a).Some?
    ensures Abandoned(Step(s, a).value, t, c) && OnlyStarted(s, Step(s, a).value, t)
  {
    NobodyStopsTheAbandoned(s, a, t, c);
    StuckStays(s, a, t);
    StepLeaves(s, a, t);
    ClosedStays(s, a, c);
  }

  lemma {:induction false} AbandonedForEver(s: State, actions: seq<Action>, t: TaskId, c: SessionId)
    requires Inv(s) && Abandoned(s, t, c) && Run(s, actions).Some?
    ensures Inv(Run(s, actions).value) && Abandoned(Run(s, actions).value, t, c)
    ensures OnlyStarted(s, Run(s, actions).value, t)
    decreases |actions|
  {
    if actions != [] {
      var before := Run(s, actions[..|actions| - 1]).value;
      AbandonedForEver(s, actions[..|actions| - 1], t, c);
      AbandonedStays(before, actions[|actions| - 1], t, c);
      StepKeeps(before, actions[|actions| - 1]);
    }
  }

  // An interactive client that asks for an endless search and disconnects while the
  // engine is still being configured keeps the engine for ever: in every run at all
  // that follows the lock stays with its search, and no other search starts.
  lemma DisconnectedEndlessSearchKeepsTheEngine(s: State, c: SessionId, actions: seq<Action>)
    requires Reachable(s) && s.active == Some(c) && SendsStop(s, ADisconnect(c))
    requires s.sessions[c].priority == Interactive
    requires s.lock.Some? && s.lock.value in s.tasks && !Bounded(s, s.lock.value)
    requires !GoWritten(s.tasks[s.lock.value].phase)
    requires Run(Disconnect(s, c), actions).Some?
    ensures var s' := Run(Disconnect(s, c), actions).value;
            s'.lock == s.lock && OnlyStarted(s, s', s.lock.value)
  {
    var t := s.lock.value;
    EarlyStoppedIsStuck(s, ADisconnect(c), Disconnect(s, c));
    LeavesAbandoned(s, c);
    AbandonedForEver(Disconnect(s, c), actions, t, c);
  }

  lemma LeavesAbandoned(s: State, c: SessionId)
    requires Reachable(s) && s.active == Some(c) && SendsStop(s, ADisconnect(c)) && s.lock.Some?
    ensures var s', t := Disconnect(s, c), s.lock.value;
            && t in s'.tasks && s'.tasks[t].session == c
            && c in s'.sessions && s'.sessions[c].closed && s'.sessions[c].priority == s.sessions[c].priority
  {
    ReachableOwner(s);
    ReachableKeeps(s);
    StopStep(s, ADisconnect(c));
  }

  // There is such a moment.
  lemma EndlessSearchesOccur(defaults: Values, settings: Settings, text: string) returns (s: State)
    ensures Reachable(s) && s.active == Some(0) && s.lock == Some(0) && SendsStop(s, ADisconnect(0))
    ensures s.sessions[0].priority == Interactive
    ensures 0 in s.tasks && !GoWritten(s.tasks[0].phase) && !Bounded(s, 0) && s.tasks[0].go == text
  {
    s := Init(defaults, {text}, settings);
    assert Run(Init(defaults, {text}, settings), []) == Some(s);
    ReachableStep(s, AConnect(0));
    s := Connect(s, 0);
    ReachableStep(s, ARequest(0, ReqGo(text)));
    s := WithTask(s, 0, text);
    ReachableStep(s, AResume(0, ""));
    s := Acquire(s, 0);
  }
}
