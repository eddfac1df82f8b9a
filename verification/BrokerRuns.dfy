/**
 Theorems about two points of one run of the broker: under which options and at
 which position a search starts, and which `stop` lines have any effect.
 */
module BrokerRuns {
  import opened Options
  import opened UciBroker
  import opened BrokerInvariant
  import opened BrokerSafety

  /* ---------- options and position ---------- */

  // Past its wait for the lock a task keeps the options it configures with; past
  // its position line it keeps that too.
  predicate Later(task: Task, next: Task) {
    && next.session == task.session && next.go == task.go
    && next.merged == task.merged && next.base == task.base
    && !next.phase.Waiting?
    && (Posted(task.phase) ==> Posted(next.phase) && next.posted == task.posted)
  }

  predicate Posted(phase: Phase) {
    phase.SentPosition? || phase.Reading? || phase.Forwarding? || phase == Done(Finished)
  }

  // What one resumption of task u can touch.
  predicate Shape(s: State, s': State, u: TaskId) {
    && u in s.tasks && u in s'.tasks && s'.tasks == s.tasks[u := s'.tasks[u]]
    && s'.started == s.started && s'.ended == s.ended && s'.engine == s.engine
    && (!s.tasks[u].phase.Waiting? ==> Later(s.tasks[u], s'.tasks[u]))
    && (s.lock.Some? ==> s'.lock == s.lock || s'.lock == None)
    && (s.lock.None? ==> s'.lock == None || s'.lock == Some(u))
    && (!Holding(s.tasks[u].phase) ==> s'.input == s.input && (s.lock.Some? ==> s'.lock == s.lock))
    && (s.lock == Some(u) && s'.lock != s.lock ==> s'.tasks[u].phase == Done(Finished))
  }

  lemma SetPhaseShape(s: State, u: TaskId, phase: Phase)
    requires u in s.tasks && !phase.Waiting? && (Posted(s.tasks[u].phase) ==> Posted(phase))
    ensures SetPhase(s, u, phase).tasks == s.tasks[u := s.tasks[u].(phase := phase)]
    ensures Shape(s, SetPhase(s, u, phase), u)
  {
  }

  lemma ReadReadyShape(s: State, u: TaskId)
    requires HasTask(s, u) && s.output != [] && s.tasks[u].phase.AwaitReady?
    ensures Shape(s, ReadReady(s, u), u)
  {
    var rest := s.(output := s.output[1..]);
    if s.output[0] != ReadyOk {
      assert ReadReady(s, u) == rest && rest.tasks == s.tasks[u := s.tasks[u]];
    } else if s.sessions[s.tasks[u].session].newGame {
      SetPhaseShape(Write(rest, NewGame), u, SentNewGame);
    } else {
      assert ReadReady(s, u) == SendPosition(rest, u);
    }
  }

  lemma HeldShape(s: State, u: TaskId, name: string)
    requires HasTask(s, u) && Resume(s, u, name).Some?
    requires Holding(s.tasks[u].phase) && !s.tasks[u].phase.AwaitReady?
    ensures Shape(s, Resume(s, u, name).value, u)
  {
    match s.tasks[u].phase
    case Configuring(left) =>
      if left == {} {
        SetPhaseShape(Write(s, IsReady), u, AwaitReady);
      } else {
        SetPhaseShape(Write(s, SetOption(name, s.tasks[u].merged[name])), u, Configuring(left - {name}));
      }
    case SentNewGame => assert Resume(s, u, name).value == AfterNewGame(s, u);
    case SentPosition => SetPhaseShape(Write(s, Go(u, s.tasks[u].go)), u, Reading);
    case Reading => assert Resume(s, u, name).value == ReadLine(s, u);
    case Forwarding(_) => assert Resume(s, u, name).value == AfterForward(s, u);
  }

  lemma ResumeShape(s: State, u: TaskId, name: string)
    requires HasTask(s, u) && Resume(s, u, name).Some?
    ensures Shape(s, Resume(s, u, name).value, u)
  {
    if s.tasks[u].phase.AwaitReady? {
      ReadReadyShape(s, u);
    } else if Holding(s.tasks[u].phase) {
      HeldShape(s, u, name);
    } else if s.tasks[u].phase.Cancelling? {
      SetPhaseShape(s, u, Done(Cancelled));
    }
  }

  lemma StopLeaves(s: State, c: SessionId, t: TaskId)
    requires c in s.sessions && t in s.tasks && !s.tasks[t].phase.Waiting?
    requires s.active == Some(c) || (Live(s, c) ==> !Holding(s.tasks[s.sessions[c].task.value].phase))
    ensures t in StopSearch(s, c).tasks && Later(s.tasks[t], StopSearch(s, c).tasks[t])
  {
    if Live(s, c) && s.active != Some(c) {
      SetPhaseShape(s, s.sessions[c].task.value, Cancelling);
    }
  }

  // A live task whose session is not the active one does not hold the lock.
  lemma IdleSession(s: State, c: SessionId)
    requires Ownership(s.tasks, s.lock, s.active) && Tables(s.tasks, s.sessions, s.nextTask)
    requires c in s.sessions && Live(s, c) && s.active != Some(c)
    ensures !Holding(s.tasks[s.sessions[c].task.value].phase)
  {
  }

  lemma StartLeaves(s: State, c: SessionId, text: string, t: TaskId)
    requires c in s.sessions && t in s.tasks && t != s.nextTask && !s.tasks[t].phase.Waiting?
    ensures t in StartSearch(s, c, text).tasks && Later(s.tasks[t], StartSearch(s, c, text).tasks[t])
  {
  }

  lemma RequestLeaves(s: State, c: SessionId, r: Request, t: TaskId)
    requires c in s.sessions && t in s.tasks && t != s.nextTask && !s.tasks[t].phase.Waiting?
    requires s.active == Some(c) || (Live(s, c) ==> !Holding(s.tasks[s.sessions[c].task.value].phase))
    ensures t in Handle(s, c, r).tasks && Later(s.tasks[t], Handle(s, c, r).tasks[t])
  {
    match r
    case ReqStop => StopLeaves(s, c, t);
    case ReqGo(text) => StartLeaves(s, c, text, t);
    case _ =>
  }

  lemma ClientLeaves(s: State, a: Action, t: TaskId)
    requires Ownership(s.tasks, s.lock, s.active) && Tables(s.tasks, s.sessions, s.nextTask)
    requires t in s.tasks && !s.tasks[t].phase.Waiting? && Step(s, a).Some?
    requires a.ARequest? || a.ADisconnect?
    ensures t in Step(s, a).value.tasks && Later(s.tasks[t], Step(s, a).value.tasks[t])
  {
    var c := a.session;
    if Live(s, c) && s.active != Some(c) {
      IdleSession(s, c);
    }
    if a.ARequest? {
      RequestLeaves(s, c, a.request, t);
    } else if !s.sessions[c].closed {
      StopLeaves(s.(sessions := s.sessions[c := s.sessions[c].(closed := true)]), c, t);
    }
  }

  lemma StepLeaves(s: State, a: Action, t: TaskId)
    requires Ownership(s.tasks, s.lock, s.active) && Tables(s.tasks, s.sessions, s.nextTask)
    requires t in s.tasks && !s.tasks[t].phase.Waiting? && Step(s, a).Some?
    ensures t in Step(s, a).value.tasks && Later(s.tasks[t], Step(s, a).value.tasks[t])
  {
    match a
    case ARequest(c, r) => ClientLeaves(s, a, t);
    case ADisconnect(c) => ClientLeaves(s, a, t);
    case AResume(u, name) => ResumeShape(s, u, name);
    case _ =>
  }

  lemma ClientLock(s: State, a: Action)
    requires Step(s, a).Some? && !a.AResume?
    ensures Step(s, a).value.lock == s.lock
  {
  }

  lemma LockChange(s: State, a: Action, t: TaskId)
    requires Ownership(s.tasks, s.lock, s.active) && s.lock == Some(t) && Step(s, a).Some?
    ensures Step(s, a).value.lock == Some(t)
            || (t in Step(s, a).value.tasks && Step(s, a).value.tasks[t].phase == Done(Finished))
  {
    if a.AResume? {
      ResumeShape(s, a.task, a.name);
    } else {
      ClientLock(s, a);
    }
  }

  // A search that got the lock gives it up in one way only: by handing on its
  // `bestmove`, once.
  lemma LockEndsInOneBestMove(s: State, a: Action, t: TaskId)
    requires Reachable(s) && s.lock == Some(t) && Step(s, a).Some?
    ensures var s' := Step(s, a).value;
            s'.lock != Some(t) ==>
              t in s'.tasks && s'.tasks[t].phase == Done(Finished) && BestCount(s'.log, t) == 1
  {
    ReachableKeeps(s);
    StepKeeps(s, a);
    LockChange(s, a, t);
  }

  lemma {:induction false} RunLeaves(s: State, actions: seq<Action>, t: TaskId)
    requires Inv(s) && t in s.tasks && !s.tasks[t].phase.Waiting? && Run(s, actions).Some?
    ensures Inv(Run(s, actions).value)
    ensures t in Run(s, actions).value.tasks && Later(s.tasks[t], Run(s, actions).value.tasks[t])
    decreases |actions|
  {
    if actions != [] {
      var before := Run(s, actions[..|actions| - 1]).value;
      RunLeaves(s, actions[..|actions| - 1], t);
      StepLeaves(before, actions[|actions| - 1], t);
      StepKeeps(before, actions[|actions| - 1]);
    }
  }

  // What a search starts with was fixed when its task took the lock and, for the
  // position, when it wrote its position line.
  lemma StartedAsFixed(s: State, actions: seq<Action>, t: TaskId)
    requires Inv(s) && t in s.tasks && !s.tasks[t].phase.Waiting? && Run(s, actions).Some?
    ensures t in Run(s, actions).value.started ==>
              && Run(s, actions).value.started[t].options == Target(s.tasks[t])
              && (Posted(s.tasks[t].phase) ==> Run(s, actions).value.started[t].position == s.tasks[t].posted)
  {
    RunLeaves(s, actions, t);
    var s' := Run(s, actions).value;
    assert Started(s'.tasks, s'.started);
  }

  // Whatever other sessions do before or after, a search starts with the defaults
  // overridden by what its session asked for when its turn came, and with every
  // other option as the engine had it at that moment.
  lemma SearchStartsUnderItsOwnOptions(s: State, t: TaskId, actions: seq<Action>)
    requires Reachable(s) && HasTask(s, t) && s.tasks[t].phase.Waiting? && s.lock.None?
    requires !s.sessions[s.tasks[t].session].closed
    requires Run(Acquire(s, t), actions).Some? && t in Run(Acquire(s, t), actions).value.started
    ensures Run(Acquire(s, t), actions).value.started[t].options
            == s.engine.settings.options + (s.defaults + s.sessions[s.tasks[t].session].options)
  {
    ReachableKeeps(s);
    AcquireKeeps(s, t);
    StartedAsFixed(Acquire(s, t), actions, t);
  }

  lemma ReadReadyKeeps(s: State, t: TaskId)
    requires Inv(s) && HasTask(s, t) && s.tasks[t].phase.AwaitReady? && s.output != []
    ensures Inv(ReadReady(s, t))
  {
    Holds(s, t);
    ReadReadyBooks(s, t);
    ReadReadyWires(s, t);
  }

  lemma AfterNewGameKeeps(s: State, t: TaskId)
    requires Inv(s) && HasTask(s, t) && s.tasks[t].phase.SentNewGame?
    ensures Inv(AfterNewGame(s, t))
  {
    Holds(s, t);
    AfterNewGameBooks(s, t);
    AfterNewGameWires(s, t);
  }

  // ... and at the position its session had when the position line was written.
  lemma SearchStartsAtItsOwnPosition(s: State, t: TaskId, actions: seq<Action>)
    requires Reachable(s) && HasTask(s, t) && s.tasks[t].phase.AwaitReady?
    requires s.output != [] && s.output[0] == ReadyOk && !s.sessions[s.tasks[t].session].newGame
    requires Run(ReadReady(s, t), actions).Some? && t in Run(ReadReady(s, t), actions).value.started
    ensures Run(ReadReady(s, t), actions).value.started[t].position == s.sessions[s.tasks[t].session].position
  {
    ReachableKeeps(s);
    ReadReadyKeeps(s, t);
    StartedAsFixed(ReadReady(s, t), actions, t);
  }

  // The same when `ucinewgame` comes first: the position is the one the session has
  // after that line was sent.
  lemma FirstSearchStartsAtItsOwnPosition(s: State, t: TaskId, actions: seq<Action>)
    requires Reachable(s) && HasTask(s, t) && s.tasks[t].phase.SentNewGame?
    requires Run(AfterNewGame(s, t), actions).Some? && t in Run(AfterNewGame(s, t), actions).value.started
    ensures Run(AfterNewGame(s, t), actions).value.started[t].position == s.sessions[s.tasks[t].session].position
  {
    ReachableKeeps(s);
    AfterNewGameKeeps(s, t);
    StartedAsFixed(AfterNewGame(s, t), actions, t);
  }

  /* ---------- which stops have an effect ---------- */

  // The engine once it has read every line of q, ending no search by itself.
  ghost function Drain(e: Engine, q: seq<Command>): Engine
    decreases |q|
  {
    if q == [] then e else Drain(Obey(e, q[0]), q[1..])
  }

  lemma {:induction false} DrainAppend(e: Engine, q: seq<Command>, c: Command)
    ensures Drain(e, q + [c]) == Obey(Drain(e, q), c)
    decreases |q|
  {
    if q == [] {
      assert q + [c] == [c] && [c][1..] == [];
      assert Drain(Obey(e, c), []) == Obey(e, c);
    } else {
      assert (q + [c])[1..] == q[1..] + [c];
      DrainAppend(Obey(e, q[0]), q[1..], c);
    }
  }

  lemma {:induction false} DrainIdle(e: Engine, q: seq<Command>)
    requires e.search == None && forall k | 0 <= k < |q| :: !q[k].Go?
    ensures Drain(e, q).search == None
    decreases |q|
  {
    if q != [] {
      DrainIdle(Obey(e, q[0]), q[1..]);
    }
  }

  lemma {:induction false} DrainStops(e: Engine, q: seq<Command>, t: TaskId)
    requires StopsOf(q, t) && (e.search == Some(Search(t, None)) || e.search == Some(Search(t, Some(t))))
    ensures Drain(e, q).search == if q == [] then e.search else Some(Search(t, Some(t)))
    decreases |q|
  {
    if q != [] {
      assert q[0] == Stop(t);
      DrainStops(Obey(e, q[0]), q[1..], t);
    }
  }

  lemma {:induction false} DrainMarked(e: Engine, q: seq<Command>, i: int, t: TaskId, go: string)
    requires e.search == None && Marked(q, i, t, Go(t, go))
    ensures Drain(e, q).search == Some(Search(t, if i == |q| - 1 then None else Some(t)))
    decreases |q|
  {
    MarkedHead(q, i, t, Go(t, go));
    if i == 0 {
      DrainStops(Obey(e, q[0]), q[1..], t);
    } else {
      DrainMarked(Obey(e, q[0]), q[1..], i - 1, t, go);
    }
  }

  lemma {:induction false} DrainMarkedReady(e: Engine, q: seq<Command>, i: int, t: TaskId)
    requires e.search == None && Marked(q, i, t, IsReady)
    ensures Drain(e, q).search == None
    decreases |q|
  {
    MarkedHead(q, i, t, IsReady);
    if i == 0 {
      DrainIdle(Obey(e, q[0]), q[1..]);
    } else {
      DrainMarkedReady(Obey(e, q[0]), q[1..], i - 1, t);
    }
  }

  // What the engine is doing once it has read everything the broker has written.
  lemma DrainHolder(s: State, t: TaskId)
    requires Streams(s) && s.lock == Some(t) && t !in s.ended
    ensures !GoWritten(s.tasks[t].phase) ==> Drain(s.engine, s.input).search == None
    ensures GoWritten(s.tasks[t].phase) ==>
              Drain(s.engine, s.input).search in {Some(Search(t, None)), Some(Search(t, Some(t)))}
  {
    var phase := s.tasks[t].phase;
    if phase.AwaitReady? {
      if i :| Marked(s.input, i, t, IsReady) {
        DrainMarkedReady(s.engine, s.input, i, t);
      } else {
        DrainIdle(s.engine, s.input);
      }
    } else if !GoWritten(phase) {
      DrainIdle(s.engine, s.input);
    } else if t in s.started {
      DrainStops(s.engine, s.input, t);
    } else {
      var i :| Marked(s.input, i, t, Go(t, s.tasks[t].go));
      DrainMarked(s.engine, s.input, i, t, s.tasks[t].go);
    }
  }

  // The steps that write a `stop` for the search that holds the lock: its session
  // stops it or disconnects, or the `go` of an interactive session preempts it.
  predicate SendsStop(s: State, a: Action) {
    && s.active.Some? && s.active.value in s.sessions
    && (a.ARequest? || a.ADisconnect?) && a.session in s.sessions && !s.sessions[a.session].closed
    && (a == ARequest(s.active.value, ReqStop)
        || a == ADisconnect(s.active.value)
        || (a.ARequest? && a.request.ReqGo? && !Live(s, a.session)
            && s.sessions[a.session].priority == Interactive
            && s.sessions[s.active.value].priority == Background))
  }

  lemma StopStep(s: State, a: Action)
    requires Ownership(s.tasks, s.lock, s.active) && Tables(s.tasks, s.sessions, s.nextTask) && SendsStop(s, a)
    ensures s.lock.Some? && s.lock.value in s.tasks && Holding(s.tasks[s.lock.value].phase)
    ensures Step(s, a).Some?
    ensures var t, s' := s.lock.value, Step(s, a).value;
            && s'.input == s.input + [Stop(t)] && s'.engine == s.engine && s'.lock == s.lock
            && s'.started == s.started && s'.ended == s.ended
            && t in s'.tasks && s'.tasks[t] == s.tasks[t]
  {
    HoldersSessionIsLive(s);
    if a.ADisconnect? {
      assert Step(s, a) == Some(Disconnect(s, a.session));
    } else if a.request.ReqStop? {
      assert Step(s, a) == Some(StopSearch(s, a.session));
    } else {
      assert Step(s, a) == Some(StartSearch(s, a.session, a.request.text));
    }
  }

  // A `stop` for a search that has not ended, whichever step sends it, reaches it
  // exactly when its `go` has already been written: one written while the task still
  // configures the engine is read by an idle engine, and the search then starts
  // unstopped.
  lemma StopCountsOnlyAfterGo(s: State, a: Action)
    requires Reachable(s) && SendsStop(s, a) && s.lock.Some? && s.lock.value !in s.ended
    ensures s.lock.value in s.tasks && Step(s, a).Some?
    ensures var t := s.lock.value;
            var s' := Step(s, a).value;
            var task := s.tasks[t];
            var rest := if GoWritten(task.phase) then [] else [Go(t, task.go)];
            Drain(s'.engine, s'.input + rest).search == Some(Search(t, Some(t))) <==> GoWritten(task.phase)
  {
    ReachableKeeps(s);
    StopStep(s, a);
    DrainStopped(s, s.lock.value);
  }

  lemma DrainStopped(s: State, t: TaskId)
    requires Streams(s) && s.lock == Some(t) && t in s.tasks && t !in s.ended
    ensures var rest := if GoWritten(s.tasks[t].phase) then [] else [Go(t, s.tasks[t].go)];
            Drain(s.engine, s.input + [Stop(t)] + rest).search == Some(Search(t, Some(t))) <==>
            GoWritten(s.tasks[t].phase)
  {
    DrainHolder(s, t);
    DrainAppend(s.engine, s.input, Stop(t));
    DrainAppend(s.engine, s.input + [Stop(t)], Go(t, s.tasks[t].go));
    assert s.input + [Stop(t)] + [] == s.input + [Stop(t)];
  }

  /* ---------- a stop written too early is lost ---------- */

  // Steps of tasks and of the engine only: no client sends anything.
  predicate Internal(a: Action) {
    a.AResume? || a.AConsume? || a.AInfo? || a.AChatter? || a.ABest?
  }

  // A run in which nobody sends another stop for the search holding the lock;
  // whatever else clients send.
  predicate NoStopSent(s: State, actions: seq<Action>)
    decreases |actions|
  {
    actions == [] ||
    var before := actions[..|actions| - 1];
    NoStopSent(s, before) && Run(s, before).Some? && !SendsStop(Run(s, before).value, actions[|actions| - 1])
  }

  // No `stop` can reach search t any more.
  ghost predicate Unstopped(s: State, t: TaskId) {
    && t in s.tasks && !s.tasks[t].phase.Waiting? && !s.tasks[t].phase.Cancelling?
    && (s.lock == Some(t) && GoWritten(s.tasks[t].phase) && t !in s.started ==>
          s.input != [] && s.input[|s.input| - 1] == Go(t, s.tasks[t].go))
    && (s.lock == Some(t) && t in s.started && t !in s.ended ==>
          s.input == [] && s.engine.search == Some(Search(t, None)))
    && (t in s.ended ==> s.ended[t] == None)
  }

  lemma GoAtHead(s: State)
    requires Streams(s) && s.input != [] && s.input[0].Go?
    ensures s.lock == Some(s.input[0].search) && s.input[0].search !in s.started
  {
    assert s.lock.Some?;
    var t := s.lock.value;
    PipesConsume(s.tasks[t].phase, t, s.tasks[t].go, s.input, s.output, s.engine, t in s.started, t in s.ended);
  }

  lemma StopIsLast(q: seq<Command>, i: int, t: TaskId, mark: Command)
    requires Marked(q, i, t, mark)
    ensures i < |q| - 1 ==> q[|q| - 1] == Stop(t)
  {
    if i < |q| - 1 {
      assert q[i + 1..][|q| - 2 - i] == q[|q| - 1];
    }
  }

  lemma ConsumeUnstopped(s: State, t: TaskId)
    requires Streams(s) && Unstopped(s, t) && s.input != []
    ensures Unstopped(Consume(s), t)
  {
    if s.lock == Some(t) && GoWritten(s.tasks[t].phase) && t !in s.started {
      var i :| Marked(s.input, i, t, Go(t, s.tasks[t].go));
      MarkedHead(s.input, i, t, Go(t, s.tasks[t].go));
      StopIsLast(s.input, i, t, Go(t, s.tasks[t].go));
    } else if s.input[0].Go? {
      GoAtHead(s);
    }
  }

  // Before its last line a task that is not stopped writes only its own lines.
  lemma HolderResumeUnstopped(s: State, t: TaskId, name: string)
    requires HasTask(s, t) && Holding(s.tasks[t].phase)
    requires !GoWritten(s.tasks[t].phase) ==> t !in s.started && t !in s.ended
    requires Unstopped(s, t) && s.lock == Some(t) && Resume(s, t, name).Some?
    ensures Unstopped(Resume(s, t, name).value, t)
  {
    ResumeShape(s, t, name);
    match s.tasks[t].phase
    case SentPosition => assert Resume(s, t, name).value == SendGo(s, t);
    case Reading => assert Resume(s, t, name).value == ReadLine(s, t);
    case Forwarding(_) => assert Resume(s, t, name).value == AfterForward(s, t);
    case _ => NotYetGo(s, t, name);
  }

  lemma NotYetGo(s: State, t: TaskId, name: string)
    requires HasTask(s, t) && Resume(s, t, name).Some?
    requires var p := s.tasks[t].phase; p.Configuring? || p.AwaitReady? || p.SentNewGame?
    ensures var p := Resume(s, t, name).value.tasks[t].phase; !GoWritten(p) && !p.Waiting? && !p.Cancelling?
  {
    if s.tasks[t].phase.AwaitReady? {
      var rest := s.(output := s.output[1..]);
      if s.output[0] == ReadyOk && s.sessions[s.tasks[t].session].newGame {
        SetPhaseShape(Write(rest, NewGame), t, SentNewGame);
      }
    }
  }

  lemma OtherResumeUnstopped(s: State, u: TaskId, t: TaskId, name: string)
    requires Ownership(s.tasks, s.lock, s.active) && Unstopped(s, t) && HasTask(s, u) && u != t && Resume(s, u, name).Some?
    ensures Unstopped(Resume(s, u, name).value, t)
  {
    ResumeShape(s, u, name);
  }

  lemma EmitUnstopped(s: State, a: Action, t: TaskId)
    requires Streams(s) && Unstopped(s, t) && (a.AInfo? || a.AChatter? || a.ABest?) && Step(s, a).Some?
    ensures Unstopped(Step(s, a).value, t)
  {
  }

  lemma PlainRequestUnstopped(s: State, c: SessionId, r: Request, t: TaskId)
    requires Unstopped(s, t) && c in s.sessions && !r.ReqStop? && !r.ReqGo?
    ensures Unstopped(Handle(s, c, r), t)
  {
    assert Handle(s, c, r).tasks == s.tasks && Handle(s, c, r).input == s.input;
  }

  lemma RequestUnstopped(s: State, c: SessionId, r: Request, t: TaskId)
    requires Ownership(s.tasks, s.lock, s.active) && Tables(s.tasks, s.sessions, s.nextTask)
    requires Unstopped(s, t) && c in s.sessions && !s.sessions[c].closed && !SendsStop(s, ARequest(c, r))
    ensures Unstopped(Handle(s, c, r), t)
  {
    if s.active.Some? {
      HoldersSessionIsLive(s);
    }
    if r.ReqStop? {
      StopUnstopped(s, c, t);
    } else if r.ReqGo? {
      GoUnstopped(s, c, r.text, t);
    } else {
      PlainRequestUnstopped(s, c, r, t);
    }
  }

  // What a client sends that is no stop for the search holding the lock leaves the
  // engine's input and the tasks that hold or held the lock alone.
  lemma ClientUnstopped(s: State, a: Action, t: TaskId)
    requires Ownership(s.tasks, s.lock, s.active) && Tables(s.tasks, s.sessions, s.nextTask)
    requires Unstopped(s, t) && !SendsStop(s, a) && Step(s, a).Some?
    requires a.AConnect? || a.ARequest? || a.ADisconnect?
    ensures Unstopped(Step(s, a).value, t)
  {
    match a
    case AConnect(c) => assert Step(s, a) == Some(Connect(s, c));
    case ARequest(c, r) => RequestUnstopped(s, c, r, t);
    case ADisconnect(c) =>
      if s.active.Some? {
        HoldersSessionIsLive(s);
      }
      DisconnectUnstopped(s, c, t);
  }

  lemma StopUnstopped(s: State, c: SessionId, t: TaskId)
    requires Ownership(s.tasks, s.lock, s.active) && Tables(s.tasks, s.sessions, s.nextTask)
    requires Unstopped(s, t) && c in s.sessions && s.active != Some(c)
    ensures Unstopped(StopSearch(s, c), t)
  {
    if Live(s, c) {
      IdleSession(s, c);
      SetPhaseShape(s, s.sessions[c].task.value, Cancelling);
    }
  }

  lemma DisconnectUnstopped(s: State, c: SessionId, t: TaskId)
    requires Ownership(s.tasks, s.lock, s.active) && Tables(s.tasks, s.sessions, s.nextTask)
    requires Unstopped(s, t) && c in s.sessions && (s.sessions[c].closed || s.active != Some(c))
    ensures Unstopped(Disconnect(s, c), t)
  {
    if !s.sessions[c].closed {
      var s1 := s.(sessions := s.sessions[c := s.sessions[c].(closed := true)]);
      assert Tables(s1.tasks, s1.sessions, s1.nextTask);
      StopUnstopped(s1, c, t);
    }
  }

  lemma GoUnstopped(s: State, c: SessionId, text: string, t: TaskId)
    requires Tables(s.tasks, s.sessions, s.nextTask) && Unstopped(s, t) && c in s.sessions
    requires s.active.Some? ==> s.active.value in s.sessions && Live(s, s.active.value)
    requires Live(s, c) || !Preempts(s, c)
    ensures Unstopped(StartSearch(s, c, text), t)
  {
  }

  lemma StepUnstopped(s: State, a: Action, t: TaskId)
    requires Inv(s) && Unstopped(s, t) && !SendsStop(s, a) && Step(s, a).Some?
    ensures Unstopped(Step(s, a).value, t)
  {
    if a.AResume? {
      if a.task != t {
        OtherResumeUnstopped(s, a.task, t, a.name);
      } else if s.lock == Some(t) {
        Holds(s, t);
        HolderResumeUnstopped(s, t, a.name);
      }
    } else if a.AConsume? {
      ConsumeUnstopped(s, t);
    } else if Internal(a) {
      EmitUnstopped(s, a, t);
    } else {
      ClientUnstopped(s, a, t);
    }
  }

  lemma {:induction false} RunUnstopped(s: State, actions: seq<Action>, t: TaskId)
    requires Inv(s) && Unstopped(s, t) && Run(s, actions).Some? && NoStopSent(s, actions)
    ensures Inv(Run(s, actions).value) && Unstopped(Run(s, actions).value, t)
    decreases |actions|
  {
    if actions != [] {
      var before := Run(s, actions[..|actions| - 1]).value;
      RunUnstopped(s, actions[..|actions| - 1], t);
      StepUnstopped(before, actions[|actions| - 1], t);
      StepKeeps(before, actions[|actions| - 1]);
    }
  }

  // A stop, a disconnect or a preemption that comes while the search still
  // configures the engine does not stop it: unless another stop is sent for it later,
  // the search ends by itself, whatever else clients send.
  lemma EarlyStopIsLost(s: State, a: Action, actions: seq<Action>)
    requires Reachable(s) && SendsStop(s, a)
    requires s.lock.Some? && s.lock.value in s.tasks && !GoWritten(s.tasks[s.lock.value].phase)
    requires Step(s, a).Some? && Run(Step(s, a).value, actions).Some? && NoStopSent(Step(s, a).value, actions)
    ensures var s' := Run(Step(s, a).value, actions).value;
            s.lock.value in s'.ended ==> s'.ended[s.lock.value] == None
  {
    ReachableKeeps(s);
    var t := s.lock.value;
    StopStep(s, a);
    StepKeeps(s, a);
    Holds(s, t);
    RunUnstopped(Step(s, a).value, actions, t);
  }

  lemma {:induction false} InternalSendsNoStop(s: State, actions: seq<Action>)
    requires Run(s, actions).Some? && forall k | 0 <= k < |actions| :: Internal(actions[k])
    ensures NoStopSent(s, actions)
    decreases |actions|
  {
    if actions != [] {
      InternalSendsNoStop(s, actions[..|actions| - 1]);
    }
  }

  lemma RunAppend(s: State, actions: seq<Action>, a: Action, before: State)
    requires Run(s, actions) == Some(before)
    ensures Run(s, actions + [a]) == Step(before, a)
  {
    assert (actions + [a])[..|actions|] == actions;
  }

  lemma ReachableStep(s: State, a: Action)
    requires Reachable(s) && Step(s, a).Some?
    ensures Reachable(Step(s, a).value)
  {
    var defaults, endless, settings, actions: seq<Action> :|
      Run(Init(defaults, endless, settings), actions) == Some(s);
    RunAppend(Init(defaults, endless, settings), actions, a, s);
  }

  lemma BackgroundSearchConfigures(defaults: Values, endless: set<string>, settings: Settings, text: string)
    returns (s: State)
    ensures Reachable(s) && s.active == Some(0) && s.lock == Some(0) && 0 in s.tasks && s.tasks[0].phase.Configuring?
    ensures s.sessions.Keys == {0} && !s.sessions[0].closed && s.sessions[0].priority == Background
  {
    s := Init(defaults, endless, settings);
    assert Run(Init(defaults, endless, settings), []) == Some(s);
    ReachableStep(s, AConnect(0));
    s := Connect(s, 0);
    ReachableStep(s, ARequest(0, ReqSetOption("BrokerPriority", "background")));
    s := Handle(s, 0, ReqSetOption("BrokerPriority", "background"));
    ReachableStep(s, ARequest(0, ReqGo(text)));
    s := WithTask(s, 0, text);
    ReachableStep(s, AResume(0, ""));
    s := Acquire(s, 0);
  }

  // There are such moments: a background session's search is being configured when
  // it is stopped, disconnects or is preempted by an interactive session.
  lemma EarlyStopsOccur(defaults: Values, endless: set<string>, settings: Settings, text: string) returns (s: State)
    ensures Reachable(s) && s.lock == Some(0) && 0 in s.tasks && !GoWritten(s.tasks[0].phase)
    ensures SendsStop(s, ARequest(0, ReqStop)) && SendsStop(s, ADisconnect(0)) && SendsStop(s, ARequest(1, ReqGo(text)))
  {
    s := BackgroundSearchConfigures(defaults, endless, settings, text);
    ReachableStep(s, AConnect(1));
    s := Connect(s, 1);
  }
}
