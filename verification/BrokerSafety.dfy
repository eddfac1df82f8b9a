/**
 Every step of the broker, of a client and of the engine keeps the invariant, and
 what that means over whole runs: one search at a time on an idle engine, every
 line to the session that asked for it, every `stop` to the search it was meant
 for, and every search under its own session's options.
 */
module BrokerSafety {
  import opened Options
  import opened UciBroker
  import opened BrokerInvariant

  /* ---------- client commands ---------- */

  // The `stop` lines of the broker always carry the search that holds the lock.
  lemma WriteStopKeeps(s: State, c: SessionId)
    requires Inv(s) && s.active == Some(c)
    ensures s.lock.Some? && WriteStop(s, c) == Write(s, Stop(s.lock.value))
    ensures Inv(WriteStop(s, c))
  {
    var t := s.lock.value;
    assert s.sessions[c].task == Some(t);
    EventualAppend(s.engine.settings, s.input, Stop(t));
    PipesStop(s.tasks[t].phase, t, s.tasks[t].go, s.input, s.output, s.engine.search, t in s.started, t in s.ended);
  }

  lemma SessionBooks(s: State, c: SessionId, q: Session)
    requires Books(s) && (c in s.sessions ==> q.task == s.sessions[c].task) && (c !in s.sessions ==> q.task == None)
    ensures Books(s.(sessions := s.sessions[c := q]))
  {
    assert Tables(s.tasks, s.sessions[c := q], s.nextTask);
  }

  lemma SessionKeeps(s: State, c: SessionId, q: Session)
    requires Inv(s) && (c in s.sessions ==> q.task == s.sessions[c].task) && (c !in s.sessions ==> q.task == None)
    ensures Inv(s.(sessions := s.sessions[c := q]))
  {
    SessionBooks(s, c, q);
  }

  function WithTask(s: State, c: SessionId, text: string): State
    requires c in s.sessions
  {
    s.(tasks := s.tasks[s.nextTask := Task(c, text, Waiting, map[], map[], "")],
       sessions := s.sessions[c := s.sessions[c].(task := Some(s.nextTask))],
       nextTask := s.nextTask + 1)
  }

  lemma WithTaskTables(s: State, c: SessionId, text: string)
    requires Tables(s.tasks, s.sessions, s.nextTask) && c in s.sessions && !Live(s, c)
    ensures Tables(WithTask(s, c, text).tasks, WithTask(s, c, text).sessions, s.nextTask + 1)
  {
  }

  lemma WithTaskHistory(s: State, tasks: Tasks, task: Task)
    requires s.nextTask !in s.tasks && tasks == s.tasks[s.nextTask := task] && task.phase.Waiting?
    requires Started(s.tasks, s.started) && Ended(s.tasks, s.ended)
    requires Addressed(s.tasks, s.log) && Counted(s.tasks, s.log)
    ensures Started(tasks, s.started) && Ended(tasks, s.ended)
    ensures Addressed(tasks, s.log) && Counted(tasks, s.log)
  {
    BestCountFresh(s.log, s.nextTask);
  }

  lemma WithTaskOwner(s: State, tasks: Tasks, task: Task)
    requires s.nextTask !in s.tasks && tasks == s.tasks[s.nextTask := task] && task.phase.Waiting?
    requires Ownership(s.tasks, s.lock, s.active)
    ensures Ownership(tasks, s.lock, s.active)
  {
  }

  lemma WithTaskBooks(s: State, c: SessionId, text: string)
    requires Books(s) && c in s.sessions && !Live(s, c)
    ensures Books(WithTask(s, c, text))
  {
    var task := Task(c, text, Waiting, map[], map[], "");
    WithTaskTables(s, c, text);
    WithTaskOwner(s, WithTask(s, c, text).tasks, task);
    WithTaskHistory(s, WithTask(s, c, text).tasks, task);
  }

  lemma WithTaskKeeps(s: State, c: SessionId, text: string)
    requires Inv(s) && c in s.sessions && !Live(s, c)
    ensures Inv(WithTask(s, c, text))
  {
    WithTaskBooks(s, c, text);
    assert s.lock.Some? ==> s.lock.value != s.nextTask;
  }

  lemma StartKeeps(s: State, c: SessionId, text: string)
    requires Inv(s) && c in s.sessions
    ensures Inv(StartSearch(s, c, text))
  {
    if !Live(s, c) {
      WithTaskKeeps(s, c, text);
      PreemptKeeps(WithTask(s, c, text), c);
    }
  }

  lemma PreemptKeeps(s: State, c: SessionId)
    requires Inv(s) && c in s.sessions
    ensures Inv(Preempt(s, c))
  {
    if s.active.Some? {
      WriteStopKeeps(s, s.active.value);
    }
  }

  // A task that does not hold the lock is cancelled without touching the engine.
  lemma ParkBooks(s: State, t: TaskId, phase: Phase)
    requires Books(s) && t in s.tasks
    requires s.tasks[t].phase.Waiting? || s.tasks[t].phase.Cancelling?
    requires phase == Cancelling || phase == Done(Cancelled) || phase == Done(Skipped)
    ensures Books(SetPhase(s, t, phase)) && s.lock != Some(t)
  {
    TaskBooks(s, SetPhase(s, t, phase), t, s.tasks[t].(phase := phase));
  }

  lemma ParkWires(s: State, t: TaskId, phase: Phase)
    requires Wires(s) && t in s.tasks && s.lock != Some(t)
    ensures Wires(SetPhase(s, t, phase))
  {
  }

  lemma ParkKeeps(s: State, t: TaskId, phase: Phase)
    requires Inv(s) && t in s.tasks
    requires s.tasks[t].phase.Waiting? || s.tasks[t].phase.Cancelling?
    requires phase == Cancelling || phase == Done(Cancelled) || phase == Done(Skipped)
    ensures Inv(SetPhase(s, t, phase))
  {
    ParkBooks(s, t, phase);
    ParkWires(s, t, phase);
  }

  lemma StopKeeps(s: State, c: SessionId)
    requires Inv(s) && c in s.sessions
    ensures Inv(StopSearch(s, c))
  {
    if Live(s, c) {
      if s.active == Some(c) {
        WriteStopKeeps(s, c);
      } else {
        ParkKeeps(s, s.sessions[c].task.value, Cancelling);
      }
    }
  }

  lemma RequestKeeps(s: State, c: SessionId, r: Request)
    requires Inv(s) && c in s.sessions
    ensures Inv(Handle(s, c, r))
  {
    var q := s.sessions[c];
    match r
    case ReqSetOption(name, value) => SessionKeeps(s, c, SetSessionOption(q, name, value));
    case ReqNewGame => SessionKeeps(s, c, q.(newGame := true));
    case ReqPosition(text) => SessionKeeps(s, c, q.(position := text));
    case ReqGo(text) => StartKeeps(s, c, text);
    case ReqStop => StopKeeps(s, c);
    case ReqOther =>
  }

  lemma DisconnectKeeps(s: State, c: SessionId)
    requires Inv(s) && c in s.sessions
    ensures Inv(Disconnect(s, c))
  {
    if !s.sessions[c].closed {
      SessionKeeps(s, c, s.sessions[c].(closed := true));
      StopKeeps(s.(sessions := s.sessions[c := s.sessions[c].(closed := true)]), c);
    }
  }

  /* ---------- the search task ---------- */

  lemma AcquireBooks(s: State, t: TaskId)
    requires Books(s) && t in s.tasks && s.tasks[t].phase.Waiting? && s.lock.None?
    requires !s.sessions[s.tasks[t].session].closed
    ensures Books(Acquire(s, t))
  {
    var task := Acquire(s, t).tasks[t];
    TablesUpdate(s.tasks, s.sessions, s.nextTask, t, task);
    HistoryUpdate(s.tasks, s.log, s.started, s.ended, t, task);
  }

  lemma AcquireWires(s: State, t: TaskId)
    requires Wires(s) && HasTask(s, t) && s.lock.None?
    requires !s.sessions[s.tasks[t].session].closed
    ensures Wires(Acquire(s, t))
  {
    var task := Acquire(s, t).tasks[t];
    EventualInert(s.engine.settings, s.input);
    assert task.merged - task.merged.Keys == map[];
    assert task.base + map[] == task.base;
  }

  lemma AcquireKeeps(s: State, t: TaskId)
    requires Inv(s) && t in s.tasks && s.tasks[t].phase.Waiting? && s.lock.None?
    ensures Inv(Acquire(s, t))
  {
    if s.sessions[s.tasks[t].session].closed {
      ParkKeeps(s, t, Done(Skipped));
    } else {
      AcquireBooks(s, t);
      AcquireWires(s, t);
    }
  }

  lemma ConfiguredNext(task: Task, left: set<string>, name: string, eventual: Settings)
    requires task.phase == Configuring(left) && name in left && Configured(task, eventual)
    ensures Configured(task.(phase := Configuring(left - {name})), Apply(eventual, SetOption(name, task.merged[name])))
  {
    assert task.base + (task.merged - (left - {name})) == (task.base + (task.merged - left))[name := task.merged[name]];
  }

  lemma SendOptionWires(s: State, t: TaskId, name: string)
    requires Wires(s) && HasTask(s, t) && s.lock == Some(t)
    requires s.tasks[t].phase.Configuring? && name in s.tasks[t].phase.left && name in s.tasks[t].merged
    ensures Wires(SendOption(s, t, name))
  {
    var task := s.tasks[t];
    EventualAppend(s.engine.settings, s.input, SetOption(name, task.merged[name]));
    ConfiguredNext(task, task.phase.left, name, Eventual(s.engine.settings, s.input));
  }

  lemma AskReadyWires(s: State, t: TaskId)
    requires Wires(s) && HasTask(s, t) && s.lock == Some(t) && s.tasks[t].phase == Configuring({})
    ensures Wires(SetPhase(Write(s, IsReady), t, AwaitReady))
  {
    EventualAppend(s.engine.settings, s.input, IsReady);
    assert s.tasks[t].merged - {} == s.tasks[t].merged;
    MarkedLast(s.input, t, IsReady);
  }

  lemma SendOptionBooks(s: State, t: TaskId, name: string)
    requires Books(s) && HasTask(s, t) && s.tasks[t].phase.Configuring? && name in s.tasks[t].merged
    ensures Books(SendOption(s, t, name))
  {
    TaskBooks(s, SendOption(s, t, name), t, s.tasks[t].(phase := Configuring(s.tasks[t].phase.left - {name})));
  }

  lemma AskReadyBooks(s: State, t: TaskId)
    requires Books(s) && HasTask(s, t) && s.tasks[t].phase.Configuring?
    ensures Books(SetPhase(Write(s, IsReady), t, AwaitReady))
  {
    TaskBooks(s, SetPhase(Write(s, IsReady), t, AwaitReady), t, s.tasks[t].(phase := AwaitReady));
  }

  lemma SendPositionBooks(s: State, t: TaskId)
    requires Books(s) && HasTask(s, t) && (s.tasks[t].phase.AwaitReady? || s.tasks[t].phase.SentNewGame?)
    ensures Books(SendPosition(s, t))
  {
    TaskBooks(s, SendPosition(s, t), t, SendPosition(s, t).tasks[t]);
  }

  // Once `readyok` has been read nothing that sets an option is under way.
  lemma SendPositionWires(s: State, t: TaskId)
    requires Configuration(s) && HasTask(s, t) && s.lock == Some(t)
    requires s.tasks[t].phase.AwaitReady? || s.tasks[t].phase.SentNewGame?
    requires s.engine.search == None && Quiet(s.output) && AllBefore(s.input, t, Go(t, s.tasks[t].go))
    ensures Wires(SendPosition(s, t))
  {
    EventualAppend(s.engine.settings, s.input, Position(SendPosition(s, t).tasks[t].posted));
  }

  lemma SendNewGameBooks(s: State, t: TaskId)
    requires Books(s) && HasTask(s, t) && s.tasks[t].phase.AwaitReady?
    ensures Books(SetPhase(Write(s, NewGame), t, SentNewGame))
  {
    TaskBooks(s, SetPhase(Write(s, NewGame), t, SentNewGame), t, s.tasks[t].(phase := SentNewGame));
  }

  lemma SendNewGameWires(s: State, t: TaskId)
    requires Configuration(s) && HasTask(s, t) && s.lock == Some(t) && s.tasks[t].phase.AwaitReady?
    requires s.engine.search == None && Quiet(s.output) && StopsOf(s.input, t)
    ensures Wires(SetPhase(Write(s, NewGame), t, SentNewGame))
  {
    EventualAppend(s.engine.settings, s.input, NewGame);
  }

  lemma ReadReadyBooks(s: State, t: TaskId)
    requires Books(s) && HasTask(s, t) && s.tasks[t].phase.AwaitReady? && s.output != []
    ensures Books(ReadReady(s, t))
  {
    var rest := s.(output := s.output[1..]);
    assert SameBooks(s, rest) && Books(rest);
    if s.output[0] == ReadyOk {
      if s.sessions[s.tasks[t].session].newGame {
        SendNewGameBooks(rest, t);
      } else {
        SendPositionBooks(rest, t);
      }
    }
  }

  lemma ReadReadyWires(s: State, t: TaskId)
    requires Wires(s) && HasTask(s, t) && s.lock == Some(t) && s.tasks[t].phase.AwaitReady? && s.output != []
    ensures Wires(ReadReady(s, t))
  {
    AwaitingReadyHead(t, s.input, s.output);
    var rest := s.(output := s.output[1..]);
    if s.output[0] == ReadyOk {
      if s.sessions[s.tasks[t].session].newGame {
        SendNewGameWires(rest, t);
      } else {
        SendPositionWires(rest, t);
      }
    }
  }

  lemma AfterNewGameBooks(s: State, t: TaskId)
    requires Books(s) && HasTask(s, t) && s.tasks[t].phase.SentNewGame?
    ensures Books(AfterNewGame(s, t))
  {
    var c := s.tasks[t].session;
    SessionBooks(s, c, s.sessions[c].(newGame := false));
    SendPositionBooks(s.(sessions := s.sessions[c := s.sessions[c].(newGame := false)]), t);
  }

  lemma AfterNewGameWires(s: State, t: TaskId)
    requires Wires(s) && HasTask(s, t) && s.lock == Some(t) && s.tasks[t].phase.SentNewGame?
    ensures Wires(AfterNewGame(s, t))
  {
    var c := s.tasks[t].session;
    SendPositionWires(s.(sessions := s.sessions[c := s.sessions[c].(newGame := false)]), t);
  }

  lemma SendGoBooks(s: State, t: TaskId)
    requires Books(s) && HasTask(s, t) && s.tasks[t].phase.SentPosition?
    ensures Books(SendGo(s, t))
  {
    TaskBooks(s, SendGo(s, t), t, s.tasks[t].(phase := Reading));
  }

  lemma SendGoWires(s: State, t: TaskId)
    requires Wires(s) && HasTask(s, t) && s.lock == Some(t) && s.tasks[t].phase.SentPosition?
    requires t !in s.started && t !in s.ended
    ensures Wires(SendGo(s, t))
  {
    EventualAppend(s.engine.settings, s.input, Go(t, s.tasks[t].go));
    MarkedLast(s.input, t, Go(t, s.tasks[t].go));
  }

  lemma LogHistory(tasks: Tasks, log: seq<Delivery>, d: Delivery)
    requires d.task in tasks && tasks[d.task].phase.Reading? && d.session == tasks[d.task].session && LineOf(d.line, d.task)
    requires Addressed(tasks, log) && Counted(tasks, log)
    ensures Addressed(tasks[d.task := tasks[d.task].(phase := Forwarding(d.line.BestMove?))], log + [d])
    ensures Counted(tasks[d.task := tasks[d.task].(phase := Forwarding(d.line.BestMove?))], log + [d])
  {
    forall u | u in tasks
      ensures BestCount(log + [d], u) == BestCount(log, u) + BestOf(d, u)
    {
      BestCountAppend(log, d, u);
    }
  }

  lemma ForwardHistory(tasks: Tasks, started: map<TaskId, Settings>, ended: map<TaskId, Option<TaskId>>,
                       t: TaskId, task: Task)
    requires t in tasks && GoWritten(tasks[t].phase) && task == tasks[t].(phase := task.phase) && GoWritten(task.phase)
    requires Started(tasks, started) && Ended(tasks, ended)
    ensures Started(tasks[t := task], started) && Ended(tasks[t := task], ended)
  {
  }

  lemma ReadLineBooks(s: State, t: TaskId)
    requires Books(s) && t in s.tasks && s.tasks[t].phase.Reading? && s.output != [] && LineOf(s.output[0], t)
    ensures Books(ReadLine(s, t))
  {
    var s' := ReadLine(s, t);
    TablesUpdate(s.tasks, s.sessions, s.nextTask, t, s'.tasks[t]);
    ForwardHistory(s.tasks, s.started, s.ended, t, s'.tasks[t]);
    LogHistory(s.tasks, s.log, s'.log[|s.log|]);
  }

  lemma ReadLineWires(s: State, t: TaskId)
    requires Wires(s) && HasTask(s, t) && s.lock == Some(t) && s.tasks[t].phase.Reading? && s.output != []
    ensures Wires(ReadLine(s, t)) && LineOf(s.output[0], t)
  {
    AwaitingBestHead(t, s.tasks[t].go, s.input, s.output, s.engine.search, t in s.started, t in s.ended);
  }

  lemma ReleaseBooks(s: State, t: TaskId)
    requires Books(s) && t in s.tasks && s.tasks[t].phase == Forwarding(true)
    ensures Books(AfterForward(s, t))
  {
    var task := s.tasks[t].(phase := Done(Finished));
    TablesUpdate(s.tasks, s.sessions, s.nextTask, t, task);
    HistoryUpdate(s.tasks, s.log, s.started, s.ended, t, task);
  }

  lemma ReadOnBooks(s: State, t: TaskId)
    requires Books(s) && t in s.tasks && s.tasks[t].phase == Forwarding(false)
    ensures Books(AfterForward(s, t))
  {
    TaskBooks(s, AfterForward(s, t), t, s.tasks[t].(phase := Reading));
  }

  lemma AfterForwardWires(s: State, t: TaskId)
    requires Wires(s) && HasTask(s, t) && s.lock == Some(t) && s.tasks[t].phase.Forwarding?
    ensures Wires(AfterForward(s, t))
  {
  }

  lemma AfterForwardBooks(s: State, t: TaskId)
    requires Books(s) && HasTask(s, t) && s.tasks[t].phase.Forwarding?
    ensures Books(AfterForward(s, t))
  {
    if s.tasks[t].phase.last {
      ReleaseBooks(s, t);
    } else {
      ReadOnBooks(s, t);
    }
  }

  // A task past its wait for the lock holds it, and has not started before its go.
  lemma Holds(s: State, t: TaskId)
    requires Books(s) && t in s.tasks && Holding(s.tasks[t].phase)
    ensures s.lock == Some(t) && HasTask(s, t)
    ensures !GoWritten(s.tasks[t].phase) ==> t !in s.started && t !in s.ended
  {
  }

  lemma ResumeBooks(s: State, t: TaskId, name: string)
    requires Books(s) && HasTask(s, t) && Holding(s.tasks[t].phase) && Resume(s, t, name).Some?
    requires s.tasks[t].phase.Reading? ==> LineOf(s.output[0], t)
    ensures Books(Resume(s, t, name).value)
  {
    match s.tasks[t].phase
    case Configuring(left) =>
      if left == {} {
        AskReadyBooks(s, t);
      } else {
        SendOptionBooks(s, t, name);
      }
    case AwaitReady => ReadReadyBooks(s, t);
    case SentNewGame => AfterNewGameBooks(s, t);
    case SentPosition => SendGoBooks(s, t);
    case Reading => ReadLineBooks(s, t);
    case Forwarding(_) => AfterForwardBooks(s, t);
  }

  lemma ResumeWires(s: State, t: TaskId, name: string)
    requires Wires(s) && HasTask(s, t) && s.lock == Some(t) && Holding(s.tasks[t].phase) && Resume(s, t, name).Some?
    requires !GoWritten(s.tasks[t].phase) ==> t !in s.started && t !in s.ended
    ensures Wires(Resume(s, t, name).value)
    ensures s.tasks[t].phase.Reading? ==> LineOf(s.output[0], t)
  {
    match s.tasks[t].phase
    case Configuring(left) =>
      if left == {} {
        AskReadyWires(s, t);
      } else {
        SendOptionWires(s, t, name);
      }
    case AwaitReady => ReadReadyWires(s, t);
    case SentNewGame => AfterNewGameWires(s, t);
    case SentPosition => SendGoWires(s, t);
    case Reading => ReadLineWires(s, t);
    case Forwarding(_) => AfterForwardWires(s, t);
  }

  lemma ResumeKeeps(s: State, t: TaskId, name: string)
    requires Inv(s) && HasTask(s, t) && Resume(s, t, name).Some?
    ensures Inv(Resume(s, t, name).value)
  {
    if s.tasks[t].phase.Waiting? {
      WaiterKeeps(s, t, name);
    } else if s.tasks[t].phase.Cancelling? {
      CancelledKeeps(s, t, name);
    } else {
      HolderKeeps(s, t, name);
    }
  }

  lemma WaiterKeeps(s: State, t: TaskId, name: string)
    requires Inv(s) && HasTask(s, t) && s.tasks[t].phase.Waiting? && Resume(s, t, name).Some?
    ensures Inv(Resume(s, t, name).value)
  {
    AcquireKeeps(s, t);
  }

  lemma CancelledKeeps(s: State, t: TaskId, name: string)
    requires Inv(s) && HasTask(s, t) && s.tasks[t].phase.Cancelling?
    ensures Inv(Resume(s, t, name).value)
  {
    CancelResumes(s, t, name);
    CancelKeeps(s, t);
  }

  lemma CancelResumes(s: State, t: TaskId, name: string)
    requires HasTask(s, t) && s.tasks[t].phase.Cancelling?
    ensures Resume(s, t, name) == Some(AfterCancel(s, t))
  {
  }

  lemma HolderKeeps(s: State, t: TaskId, name: string)
    requires Inv(s) && HasTask(s, t) && Holding(s.tasks[t].phase) && Resume(s, t, name).Some?
    ensures Inv(Resume(s, t, name).value)
  {
    Holds(s, t);
    ResumeWires(s, t, name);
    ResumeBooks(s, t, name);
  }

  lemma CancelKeeps(s: State, t: TaskId)
    requires Inv(s) && t in s.tasks && s.tasks[t].phase.Cancelling?
    ensures Inv(AfterCancel(s, t))
  {
    ParkKeeps(s, t, Done(Cancelled));
    assert s.active != Some(s.tasks[t].session);
  }

  /* ---------- the engine ---------- */

  // A `go` the engine reads finds it idle, with the options of its own session.
  lemma GoMeetsIdleEngine(s: State)
    requires Inv(s) && s.input != [] && s.input[0].Go?
    ensures s.lock == Some(s.input[0].search) && s.engine.search == None && s.lock.value !in s.started
    ensures s.tasks[s.lock.value].phase.Reading? || s.tasks[s.lock.value].phase == Forwarding(false)
    ensures s.engine.settings == Settings(Target(s.tasks[s.lock.value]), s.tasks[s.lock.value].posted)
  {
    assert s.lock.Some?;
    var t := s.lock.value;
    if s.tasks[t].phase.AwaitReady? {
      AwaitingReadyConsume(t, s.input, s.output);
    } else {
      AwaitingBestConsume(t, s.tasks[t].go, s.input, s.output, s.engine, t in s.started, t in s.ended);
      EventualHead(s.engine.settings, s.input);
      EventualInert(s.engine.settings, s.input[1..]);
    }
  }

  // The pipes and the engine after the engine has read one line.
  lemma PipesConsume(phase: Phase, t: TaskId, go: string, input: seq<Command>, output: seq<Line>,
                     e: Engine, begun: bool, over: bool)
    requires Pipes(phase, t, go, input, output, e.search, begun, over) && input != []
    ensures Pipes(phase, t, go, input[1..], if input[0] == IsReady then output + [ReadyOk] else output,
                  Obey(e, input[0]).search, begun || input[0].Go?, over)
    ensures input[0].Go? ==> input[0].search == t
  {
    if phase.AwaitReady? {
      AwaitingReadyConsume(t, input, output);
    } else if Awaiting(phase) {
      AwaitingBestConsume(t, go, input, output, e, begun, over);
    }
  }

  lemma ConsumeStreams(s: State)
    requires Streams(s) && s.input != []
    ensures Streams(Consume(s))
  {
    if s.lock.Some? {
      var t := s.lock.value;
      PipesConsume(s.tasks[t].phase, t, s.tasks[t].go, s.input, s.output, s.engine, t in s.started, t in s.ended);
    }
  }

  lemma ConsumeKeeps(s: State)
    requires Inv(s) && s.input != []
    ensures Inv(Consume(s))
  {
    ConsumeStreams(s);
    EventualHead(s.engine.settings, s.input);
    if s.input[0].Go? {
      GoMeetsIdleEngine(s);
    }
  }

  lemma ChatterKeeps(s: State)
    requires Inv(s)
    ensures Inv(Emit(s, Chatter))
  {
    if s.lock.Some? {
      var t := s.lock.value;
      PipesChatter(s.tasks[t].phase, t, s.tasks[t].go, s.input, s.output, s.engine.search, t in s.started, t in s.ended);
    }
  }

  lemma InfoKeeps(s: State)
    requires Inv(s) && s.engine.search.Some?
    ensures Inv(Emit(s, Info(s.engine.search.value.task)))
  {
  }

  lemma EmitBestBooks(s: State)
    requires Inv(s) && s.engine.search.Some?
    ensures Books(EmitBest(s))
  {
    SearchIsHolders(s);
  }

  // The search under way is the lock holder's and was stopped by nobody else.
  lemma SearchIsHolders(s: State)
    requires Streams(s) && s.engine.search.Some?
    ensures s.lock.Some? && s.lock.value in s.tasks && Awaiting(s.tasks[s.lock.value].phase)
    ensures s.engine.search.value in {Search(s.lock.value, None), Search(s.lock.value, Some(s.lock.value))}
    ensures s.lock.value in s.started && s.lock.value !in s.ended
    ensures StopsOf(s.input, s.lock.value) && OwnLines(s.output, s.lock.value)
  {
  }

  lemma EmitBestWires(s: State)
    requires Wires(s) && s.engine.search.Some?
    ensures Wires(EmitBest(s))
  {
    SearchIsHolders(s);
    ComingLast(s.output, s.lock.value, BestMove(s.lock.value));
  }

  lemma EmitBestKeeps(s: State)
    requires Inv(s) && s.engine.search.Some?
    ensures Inv(EmitBest(s))
  {
    EmitBestBooks(s);
    EmitBestWires(s);
  }

  /* ---------- runs ---------- */

  lemma StepKeeps(s: State, a: Action)
    requires Inv(s) && Step(s, a).Some?
    ensures Inv(Step(s, a).value)
  {
    match a
    case AConnect(c) => SessionKeeps(s, c, Session(map[], "position startpos", Interactive, true, None, false));
    case ARequest(c, r) => RequestKeeps(s, c, r);
    case ADisconnect(c) => DisconnectKeeps(s, c);
    case AResume(t, name) => ResumeKeeps(s, t, name);
    case AConsume => ConsumeKeeps(s);
    case AChatter => ChatterKeeps(s);
    case AInfo => InfoKeeps(s);
    case ABest => EmitBestKeeps(s);
  }

  lemma {:induction false} RunKeeps(s: State, actions: seq<Action>)
    requires Inv(s) && Run(s, actions).Some?
    ensures Inv(Run(s, actions).value)
    decreases |actions|
  {
    if actions != [] {
      RunKeeps(s, actions[..|actions| - 1]);
      StepKeeps(Run(s, actions[..|actions| - 1]).value, actions[|actions| - 1]);
    }
  }

  lemma ReachableKeeps(s: State)
    requires Reachable(s)
    ensures Inv(s)
  {
    var defaults, endless, settings, actions: seq<Action> :|
      Run(Init(defaults, endless, settings), actions) == Some(s);
    RunKeeps(Init(defaults, endless, settings), actions);
  }

  /* ---------- what it means over whole runs ---------- */

  lemma ReachableStreams(s: State)
    requires Reachable(s)
    ensures Streams(s)
  {
    ReachableKeeps(s);
  }

  lemma ReachableOwner(s: State)
    requires Reachable(s)
    ensures Ownership(s.tasks, s.lock, s.active)
  {
    ReachableKeeps(s);
  }

  lemma ReachableHistory(s: State)
    requires Reachable(s)
    ensures Addressed(s.tasks, s.log) && Counted(s.tasks, s.log) && Ended(s.tasks, s.ended)
  {
    ReachableKeeps(s);
  }

  // `_active_session` is set exactly while a task holds the engine lock, and it
  // is that task's session.
  lemma ActiveExactlyWhileHolding(s: State, t: TaskId)
    requires Reachable(s) && t in s.tasks
    ensures Holding(s.tasks[t].phase) <==> s.lock == Some(t)
    ensures Holding(s.tasks[t].phase) ==> s.active == Some(s.tasks[t].session)
    ensures s.active.Some? <==> s.lock.Some?
  {
    ReachableOwner(s);
  }

  // When a task is about to write its `go`, no search runs, none is under way in
  // the pipe, and no line of an earlier search is left to be read.
  lemma GoIsWrittenToIdleEngine(s: State, t: TaskId)
    requires Reachable(s) && t in s.tasks && s.tasks[t].phase.SentPosition?
    ensures s.engine.search == None && Quiet(s.output)
    ensures forall k | 0 <= k < |s.input| :: !s.input[k].Go? && !s.input[k].SetOption? && s.input[k] != IsReady
  {
    ReachableOwner(s);
    ReachableStreams(s);
  }

  // Every engine line goes to the session whose search produced it; a search has
  // handed on its one `bestmove` exactly when it has finished or is doing so.
  lemma EveryLineIsAddressed(s: State)
    requires Reachable(s)
    ensures forall k | 0 <= k < |s.log| ::
              s.log[k].task in s.tasks && s.log[k].session == s.tasks[s.log[k].task].session
              && LineOf(s.log[k].line, s.log[k].task)
    ensures forall t | t in s.tasks ::
              var phase := s.tasks[t].phase;
              BestCount(s.log, t) == if phase == Done(Finished) || phase == Forwarding(true) then 1 else 0
  {
    ReachableHistory(s);
  }

  // While a task waits for `readyok` it throws lines away; none belongs to a search.
  lemma OnlyChatterIsDiscarded(s: State, t: TaskId)
    requires Reachable(s) && t in s.tasks && s.tasks[t].phase.AwaitReady? && s.output != []
    ensures s.output[0] == ReadyOk || s.output[0] == Chatter
  {
    ReachableOwner(s);
    ReachableStreams(s);
    AwaitingReadyHead(t, s.input, s.output);
  }

  // A `stop` that the engine reads during a search was written for that search,
  // however late it arrives; and no search was ever ended by another's stop.
  lemma StopEndsOnlyItsOwnSearch(s: State)
    requires Reachable(s)
    ensures s.input != [] && s.input[0].Stop? && s.engine.search.Some? ==> s.input[0].target == s.engine.search.value.task
    ensures forall t | t in s.ended :: s.ended[t] == None || s.ended[t] == Some(t)
  {
    ReachableHistory(s);
    ReachableStreams(s);
    if s.engine.search.Some? {
      SearchIsHolders(s);
    }
  }

  // The search that a preemption by session c is aimed at is a background one.
  predicate Preempts(s: State, c: SessionId)
    requires c in s.sessions
  {
    && s.active.Some? && s.active.value in s.sessions
    && s.sessions[c].priority == Interactive && s.sessions[s.active.value].priority == Background
  }

  // Preemption is exactly the stop the background session would send for itself, so
  // what holds of a session's own stop holds of it too.
  lemma PreemptIsTheBackgroundsOwnStop(s: State, c: SessionId)
    requires Inv(s) && c in s.sessions
    ensures s.active.Some? ==> s.active.value in s.sessions
    ensures Preempt(s, c) == if Preempts(s, c) then StopSearch(s, s.active.value) else s
  {
    if s.active.Some? {
      HoldersSessionIsLive(s);
    }
  }

  // In the stretch of a `go` the new task is there already when it preempts.
  lemma GoPreemptsByTheBackgroundsOwnStop(s: State, c: SessionId, text: string)
    requires Inv(s) && c in s.sessions && !Live(s, c)
    ensures var s1 := WithTask(s, c, text);
            && Inv(s1) && s1.active == s.active
            && StartSearch(s, c, text) == if Preempts(s1, c) then StopSearch(s1, s1.active.value) else s1
  {
    WithTaskKeeps(s, c, text);
    PreemptIsTheBackgroundsOwnStop(WithTask(s, c, text), c);
  }

  lemma HoldersSessionIsLive(s: State)
    requires Tables(s.tasks, s.sessions, s.nextTask) && Ownership(s.tasks, s.lock, s.active) && s.active.Some?
    ensures s.active.value in s.sessions && Live(s, s.active.value)
    ensures s.sessions[s.active.value].task == s.lock
  {
    assert Holding(s.tasks[s.lock.value].phase);
  }
}
