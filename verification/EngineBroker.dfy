/**
 `EngineBroker` of broker/server.py, one method per stretch of a coroutine that
 runs without suspension, over the fields the source updates.  Each method takes
 the broker from one state of the transition system to the next and so keeps its
 invariant.
 */
module EngineBroker {
  import opened Options
  import opened UciBroker
  import opened BrokerInvariant
  import opened BrokerSafety

  class Broker {
    const defaults: Values
    const endless: set<string>
    var sessions: map<SessionId, Session>
    var tasks: map<TaskId, Task>
    var nextTask: TaskId
    var engineLock: Option<TaskId>
    var activeSession: Option<SessionId>
    // The two pipes to the engine process, and the process behind them.
    var toEngine: seq<Command>
    var fromEngine: seq<Line>
    var engine: Engine
    ghost var started: map<TaskId, Settings>
    ghost var ended: map<TaskId, Option<TaskId>>
    ghost var log: seq<Delivery>

    ghost function Now(): State
      reads this
    {
      State(defaults, endless, sessions, tasks, nextTask, engineLock, activeSession, toEngine, fromEngine,
            engine, started, ended, log)
    }

    constructor (defaults: Values, endless: set<string>, settings: Settings)
      ensures Now() == Init(defaults, endless, settings) && Inv(Now())
    {
      this.defaults, this.endless := defaults, endless;
      sessions, tasks, nextTask := map[], map[], 0;
      engineLock, activeSession := None, None;
      toEngine, fromEngine, engine := [], [], Engine(settings, None);
      started, ended, log := map[], map[], [];
    }

    method SendEngine(command: Command)
      modifies this`toEngine
      ensures Now() == Write(old(Now()), command)
    {
      toEngine := toEngine + [command];
    }

    method ServeClient(c: SessionId)
      requires Inv(Now()) && c !in sessions
      modifies this
      ensures Now() == Connect(old(Now()), c) && Inv(Now())
    {
      StepKeeps(Now(), AConnect(c));
      sessions := sessions[c := Session(map[], "position startpos", Interactive, true, None, false)];
    }

    method SetOption(c: SessionId, name: string, value: string)
      requires c in sessions
      modifies this`sessions
      ensures Now() == Handle(old(Now()), c, ReqSetOption(name, value))
    {
      var session := sessions[c];
      if name == "BrokerPriority" {
        var priority := Interactive;
        if value == "background" {
          priority := Background;
        }
        session := session.(priority := priority);
      } else if name != "" {
        session := session.(options := session.options[name := value]);
      }
      sessions := sessions[c := session];
    }

    method PreemptBackgroundIfNeeded(requester: SessionId)
      requires Inv(Now()) && requester in sessions
      modifies this`toEngine
      ensures Now() == Preempt(old(Now()), requester)
    {
      if activeSession == None {
        return;
      }
      var active := activeSession.value;
      WriteStopKeeps(Now(), active);
      if sessions[requester].priority == Interactive && sessions[active].priority == Background {
        SendEngine(Stop(engineLock.value));
      }
    }

    method StopSessionSearch(c: SessionId)
      requires Inv(Now()) && c in sessions
      modifies this`toEngine, this`tasks
      ensures Now() == StopSearch(old(Now()), c) && Inv(Now())
    {
      StopKeeps(Now(), c);
      var task := sessions[c].task;
      if task == None || tasks[task.value].phase.Done? {
        return;
      }
      if activeSession == Some(c) {
        SendEngine(Stop(task.value));
      } else {
        tasks := tasks[task.value := tasks[task.value].(phase := Cancelling)];
      }
    }

    method HandleCommand(c: SessionId, r: Request)
      requires Inv(Now()) && c in sessions && !sessions[c].closed
      modifies this
      ensures Now() == Handle(old(Now()), c, r) && Inv(Now())
    {
      RequestKeeps(Now(), c, r);
      match r
      case ReqSetOption(name, value) => SetOption(c, name, value);
      case ReqNewGame => sessions := sessions[c := sessions[c].(newGame := true)];
      case ReqPosition(text) => sessions := sessions[c := sessions[c].(position := text)];
      case ReqGo(text) => StartSearchTask(c, text);
      case ReqStop => StopSessionSearch(c);
      case ReqOther =>
    }

    method HasActiveSearch(c: SessionId) returns (busy: bool)
      requires c in sessions
      ensures busy == Live(Now(), c)
    {
      var task := sessions[c].task;
      busy := task.Some? && task.value in tasks && !tasks[task.value].phase.Done?;
    }

    method CreateTask(c: SessionId, text: string)
      requires Inv(Now()) && c in sessions && !Live(Now(), c)
      modifies this`tasks, this`sessions, this`nextTask
      ensures Now() == WithTask(old(Now()), c, text) && Inv(Now())
    {
      WithTaskKeeps(Now(), c, text);
      tasks := tasks[nextTask := Task(c, text, Waiting, map[], map[], "")];
      sessions := sessions[c := sessions[c].(task := Some(nextTask))];
      nextTask := nextTask + 1;
    }

    method StartSearchTask(c: SessionId, text: string)
      requires Inv(Now()) && c in sessions
      modifies this
      ensures Now() == StartSearch(old(Now()), c, text)
    {
      var busy := HasActiveSearch(c);
      if busy {
        return;
      }
      CreateTask(c, text);
      PreemptBackgroundIfNeeded(c);
    }

    method Disconnect(c: SessionId)
      requires Inv(Now()) && c in sessions
      modifies this
      ensures Now() == UciBroker.Disconnect(old(Now()), c) && Inv(Now())
    {
      if sessions[c].closed {
        return;
      }
      SessionKeeps(Now(), c, sessions[c].(closed := true));
      sessions := sessions[c := sessions[c].(closed := true)];
      StopSessionSearch(c);
    }
  
    /* ---------- the stretches of `_run_search` ---------- */

    method EnterLock(t: TaskId)
      requires HasTask(Now(), t) && engineLock == None
      modifies this
      ensures Now() == Acquire(old(Now()), t)
    {
      var c := tasks[t].session;
      if sessions[c].closed {
        tasks := tasks[t := tasks[t].(phase := Done(Skipped))];
        return;
      }
      engineLock, activeSession := Some(t), Some(c);
      var merged := defaults + sessions[c].options;
      tasks := tasks[t := tasks[t].(phase := Configuring(merged.Keys), merged := merged,
                                    base := engine.settings.options)];
    }

    method ConfigureNext(t: TaskId, name: string)
      requires HasTask(Now(), t) && tasks[t].phase.Configuring? && name in tasks[t].merged
      modifies this`toEngine, this`tasks
      ensures Now() == SendOption(old(Now()), t, name)
    {
      SendEngine(Command.SetOption(name, tasks[t].merged[name]));
      tasks := tasks[t := tasks[t].(phase := Configuring(tasks[t].phase.left - {name}))];
    }

    method WritePosition(t: TaskId)
      requires HasTask(Now(), t)
      modifies this`toEngine, this`tasks
      ensures Now() == SendPosition(old(Now()), t)
    {
      var position := sessions[tasks[t].session].position;
      SendEngine(Position(position));
      tasks := tasks[t := tasks[t].(phase := SentPosition, posted := position)];
    }

    method ReadUntilReady(t: TaskId)
      requires HasTask(Now(), t) && fromEngine != []
      modifies this
      ensures Now() == ReadReady(old(Now()), t)
    {
      var line := fromEngine[0];
      fromEngine := fromEngine[1..];
      if line != ReadyOk {
        return;
      }
      if sessions[tasks[t].session].newGame {
        SendEngine(NewGame);
        tasks := tasks[t := tasks[t].(phase := SentNewGame)];
      } else {
        WritePosition(t);
      }
    }

    method AfterUciNewGame(t: TaskId)
      requires HasTask(Now(), t)
      modifies this
      ensures Now() == AfterNewGame(old(Now()), t)
    {
      var c := tasks[t].session;
      sessions := sessions[c := sessions[c].(newGame := false)];
      WritePosition(t);
    }

    method WriteGo(t: TaskId)
      requires HasTask(Now(), t)
      modifies this`toEngine, this`tasks
      ensures Now() == SendGo(old(Now()), t)
    {
      SendEngine(Go(t, tasks[t].go));
      tasks := tasks[t := tasks[t].(phase := Reading)];
    }

    method ForwardLine(t: TaskId)
      requires HasTask(Now(), t) && fromEngine != []
      modifies this
      ensures Now() == ReadLine(old(Now()), t)
    {
      var line := fromEngine[0];
      fromEngine := fromEngine[1..];
      log := log + [Delivery(t, tasks[t].session, line, !sessions[tasks[t].session].closed)];
      tasks := tasks[t := tasks[t].(phase := Forwarding(line.BestMove?))];
    }

    method LineSent(t: TaskId)
      requires HasTask(Now(), t) && tasks[t].phase.Forwarding?
      modifies this
      ensures Now() == AfterForward(old(Now()), t)
    {
      if !tasks[t].phase.last {
        tasks := tasks[t := tasks[t].(phase := Reading)];
        return;
      }
      var c := tasks[t].session;
      tasks := tasks[t := tasks[t].(phase := Done(Finished))];
      engineLock := None;
      if activeSession == Some(c) {
        activeSession := None;
      }
    }

    method Cancelled(t: TaskId)
      requires HasTask(Now(), t)
      modifies this
      ensures Now() == AfterCancel(old(Now()), t)
    {
      var c := tasks[t].session;
      tasks := tasks[t := tasks[t].(phase := Done(Outcome.Cancelled))];
      if activeSession == Some(c) {
        activeSession := None;
      }
    }

    method WriteIsReady(t: TaskId)
      requires HasTask(Now(), t)
      modifies this`toEngine, this`tasks
      ensures Now() == SetPhase(Write(old(Now()), IsReady), t, AwaitReady)
    {
      SendEngine(IsReady);
      tasks := tasks[t := tasks[t].(phase := AwaitReady)];
    }

    method RunSearch(t: TaskId, name: string)
      requires Inv(Now()) && HasTask(Now(), t) && Resume(Now(), t, name).Some?
      modifies this
      ensures Some(Now()) == Resume(old(Now()), t, name) && Inv(Now())
    {
      ResumeKeeps(Now(), t, name);
      Advance(t, name);
    }

    // Task t runs from the point where it is suspended to its next suspension.
    method Advance(t: TaskId, name: string)
      requires HasTask(Now(), t) && Resume(Now(), t, name).Some?
      modifies this
      ensures Some(Now()) == Resume(old(Now()), t, name)
    {
      match tasks[t].phase
      case Waiting => EnterLock(t);
      case Configuring(left) =>
        if left != {} {
          ConfigureNext(t, name);
        } else {
          WriteIsReady(t);
        }
      case AwaitReady => ReadUntilReady(t);
      case SentNewGame => AfterUciNewGame(t);
      case SentPosition => WriteGo(t);
      case Reading => ForwardLine(t);
      case Forwarding(_) => LineSent(t);
      case Cancelling => this.Cancelled(t);
    }
  }
}
