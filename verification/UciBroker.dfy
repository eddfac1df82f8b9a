/**
 The broker of broker/server.py: many client sessions, one UCI engine.

 A coroutine runs without interruption between two suspension points, so one
 `Action` is one such stretch of the broker, one step of the engine process, or
 one command of a client.  Where this model cuts a stretch in two it only adds
 interleavings.  The tags on `Go` and `Stop` say on whose behalf the broker
 wrote the line; nothing the broker or the engine does depends on them.
 */
module UciBroker {
  import opened Options

  type SessionId = nat
  type TaskId = nat
  type Values = map<string, string>

  datatype Priority = Interactive | Background

  // The lines the broker writes to the engine ...
  datatype Command =
    | SetOption(name: string, value: string)
    | IsReady
    | NewGame
    | Position(text: string)
    | Go(search: TaskId, text: string)
    | Stop(target: TaskId)

  // ... and the lines it reads back.  Chatter is any unsolicited line.
  datatype Line = ReadyOk | Info(search: TaskId) | BestMove(search: TaskId) | Chatter

  datatype Session = Session(
    options: Values, position: string, priority: Priority,
    newGame: bool, task: Option<TaskId>, closed: bool)

  datatype Outcome = Finished | Cancelled | Skipped

  // Where a search task is suspended.
  datatype Phase =
    | Waiting                          // for the engine lock
    | Configuring(left: set<string>)   // options still to be written
    | AwaitReady
    | SentNewGame
    | SentPosition
    | Reading
    | Forwarding(last: bool)           // sending one engine line to the client
    | Cancelling
    | Done(outcome: Outcome)

  // `merged` is the dictionary the task configures the engine with, `base` the
  // options the engine had when the task took the lock, `posted` the position
  // line the task wrote.
  datatype Task = Task(session: SessionId, go: string, phase: Phase,
                       merged: Values, base: Values, posted: string)

  datatype Settings = Settings(options: Values, position: string)
  datatype Search = Search(task: TaskId, stopper: Option<TaskId>)
  datatype Engine = Engine(settings: Settings, search: Option<Search>)

  datatype Delivery = Delivery(task: TaskId, session: SessionId, line: Line, sent: bool)

  // `endless` are the `go` lines that set no bound, such as `go infinite`.
  datatype State = State(
    defaults: Values,
    endless: set<string>,
    sessions: map<SessionId, Session>,
    tasks: map<TaskId, Task>,
    nextTask: TaskId,
    lock: Option<TaskId>,
    active: Option<SessionId>,
    input: seq<Command>,
    output: seq<Line>,
    engine: Engine,
    // History: the settings each search started under, who stopped each search
    // that has ended, and every line read on behalf of a search.
    started: map<TaskId, Settings>,
    ended: map<TaskId, Option<TaskId>>,
    log: seq<Delivery>)

  function Init(defaults: Values, endless: set<string>, settings: Settings): State {
    State(defaults, endless, map[], map[], 0, None, None, [], [], Engine(settings, None), map[], map[], [])
  }

  /* ---------- client commands ---------- */

  datatype Request =
    | ReqSetOption(name: string, value: string)
    | ReqNewGame
    | ReqPosition(text: string)
    | ReqGo(text: string)
    | ReqStop
    | ReqOther       // uci, isready and lines the broker ignores

  function Connect(s: State, c: SessionId): State {
    s.(sessions := s.sessions[c := Session(map[], "position startpos", Interactive, true, None, false)])
  }

  function SetSessionOption(q: Session, name: string, value: string): Session {
    if name == "BrokerPriority" then
      q.(priority := if value == "background" then Background else Interactive)
    else if name != "" then q.(options := q.options[name := value])
    else q
  }

  predicate Live(s: State, c: SessionId)
    requires c in s.sessions
  {
    var task := s.sessions[c].task;
    task.Some? && task.value in s.tasks && !s.tasks[task.value].phase.Done?
  }

  function Write(s: State, command: Command): State {
    s.(input := s.input + [command])
  }

  // `stop` written on behalf of the search that session c is running.
  function WriteStop(s: State, c: SessionId): State {
    if c in s.sessions && s.sessions[c].task.Some? then Write(s, Stop(s.sessions[c].task.value)) else s
  }

  function Preempt(s: State, requester: SessionId): State
    requires requester in s.sessions
  {
    if && s.sessions[requester].priority == Interactive
       && s.active.Some?
       && s.active.value in s.sessions
       && s.sessions[s.active.value].priority == Background
    then WriteStop(s, s.active.value)
    else s
  }

  function StopSearch(s: State, c: SessionId): State
    requires c in s.sessions
  {
    if !Live(s, c) then s
    else if s.active == Some(c) then WriteStop(s, c)
    else SetPhase(s, s.sessions[c].task.value, Cancelling)
  }

  function StartSearch(s: State, c: SessionId, text: string): State
    requires c in s.sessions
  {
    if Live(s, c) then s
    else
      var t := s.nextTask;
      var q := s.sessions[c];
      Preempt(s.(tasks := s.tasks[t := Task(c, text, Waiting, map[], map[], "")],
                 sessions := s.sessions[c := q.(task := Some(t))],
                 nextTask := t + 1), c)
  }

  function Handle(s: State, c: SessionId, r: Request): State
    requires c in s.sessions
  {
    var q := s.sessions[c];
    match r
    case ReqSetOption(name, value) => s.(sessions := s.sessions[c := SetSessionOption(q, name, value)])
    case ReqNewGame => s.(sessions := s.sessions[c := q.(newGame := true)])
    case ReqPosition(text) => s.(sessions := s.sessions[c := q.(position := text)])
    case ReqGo(text) => StartSearch(s, c, text)
    case ReqStop => StopSearch(s, c)
    case ReqOther => s
  }

  function Disconnect(s: State, c: SessionId): State
    requires c in s.sessions
  {
    if s.sessions[c].closed then s
    else StopSearch(s.(sessions := s.sessions[c := s.sessions[c].(closed := true)]), c)
  }

  /* ---------- the search task ---------- */

  function SetPhase(s: State, t: TaskId, phase: Phase): State {
    if t in s.tasks then s.(tasks := s.tasks[t := s.tasks[t].(phase := phase)]) else s
  }

  predicate HasTask(s: State, t: TaskId) {
    t in s.tasks && s.tasks[t].session in s.sessions
  }

  function Acquire(s: State, t: TaskId): State
    requires HasTask(s, t)
  {
    var task := s.tasks[t];
    var q := s.sessions[task.session];
    if q.closed then SetPhase(s, t, Done(Skipped))
    else
      var merged := s.defaults + q.options;
      s.(lock := Some(t),
         active := Some(task.session),
         tasks := s.tasks[t := task.(phase := Configuring(merged.Keys), merged := merged,
                                     base := s.engine.settings.options)])
  }

  function SendOption(s: State, t: TaskId, name: string): State
    requires HasTask(s, t) && s.tasks[t].phase.Configuring? && name in s.tasks[t].merged
  {
    var task := s.tasks[t];
    SetPhase(Write(s, SetOption(name, task.merged[name])), t, Configuring(task.phase.left - {name}))
  }

  function SendPosition(s: State, t: TaskId): State
    requires HasTask(s, t)
  {
    var text := s.sessions[s.tasks[t].session].position;
    Write(s, Position(text)).(tasks := s.tasks[t := s.tasks[t].(phase := SentPosition, posted := text)])
  }

  // One line read by `_read_until("readyok")`.
  function ReadReady(s: State, t: TaskId): State
    requires HasTask(s, t) && s.output != []
  {
    var rest := s.(output := s.output[1..]);
    if s.output[0] != ReadyOk then rest
    else if s.sessions[s.tasks[t].session].newGame then SetPhase(Write(rest, NewGame), t, SentNewGame)
    else SendPosition(rest, t)
  }

  function AfterNewGame(s: State, t: TaskId): State
    requires HasTask(s, t)
  {
    var c := s.tasks[t].session;
    SendPosition(s.(sessions := s.sessions[c := s.sessions[c].(newGame := false)]), t)
  }

  function SendGo(s: State, t: TaskId): State
    requires HasTask(s, t)
  {
    SetPhase(Write(s, Go(t, s.tasks[t].go)), t, Reading)
  }

  function ReadLine(s: State, t: TaskId): State
    requires HasTask(s, t) && s.output != []
  {
    var line := s.output[0];
    var c := s.tasks[t].session;
    SetPhase(s.(output := s.output[1..],
                log := s.log + [Delivery(t, c, line, !s.sessions[c].closed)]),
             t, Forwarding(line.BestMove?))
  }

  function LeaveActive(s: State, c: SessionId): State {
    if s.active == Some(c) then s.(active := None) else s
  }

  function AfterForward(s: State, t: TaskId): State
    requires HasTask(s, t) && s.tasks[t].phase.Forwarding?
  {
    if s.tasks[t].phase.last
    then LeaveActive(SetPhase(s, t, Done(Finished)).(lock := None), s.tasks[t].session)
    else SetPhase(s, t, Reading)
  }

  function AfterCancel(s: State, t: TaskId): State
    requires HasTask(s, t)
  {
    LeaveActive(SetPhase(s, t, Done(Cancelled)), s.tasks[t].session)
  }

  // The stretch of `_run_search` that task t runs when it is resumed; None when
  // it has to stay suspended.  `name` picks the next option of the dictionary.
  function Resume(s: State, t: TaskId, name: string): Option<State>
    requires HasTask(s, t)
  {
    var phase := s.tasks[t].phase;
    match phase
    case Waiting => if s.lock.None? then Some(Acquire(s, t)) else None
    case Configuring(left) =>
      if left == {} then Some(SetPhase(Write(s, IsReady), t, AwaitReady))
      else if name in left && name in s.tasks[t].merged then Some(SendOption(s, t, name))
      else None
    case AwaitReady => if s.output != [] then Some(ReadReady(s, t)) else None
    case SentNewGame => Some(AfterNewGame(s, t))
    case SentPosition => Some(SendGo(s, t))
    case Reading => if s.output != [] then Some(ReadLine(s, t)) else None
    case Forwarding(_) => Some(AfterForward(s, t))
    case Cancelling => Some(AfterCancel(s, t))
    case Done(_) => None
  }

  /* ---------- the engine process ---------- */

  function Apply(settings: Settings, command: Command): Settings {
    match command
    case SetOption(name, value) => settings.(options := settings.options[name := value])
    case Position(text) => settings.(position := text)
    case _ => settings
  }

  function Obey(e: Engine, command: Command): Engine {
    var settings := Apply(e.settings, command);
    match command
    case Go(t, _) => Engine(settings, Some(Search(t, None)))
    case Stop(t) =>
      if e.search.Some? && e.search.value.stopper.None?
      then Engine(settings, Some(e.search.value.(stopper := Some(t))))
      else e
    case _ => Engine(settings, e.search)
  }

  function Consume(s: State): State
    requires s.input != []
  {
    var command := s.input[0];
    s.(input := s.input[1..],
       engine := Obey(s.engine, command),
       output := if command == IsReady then s.output + [ReadyOk] else s.output,
       started := if command.Go? then s.started[command.search := s.engine.settings] else s.started)
  }

  function Emit(s: State, line: Line): State {
    s.(output := s.output + [line])
  }

  // A search whose `go` line sets a bound.
  predicate Bounded(s: State, t: TaskId) {
    t in s.tasks && s.tasks[t].go !in s.endless
  }

  // UCI: without a bound a search ends only once it has been stopped.
  predicate MayEnd(s: State, search: Search) {
    search.stopper.Some? || Bounded(s, search.task)
  }

  function EmitBest(s: State): State
    requires s.engine.search.Some?
  {
    var search := s.engine.search.value;
    Emit(s, BestMove(search.task)).(engine := s.engine.(search := None),
                                   ended := s.ended[search.task := search.stopper])
  }

  /* ---------- the transition system ---------- */

  datatype Action =
    | AConnect(session: SessionId)
    | ARequest(session: SessionId, request: Request)
    | ADisconnect(session: SessionId)
    | AResume(task: TaskId, name: string)
    | AConsume
    | AInfo
    | AChatter
    | ABest

  function Step(s: State, a: Action): Option<State> {
    match a
    case AConnect(c) => if c in s.sessions then None else Some(Connect(s, c))
    case ARequest(c, r) =>
      if c in s.sessions && !s.sessions[c].closed then Some(Handle(s, c, r)) else None
    case ADisconnect(c) => if c in s.sessions then Some(Disconnect(s, c)) else None
    case AResume(t, name) => if HasTask(s, t) then Resume(s, t, name) else None
    case AConsume => if s.input != [] then Some(Consume(s)) else None
    case AInfo => if s.engine.search.Some? then Some(Emit(s, Info(s.engine.search.value.task))) else None
    case AChatter => Some(Emit(s, Chatter))
    case ABest => if s.engine.search.Some? && MayEnd(s, s.engine.search.value) then Some(EmitBest(s)) else None
  }

  // The state after a run, or None when the run takes a step that is not enabled.
  function Run(s: State, actions: seq<Action>): Option<State>
    decreases |actions|
  {
    if actions == [] then Some(s)
    else
      var before := Run(s, actions[..|actions| - 1]);
      if before.None? then None else Step(before.value, actions[|actions| - 1])
  }

  ghost predicate Reachable(s: State) {
    exists defaults, endless, settings, actions: seq<Action> ::
      Run(Init(defaults, endless, settings), actions) == Some(s)
  }
}
