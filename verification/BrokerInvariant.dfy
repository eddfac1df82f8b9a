/**
 The invariant of the broker: what its tables, its lock, the two pipes, the
 engine's options and the history of a run look like between two steps.
 */
module BrokerInvariant {
  import opened Options
  import opened UciBroker

  type Tasks = map<TaskId, Task>

  predicate Holding(phase: Phase) {
    !phase.Waiting? && !phase.Cancelling? && !phase.Done?
  }

  predicate Heard(phase: Phase) {
    phase == Forwarding(true) || phase == Done(Finished)
  }

  predicate GoWritten(phase: Phase) {
    phase.Reading? || phase.Forwarding? || phase == Done(Finished)
  }

  predicate Awaiting(phase: Phase) {
    phase.Reading? || phase == Forwarding(false)
  }

  ghost predicate Tables(tasks: Tasks, sessions: map<SessionId, Session>, nextTask: TaskId) {
    && (forall t | t in tasks ::
          && t < nextTask
          && tasks[t].session in sessions
          && (!tasks[t].phase.Done? ==> sessions[tasks[t].session].task == Some(t)))
    && (forall c | c in sessions && sessions[c].task.Some? ::
          sessions[c].task.value in tasks && tasks[sessions[c].task.value].session == c)
  }

  // `_active_session` is set exactly while that session's task holds the lock.
  ghost predicate Ownership(tasks: Tasks, lock: Option<TaskId>, active: Option<SessionId>) {
    && (forall t | t in tasks :: Holding(tasks[t].phase) <==> lock == Some(t))
    && match lock
       case None => active == None
       case Some(t) => t in tasks && active == Some(tasks[t].session)
  }

  /* ---------- the two pipes ---------- */

  ghost predicate Quiet(lines: seq<Line>) {
    forall k | 0 <= k < |lines| :: lines[k] == Chatter
  }

  ghost predicate OwnLines(lines: seq<Line>, t: TaskId) {
    forall k | 0 <= k < |lines| :: lines[k] == Chatter || lines[k] == Info(t)
  }

  ghost predicate OnlyStops(q: seq<Command>) {
    forall k | 0 <= k < |q| :: q[k].Stop?
  }

  ghost predicate StopsOf(q: seq<Command>, t: TaskId) {
    forall k | 0 <= k < |q| :: q[k] == Stop(t)
  }

  // What may precede a marker line (`isready` or `go`) that is still unread.
  predicate Before(c: Command, t: TaskId, mark: Command) {
    if mark == IsReady then c.Stop? || c.SetOption? else c == Stop(t) || c.NewGame? || c.Position?
  }

  ghost predicate AllBefore(q: seq<Command>, t: TaskId, mark: Command) {
    forall k | 0 <= k < |q| :: Before(q[k], t, mark)
  }

  // The marker is unread, with nothing after it but stops for search t.
  ghost predicate Marked(q: seq<Command>, i: int, t: TaskId, mark: Command) {
    0 <= i < |q| && q[i] == mark && AllBefore(q[..i], t, mark) && StopsOf(q[i + 1..], t)
  }

  // The line `mark` is still to be read, with nothing after it but chatter.
  ghost predicate Coming(lines: seq<Line>, j: int, t: TaskId, mark: Line) {
    && 0 <= j < |lines| && lines[j] == mark && Quiet(lines[j + 1..])
    && if mark == ReadyOk then Quiet(lines[..j]) else OwnLines(lines[..j], t)
  }

  ghost predicate AwaitingReady(t: TaskId, input: seq<Command>, output: seq<Line>) {
    || (Quiet(output) && exists i :: Marked(input, i, t, IsReady))
    || (StopsOf(input, t) && exists j :: Coming(output, j, t, ReadyOk))
  }

  // `begun` and `over`: whether the engine has read the go and ended the search.
  ghost predicate AwaitingBest(t: TaskId, go: string, input: seq<Command>, output: seq<Line>,
                               search: Option<Search>, begun: bool, over: bool) {
    if !begun then
      !over && search == None && Quiet(output) && exists i :: Marked(input, i, t, Go(t, go))
    else if !over then
      (search == Some(Search(t, None)) || search == Some(Search(t, Some(t)))) && StopsOf(input, t) && OwnLines(output, t)
    else
      search == None && StopsOf(input, t) && exists j :: Coming(output, j, t, BestMove(t))
  }

  // What is in the pipes, by the progress of the task that holds the lock.
  ghost predicate Pipes(phase: Phase, t: TaskId, go: string, input: seq<Command>, output: seq<Line>,
                        search: Option<Search>, begun: bool, over: bool) {
    match phase
    case Configuring(_) => search == None && Quiet(output) && AllBefore(input, t, IsReady)
    case AwaitReady => search == None && AwaitingReady(t, input, output)
    case SentNewGame => search == None && Quiet(output) && AllBefore(input, t, Go(t, go))
    case SentPosition => search == None && Quiet(output) && AllBefore(input, t, Go(t, go))
    case Reading => AwaitingBest(t, go, input, output, search, begun, over)
    case Forwarding(last) =>
      if last then begun && over && search == None && Quiet(output) && StopsOf(input, t)
      else AwaitingBest(t, go, input, output, search, begun, over)
    case _ => false
  }

  ghost predicate Streams(s: State) {
    match s.lock
    case None => s.engine.search == None && OnlyStops(s.input) && Quiet(s.output)
    case Some(t) =>
      && t in s.tasks
      && Pipes(s.tasks[t].phase, t, s.tasks[t].go, s.input, s.output, s.engine.search, t in s.started, t in s.ended)
  }

  /* ---------- the engine's settings ---------- */

  // The settings the engine will have once it has read everything written.
  ghost function Eventual(settings: Settings, q: seq<Command>): Settings
    decreases |q|
  {
    if q == [] then settings else Apply(Eventual(settings, q[..|q| - 1]), q[|q| - 1])
  }

  function Target(task: Task): Values { task.base + task.merged }

  ghost predicate Configured(task: Task, eventual: Settings) {
    match task.phase
    case Configuring(left) =>
      left <= task.merged.Keys && eventual.options == task.base + (task.merged - left)
    case AwaitReady => eventual.options == Target(task)
    case SentNewGame => eventual.options == Target(task)
    case _ => eventual == Settings(Target(task), task.posted)
  }

  ghost predicate Configuration(s: State) {
    s.lock.Some? ==>
      s.lock.value in s.tasks && Configured(s.tasks[s.lock.value], Eventual(s.engine.settings, s.input))
  }

  // Every search started with the options of its own session on top of what the
  // engine had when the session's turn came, at the position the task wrote.
  ghost predicate Started(tasks: Tasks, started: map<TaskId, Settings>) {
    forall t | t in started ::
      t in tasks && GoWritten(tasks[t].phase) && started[t] == Settings(Target(tasks[t]), tasks[t].posted)
  }

  /* ---------- the history ---------- */

  function BestCount(log: seq<Delivery>, t: TaskId): nat {
    if log == [] then 0 else
    BestCount(log[..|log| - 1], t) + BestOf(log[|log| - 1], t)
  }

  function BestOf(d: Delivery, t: TaskId): nat {
    if d.task == t && d.line.BestMove? then 1 else 0
  }

  predicate LineOf(line: Line, t: TaskId) {
    line == Chatter || line == Info(t) || line == BestMove(t)
  }

  ghost predicate Addressed(tasks: Tasks, log: seq<Delivery>) {
    forall k | 0 <= k < |log| ::
      && log[k].task in tasks && log[k].session == tasks[log[k].task].session
      && GoWritten(tasks[log[k].task].phase) && LineOf(log[k].line, log[k].task)
  }

  ghost predicate Counted(tasks: Tasks, log: seq<Delivery>) {
    forall t | t in tasks :: BestCount(log, t) == if Heard(tasks[t].phase) then 1 else 0
  }

  ghost predicate Ended(tasks: Tasks, ended: map<TaskId, Option<TaskId>>) {
    forall t | t in ended ::
      t in tasks && GoWritten(tasks[t].phase) && (ended[t] == None || ended[t] == Some(t))
  }

  // The invariant has two halves: the broker's tables and the history of the
  // run, and what is under way between the broker and the engine.
  ghost predicate Books(s: State) {
    && Tables(s.tasks, s.sessions, s.nextTask)
    && Ownership(s.tasks, s.lock, s.active)
    && Started(s.tasks, s.started)
    && Addressed(s.tasks, s.log)
    && Counted(s.tasks, s.log)
    && Ended(s.tasks, s.ended)
  }

  ghost predicate Wires(s: State) {
    Streams(s) && Configuration(s)
  }

  ghost predicate Inv(s: State) {
    Books(s) && Wires(s)
  }

  /* ---------- lemmas about the tables ---------- */

  predicate SameBooks(s: State, s': State) {
    && s'.tasks == s.tasks && s'.sessions == s.sessions && s'.nextTask == s.nextTask
    && s'.lock == s.lock && s'.active == s.active
    && s'.started == s.started && s'.log == s.log && s'.ended == s.ended
  }

  // A task's new record stays in step with what the history says of it.
  predicate Follows(task: Task, next: Task) {
    && next.session == task.session
    && (task.phase.Done? ==> next.phase.Done?)
    && Heard(next.phase) == Heard(task.phase)
    && (GoWritten(task.phase) ==>
          GoWritten(next.phase) && Target(next) == Target(task) && next.posted == task.posted)
  }

  lemma TablesUpdate(tasks: Tasks, sessions: map<SessionId, Session>, nextTask: TaskId, t: TaskId, task: Task)
    requires Tables(tasks, sessions, nextTask) && t in tasks
    requires task.session == tasks[t].session && (tasks[t].phase.Done? ==> task.phase.Done?)
    ensures Tables(tasks[t := task], sessions, nextTask)
  {
  }

  lemma HistoryUpdate(tasks: Tasks, log: seq<Delivery>, started: map<TaskId, Settings>,
                      ended: map<TaskId, Option<TaskId>>, t: TaskId, task: Task)
    requires t in tasks && Follows(tasks[t], task)
    requires Started(tasks, started) && Addressed(tasks, log) && Counted(tasks, log) && Ended(tasks, ended)
    ensures Started(tasks[t := task], started) && Addressed(tasks[t := task], log)
    ensures Counted(tasks[t := task], log) && Ended(tasks[t := task], ended)
  {
  }

  lemma TaskBooks(s: State, s': State, t: TaskId, task: Task)
    requires Books(s) && t in s.tasks && Follows(s.tasks[t], task)
    requires Holding(task.phase) == Holding(s.tasks[t].phase)
    requires SameBooks(s.(tasks := s.tasks[t := task]), s')
    ensures Books(s')
  {
    TablesUpdate(s.tasks, s.sessions, s.nextTask, t, task);
    HistoryUpdate(s.tasks, s.log, s.started, s.ended, t, task);
  }

  /* ---------- lemmas about the pipes ---------- */

  lemma EventualAppend(settings: Settings, q: seq<Command>, c: Command)
    ensures Eventual(settings, q + [c]) == Apply(Eventual(settings, q), c)
  {
    assert (q + [c])[..|q|] == q;
  }

  lemma {:induction false} EventualHead(settings: Settings, q: seq<Command>)
    requires q != []
    ensures Eventual(settings, q) == Eventual(Apply(settings, q[0]), q[1..])
    decreases |q|
  {
    if |q| == 1 {
      assert q[..0] == [] && q[1..] == [];
      assert Eventual(settings, q) == Apply(Eventual(settings, q[..0]), q[0]);
    } else {
      EventualHead(settings, q[..|q| - 1]);
      assert q[1..][..|q| - 2] == q[..|q| - 1][1..];
    }
  }

  // Lines that set nothing leave the settings alone.
  lemma {:induction false} EventualInert(settings: Settings, q: seq<Command>)
    requires forall k | 0 <= k < |q| :: !q[k].SetOption? && !q[k].Position?
    ensures Eventual(settings, q) == settings
    decreases |q|
  {
    if q != [] {
      EventualInert(settings, q[..|q| - 1]);
    }
  }

  lemma MarkedStop(q: seq<Command>, i: int, t: TaskId, mark: Command)
    requires Marked(q, i, t, mark)
    ensures Marked(q + [Stop(t)], i, t, mark)
  {
    assert (q + [Stop(t)])[..i] == q[..i];
    assert (q + [Stop(t)])[i + 1..] == q[i + 1..] + [Stop(t)];
  }

  lemma MarkedLast(q: seq<Command>, t: TaskId, mark: Command)
    requires AllBefore(q, t, mark)
    ensures Marked(q + [mark], |q|, t, mark)
  {
    assert (q + [mark])[..|q|] == q;
  }

  lemma MarkedHead(q: seq<Command>, i: int, t: TaskId, mark: Command)
    requires Marked(q, i, t, mark)
    ensures i > 0 ==> Before(q[0], t, mark) && Marked(q[1..], i - 1, t, mark)
    ensures i == 0 ==> q[0] == mark && StopsOf(q[1..], t)
  {
    if i > 0 {
      assert q[..i][0] == q[0];
      assert q[1..][..i - 1] == q[..i][1..];
      assert q[1..][i..] == q[i + 1..];
    }
  }

  lemma ComingAppend(lines: seq<Line>, j: int, t: TaskId, mark: Line)
    requires Coming(lines, j, t, mark)
    ensures Coming(lines + [Chatter], j, t, mark)
  {
    assert (lines + [Chatter])[..j] == lines[..j];
    assert (lines + [Chatter])[j + 1..] == lines[j + 1..] + [Chatter];
  }

  lemma ComingLast(lines: seq<Line>, t: TaskId, mark: Line)
    requires if mark == ReadyOk then Quiet(lines) else OwnLines(lines, t)
    ensures Coming(lines + [mark], |lines|, t, mark)
  {
    assert (lines + [mark])[..|lines|] == lines;
  }

  lemma ComingHead(lines: seq<Line>, j: int, t: TaskId, mark: Line)
    requires Coming(lines, j, t, mark)
    ensures j > 0 ==> (lines[0] == Chatter || (mark != ReadyOk && lines[0] == Info(t))) && Coming(lines[1..], j - 1, t, mark)
    ensures j == 0 ==> lines[0] == mark && Quiet(lines[1..])
  {
    if j > 0 {
      assert lines[..j][0] == lines[0];
      assert lines[1..][..j - 1] == lines[..j][1..];
      assert lines[1..][j..] == lines[j + 1..];
    }
  }

  /* ---------- the pipes under each kind of write and read ---------- */

  lemma PipesStop(phase: Phase, t: TaskId, go: string, input: seq<Command>, output: seq<Line>,
                  search: Option<Search>, begun: bool, over: bool)
    requires Pipes(phase, t, go, input, output, search, begun, over)
    ensures Pipes(phase, t, go, input + [Stop(t)], output, search, begun, over)
  {
    if phase.AwaitReady? {
      if i :| Marked(input, i, t, IsReady) {
        MarkedStop(input, i, t, IsReady);
      }
    } else if Awaiting(phase) && !begun {
      var i :| Marked(input, i, t, Go(t, go));
      MarkedStop(input, i, t, Go(t, go));
    }
  }

  lemma PipesChatter(phase: Phase, t: TaskId, go: string, input: seq<Command>, output: seq<Line>,
                     search: Option<Search>, begun: bool, over: bool)
    requires Pipes(phase, t, go, input, output, search, begun, over)
    ensures Pipes(phase, t, go, input, output + [Chatter], search, begun, over)
  {
    if phase.AwaitReady? {
      if j :| Coming(output, j, t, ReadyOk) {
        ComingAppend(output, j, t, ReadyOk);
      }
    } else if Awaiting(phase) && over {
      var j :| Coming(output, j, t, BestMove(t));
      ComingAppend(output, j, t, BestMove(t));
    }
  }

  lemma AwaitingReadyHead(t: TaskId, input: seq<Command>, output: seq<Line>)
    requires AwaitingReady(t, input, output) && output != []
    ensures output[0] == ReadyOk ==> StopsOf(input, t) && Quiet(output[1..])
    ensures output[0] != ReadyOk ==> output[0] == Chatter && AwaitingReady(t, input, output[1..])
  {
    if !(Quiet(output) && exists i :: Marked(input, i, t, IsReady)) {
      var j :| Coming(output, j, t, ReadyOk);
      ComingHead(output, j, t, ReadyOk);
    }
  }

  // The line a task reads while it waits for `bestmove` belongs to its search.
  lemma AwaitingBestHead(t: TaskId, go: string, input: seq<Command>, output: seq<Line>,
                         search: Option<Search>, begun: bool, over: bool)
    requires AwaitingBest(t, go, input, output, search, begun, over) && output != []
    ensures LineOf(output[0], t)
    ensures output[0] == BestMove(t) ==> begun && over && search == None && StopsOf(input, t) && Quiet(output[1..])
    ensures output[0] != BestMove(t) ==> AwaitingBest(t, go, input, output[1..], search, begun, over)
  {
    if begun && over {
      var j :| Coming(output, j, t, BestMove(t));
      ComingHead(output, j, t, BestMove(t));
    }
  }

  lemma AwaitingReadyConsume(t: TaskId, input: seq<Command>, output: seq<Line>)
    requires AwaitingReady(t, input, output) && input != []
    ensures !input[0].Go?
    ensures AwaitingReady(t, input[1..], if input[0] == IsReady then output + [ReadyOk] else output)
  {
    if Quiet(output) && exists i :: Marked(input, i, t, IsReady) {
      var i :| Marked(input, i, t, IsReady);
      MarkedHead(input, i, t, IsReady);
      ComingLast(output, t, ReadyOk);
    } else {
      assert input[0] == Stop(t);
    }
  }

  lemma AwaitingBestConsume(t: TaskId, go: string, input: seq<Command>, output: seq<Line>,
                            e: Engine, begun: bool, over: bool)
    requires AwaitingBest(t, go, input, output, e.search, begun, over) && input != []
    ensures input[0] != IsReady && !input[0].SetOption?
    ensures input[0].Stop? ==> input[0] == Stop(t)
    ensures input[0].Go? ==> input[0] == Go(t, go) && e.search == None && !begun && StopsOf(input[1..], t)
    ensures AwaitingBest(t, go, input[1..], output, Obey(e, input[0]).search, begun || input[0].Go?, over)
  {
    if !begun {
      var i :| Marked(input, i, t, Go(t, go));
      MarkedHead(input, i, t, Go(t, go));
    } else {
      assert input[0] == Stop(t);
    }
  }

  lemma BestCountAppend(log: seq<Delivery>, d: Delivery, t: TaskId)
    ensures BestCount(log + [d], t) == BestCount(log, t) + BestOf(d, t)
  {
    assert (log + [d])[..|log|] == log;
  }

  lemma {:induction false} BestCountFresh(log: seq<Delivery>, t: TaskId)
    requires forall k | 0 <= k < |log| :: log[k].task != t
    ensures BestCount(log, t) == 0
    decreases |log|
  {
    if log != [] {
      BestCountFresh(log[..|log| - 1], t);
    }
  }
}
