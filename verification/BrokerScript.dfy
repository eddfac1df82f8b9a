/**
 What a search runs on, told from the commands of its client alone, and the lines
 that are written to the engine for one search.
 */
module BrokerScript {
  import opened Options
  import opened UciBroker
  import opened BrokerInvariant
  import opened BrokerSafety
  import opened BrokerRuns
  import opened BrokerHistory

  /* ---------- what is written to the engine for one search ---------- */

  // The lines without the stops, which other stretches may put between them.
  function NoStops(q: seq<Command>): seq<Command> {
    if q == [] then [] else NoStops(q[..|q| - 1]) + (if q[|q| - 1].Stop? then [] else [q[|q| - 1]])
  }

  function Written(before: seq<Command>, after: seq<Command>): seq<Command> {
    if |before| < |after| then NoStops(after[|before|..]) else []
  }

  // The lines written while task t holds the engine lock.
  ghost function LinesOf(init: State, actions: seq<Action>, t: TaskId): seq<Command>
    decreases |actions|
  {
    if actions == [] then []
    else
      var earlier := actions[..|actions| - 1];
      var before, after := Run(init, earlier), Run(init, actions);
      LinesOf(init, earlier, t) +
      if before.Some? && after.Some? && before.value.lock == Some(t) then Written(before.value.input, after.value.input)
      else []
  }

  // The options of the dictionary that are not left, each set once.
  ghost predicate OptionLines(lines: seq<Command>, merged: Values, left: set<string>) {
    && left <= merged.Keys
    && (forall k | 0 <= k < |lines| ::
          lines[k].SetOption? && lines[k].name in merged && lines[k].name !in left && lines[k].value == merged[lines[k].name])
    && (forall j, k | 0 <= j < k < |lines| :: lines[j].name != lines[k].name)
    && (forall name | name in merged && name !in left :: exists k | 0 <= k < |lines| :: lines[k].name == name)
  }

  ghost predicate EndsWith(lines: seq<Command>, last: Command) {
    lines != [] && lines[|lines| - 1] == last
  }

  // Then `isready`, ...
  ghost predicate ReadyLines(lines: seq<Command>, merged: Values) {
    EndsWith(lines, IsReady) && OptionLines(lines[..|lines| - 1], merged, {})
  }

  // ... `ucinewgame` if it is wanted, ...
  ghost predicate GameLines(lines: seq<Command>, merged: Values, newGame: bool) {
    if newGame then EndsWith(lines, NewGame) && ReadyLines(lines[..|lines| - 1], merged) else ReadyLines(lines, merged)
  }

  // ... the position and the `go`.
  ghost predicate PositionLines(lines: seq<Command>, merged: Values, posted: string, newGame: bool) {
    EndsWith(lines, Position(posted)) && GameLines(lines[..|lines| - 1], merged, newGame)
  }

  ghost predicate SearchLines(lines: seq<Command>, go: Command, merged: Values, posted: string, newGame: bool) {
    EndsWith(lines, go) && PositionLines(lines[..|lines| - 1], merged, posted, newGame)
  }

  // What has been written by the progress of the task.
  ghost predicate Script(lines: seq<Command>, t: TaskId, task: Task, newGame: bool) {
    match task.phase
    case Configuring(left) => OptionLines(lines, task.merged, left)
    case AwaitReady => ReadyLines(lines, task.merged)
    case SentNewGame => newGame && GameLines(lines, task.merged, true)
    case SentPosition => PositionLines(lines, task.merged, task.posted, newGame)
    case _ =>
      if GoWritten(task.phase) then SearchLines(lines, Go(t, task.go), task.merged, task.posted, newGame)
      else lines == []
  }

  /* ---------- the moments of a search ---------- */

  predicate Turned(phase: Phase) {
    Holding(phase) || phase == Done(Finished)
  }

  predicate PastReady(phase: Phase) {
    phase.SentNewGame? || Posted(phase)
  }

  // Action k of a run is a step of task t in state s.
  ghost predicate Moves(init: State, actions: seq<Action>, k: nat, s: State, t: TaskId) {
    && k < |actions| && Run(init, actions[..k]) == Some(s) && HasTask(s, t)
    && actions[k].AResume? && actions[k].task == t && Step(s, actions[k]).Some?
  }

  ghost predicate TakesTheLock(init: State, actions: seq<Action>, k: nat, s: State, t: TaskId) {
    Moves(init, actions, k, s, t) && s.lock == None && Step(s, actions[k]).value.lock == Some(t)
  }

  ghost predicate HearsReady(init: State, actions: seq<Action>, k: nat, s: State, t: TaskId) {
    && Moves(init, actions, k, s, t)
    && s.tasks[t].phase.AwaitReady? && s.output != [] && s.output[0] == ReadyOk
  }

  ghost predicate WritesPosition(init: State, actions: seq<Action>, k: nat, s: State, t: TaskId) {
    && Moves(init, actions, k, s, t)
    && var written := Step(s, actions[k]).value.input;
       |written| == |s.input| + 1 && written[|s.input|].Position?
  }

  // When the client asked for a search, when its turn came, when the engine was
  // ready and when the position was written, with the states at the last three.
  datatype Track = Track(asked: nat, turn: nat, atTurn: State, ready: nat, atReady: State, posted: nat, atPosted: State)

  ghost predicate TurnTracked(init: State, actions: seq<Action>, t: TaskId, task: Task, tr: Track) {
    && tr.asked < tr.turn && TakesTheLock(init, actions, tr.turn, tr.atTurn, t)
    && task.base == tr.atTurn.engine.settings.options
    && task.merged == init.defaults + OptionsSent(actions[..tr.turn], task.session)
  }

  ghost predicate ReadyTracked(init: State, actions: seq<Action>, t: TaskId, tr: Track) {
    tr.turn < tr.ready && HearsReady(init, actions, tr.ready, tr.atReady, t)
  }

  ghost predicate PositionTracked(init: State, actions: seq<Action>, t: TaskId, task: Task, tr: Track) {
    && tr.ready <= tr.posted && WritesPosition(init, actions, tr.posted, tr.atPosted, t)
    && task.posted == PositionSent(actions[..tr.posted], task.session)
  }

  ghost predicate Tracked(init: State, actions: seq<Action>, t: TaskId, task: Task, tr: Track) {
    && tr.asked < |actions| && actions[tr.asked] == ARequest(task.session, ReqGo(task.go))
    && (Turned(task.phase) ==> TurnTracked(init, actions, t, task, tr))
    && (PastReady(task.phase) ==> ReadyTracked(init, actions, t, tr))
    && (Posted(task.phase) ==> PositionTracked(init, actions, t, task, tr))
  }

  ghost predicate Wanted(init: State, actions: seq<Action>, task: Task, tr: Track) {
    PastReady(task.phase) && tr.ready <= |actions| && NewGameWanted(init, actions[..tr.ready], task.session)
  }

  /* ---------- one step of a search ---------- */

  // What other stretches do while t holds the lock: they may write a stop.
  predicate WritesAStop(before: seq<Command>, after: seq<Command>) {
    after == before || (|after| == |before| + 1 && after[..|before|] == before && after[|before|].Stop?)
  }

  lemma WriteStopWrites(s: State, c: SessionId)
    ensures WritesAStop(s.input, WriteStop(s, c).input)
  {
  }

  lemma StopSearchWrites(s: State, c: SessionId)
    requires c in s.sessions
    ensures WritesAStop(s.input, StopSearch(s, c).input)
  {
    WriteStopWrites(s, c);
  }

  lemma RequestWrites(s: State, c: SessionId, r: Request)
    requires c in s.sessions
    ensures WritesAStop(s.input, Handle(s, c, r).input)
  {
    match r
    case ReqGo(text) =>
      if !Live(s, c) {
        assert Handle(s, c, r) == Preempt(WithTask(s, c, text), c);
      }
    case ReqStop => StopSearchWrites(s, c);
    case _ =>
  }

  lemma ClientWrites(s: State, a: Action)
    requires (a.AConnect? || a.ARequest? || a.ADisconnect?) && Step(s, a).Some?
    ensures WritesAStop(s.input, Step(s, a).value.input)
  {
    match a
    case AConnect(c) => assert Step(s, a) == Some(Connect(s, c));
    case ARequest(c, r) => RequestWrites(s, c, r);
    case ADisconnect(c) =>
      if !s.sessions[c].closed {
        StopSearchWrites(s.(sessions := s.sessions[c := s.sessions[c].(closed := true)]), c);
      }
  }

  lemma StopsAreNotWritten(before: seq<Command>, after: seq<Command>)
    requires WritesAStop(before, after)
    ensures Written(before, after) == []
  {
    if |before| < |after| {
      assert after[|before|..] == [after[|before|]];
      OneLine(after[|before|]);
    }
  }

  lemma OneLine(c: Command)
    ensures NoStops([c]) == if c.Stop? then [] else [c]
  {
    assert [c][..0] == [];
  }

  lemma OneLineWritten(q: seq<Command>, c: Command)
    requires !c.Stop?
    ensures Written(q, q + [c]) == [c]
  {
    assert (q + [c])[|q|..] == [c];
    OneLine(c);
  }

  lemma OthersWriteStops(s: State, a: Action, t: TaskId)
    requires Ownership(s.tasks, s.lock, s.active) && Step(s, a).Some?
    requires s.lock == Some(t) && !(a.AResume? && a.task == t)
    ensures Written(s.input, Step(s, a).value.input) == []
  {
    if a.AResume? {
      ResumeShape(s, a.task, a.name);
    } else if a.AConnect? || a.ARequest? || a.ADisconnect? {
      ClientWrites(s, a);
      StopsAreNotWritten(s.input, Step(s, a).value.input);
    }
  }

  // What other stretches do to a task: nothing, or they cancel it before its turn.
  predicate LeftAlone(task: Task, next: Task) {
    next == task || (next == task.(phase := Cancelling) && !Turned(task.phase) && !task.phase.Done?)
  }

  lemma OthersLeaveTask(s: State, a: Action, t: TaskId)
    requires Books(s) && t in s.tasks && Step(s, a).Some? && !(a.AResume? && a.task == t)
    ensures t in Step(s, a).value.tasks
    ensures LeftAlone(s.tasks[t], Step(s, a).value.tasks[t])
  {
    if a.AResume? {
      ResumeShape(s, a.task, a.name);
    } else if a.ARequest? {
      RequestLeavesTask(s, a.session, a.request, t);
    } else if a.ADisconnect? && !s.sessions[a.session].closed {
      var s1 := s.(sessions := s.sessions[a.session := s.sessions[a.session].(closed := true)]);
      SessionBooks(s, a.session, s1.sessions[a.session]);
      StopLeavesTask(s1, a.session, t);
    }
  }

  lemma StopLeavesTask(s: State, c: SessionId, t: TaskId)
    requires Books(s) && t in s.tasks && c in s.sessions
    ensures t in StopSearch(s, c).tasks
    ensures LeftAlone(s.tasks[t], StopSearch(s, c).tasks[t])
  {
    if Live(s, c) && s.active != Some(c) {
      IdleSession(s, c);
    }
  }

  lemma GoLeavesTask(s: State, c: SessionId, text: string, t: TaskId)
    requires Tables(s.tasks, s.sessions, s.nextTask) && t in s.tasks && c in s.sessions
    ensures t in StartSearch(s, c, text).tasks && StartSearch(s, c, text).tasks[t] == s.tasks[t]
  {
    if !Live(s, c) {
      assert StartSearch(s, c, text) == Preempt(WithTask(s, c, text), c);
    }
  }

  lemma RequestLeavesTask(s: State, c: SessionId, r: Request, t: TaskId)
    requires Books(s) && t in s.tasks && c in s.sessions
    ensures t in Handle(s, c, r).tasks
    ensures LeftAlone(s.tasks[t], Handle(s, c, r).tasks[t])
  {
    match r
    case ReqStop => StopLeavesTask(s, c, t);
    case ReqGo(text) => GoLeavesTask(s, c, text, t);
    case _ =>
  }

  /* ---------- following a search through a run ---------- */

  ghost predicate Followed(init: State, actions: seq<Action>, t: TaskId, task: Task, tr: Track) {
    && Tracked(init, actions, t, task, tr)
    && Script(LinesOf(init, actions, t), t, task, Wanted(init, actions, task, tr))
  }

  lemma OneActionMore(actions: seq<Action>, a: Action)
    ensures forall k | 0 <= k <= |actions| :: (actions + [a])[..k] == actions[..k]
    ensures forall k | 0 <= k < |actions| :: (actions + [a])[k] == actions[k]
    ensures (actions + [a])[|actions|] == a
  {
  }

  lemma TrackedLater(init: State, actions: seq<Action>, a: Action, t: TaskId, task: Task, tr: Track)
    requires Tracked(init, actions, t, task, tr)
    ensures Tracked(init, actions + [a], t, task, tr)
    ensures Wanted(init, actions + [a], task, tr) == Wanted(init, actions, task, tr)
  {
    OneActionMore(actions, a);
  }

  lemma LinesNext(init: State, actions: seq<Action>, a: Action, s: State, t: TaskId)
    requires Run(init, actions) == Some(s) && Step(s, a).Some?
    ensures Run(init, actions + [a]) == Step(s, a)
    ensures LinesOf(init, actions + [a], t) ==
            LinesOf(init, actions, t) + if s.lock == Some(t) then Written(s.input, Step(s, a).value.input) else []
  {
    RunAppend(init, actions, a, s);
    assert (actions + [a])[..|actions|] == actions;
  }

  lemma OthersAddNoLine(init: State, actions: seq<Action>, a: Action, s: State, t: TaskId)
    requires Ownership(s.tasks, s.lock, s.active)
    requires Run(init, actions) == Some(s) && Step(s, a).Some? && !(a.AResume? && a.task == t)
    ensures LinesOf(init, actions + [a], t) == LinesOf(init, actions, t)
  {
    LinesNext(init, actions, a, s, t);
    if s.lock == Some(t) {
      OthersWriteStops(s, a, t);
    }
  }

  lemma BeforeItsTurn(init: State, actions: seq<Action>, t: TaskId, task: Task, next: Task, tr: Track)
    requires Tracked(init, actions, t, task, tr) && next == task.(phase := next.phase)
    requires !Turned(task.phase) && !Turned(next.phase)
    ensures Tracked(init, actions, t, next, tr)
    ensures forall lines, newGame :: Script(lines, t, task, newGame) == Script(lines, t, next, newGame) == (lines == [])
  {
  }

  lemma FollowedAsBefore(init: State, actions: seq<Action>, a: Action, t: TaskId, task: Task, next: Task, tr: Track)
    requires Followed(init, actions, t, task, tr) && LinesOf(init, actions + [a], t) == LinesOf(init, actions, t)
    requires next == task.(phase := next.phase)
    requires if Turned(task.phase) then next == task else !Turned(next.phase)
    ensures Followed(init, actions + [a], t, next, tr)
  {
    TrackedLater(init, actions, a, t, task, tr);
    if !Turned(task.phase) {
      BeforeItsTurn(init, actions + [a], t, task, next, tr);
    }
  }

  lemma FollowedByOthers(init: State, actions: seq<Action>, a: Action, s: State, t: TaskId, tr: Track)
    requires Books(s) && Run(init, actions) == Some(s) && Step(s, a).Some? && !(a.AResume? && a.task == t)
    requires t in s.tasks && Followed(init, actions, t, s.tasks[t], tr)
    ensures t in Step(s, a).value.tasks && Followed(init, actions + [a], t, Step(s, a).value.tasks[t], tr)
  {
    OthersLeaveTask(s, a, t);
    OthersAddNoLine(init, actions, a, s, t);
    FollowedAsBefore(init, actions, a, t, s.tasks[t], Step(s, a).value.tasks[t], tr);
  }

  /* ---------- the steps of the search itself ---------- */

  // Task t moves in state s after `actions`, and becomes `next`.
  ghost predicate Moving(init: State, actions: seq<Action>, a: Action, s: State, t: TaskId, next: Task) {
    && Run(init, actions) == Some(s) && HasTask(s, t) && a.AResume? && a.task == t && Step(s, a).Some?
    && t in Step(s, a).value.tasks && Step(s, a).value.tasks[t] == next
  }

  lemma MoveHappens(init: State, actions: seq<Action>, a: Action, s: State, t: TaskId, next: Task)
    requires Moving(init, actions, a, s, t, next)
    ensures Moves(init, actions + [a], |actions|, s, t)
  {
    assert (actions + [a])[..|actions|] == actions;
  }

  lemma LineAdded(init: State, actions: seq<Action>, a: Action, s: State, t: TaskId, c: Command)
    requires Run(init, actions) == Some(s) && Step(s, a).Some? && s.lock == Some(t)
    requires Step(s, a).value.input == s.input + [c] && !c.Stop?
    ensures LinesOf(init, actions + [a], t) == LinesOf(init, actions, t) + [c]
  {
    LinesNext(init, actions, a, s, t);
    OneLineWritten(s.input, c);
  }

  lemma NoLineAdded(init: State, actions: seq<Action>, a: Action, s: State, t: TaskId)
    requires Run(init, actions) == Some(s) && Step(s, a).Some?
    requires s.lock == Some(t) ==> Step(s, a).value.input == s.input
    ensures LinesOf(init, actions + [a], t) == LinesOf(init, actions, t)
  {
    LinesNext(init, actions, a, s, t);
  }

  // A move that passes none of the tracked moments.
  lemma TrackedMoves(init: State, actions: seq<Action>, a: Action, t: TaskId, task: Task, next: Task, tr: Track)
    requires Tracked(init, actions, t, task, tr) && next == task.(phase := next.phase)
    requires Turned(task.phase) && Turned(next.phase)
    requires PastReady(next.phase) == PastReady(task.phase) && Posted(next.phase) == Posted(task.phase)
    ensures Tracked(init, actions + [a], t, next, tr)
    ensures Wanted(init, actions + [a], next, tr) == Wanted(init, actions, task, tr)
  {
    TrackedLater(init, actions, a, t, task, tr);
  }

  lemma OptionAdded(lines: seq<Command>, merged: Values, left: set<string>, name: string)
    requires OptionLines(lines, merged, left) && name in left
    ensures OptionLines(lines + [SetOption(name, merged[name])], merged, left - {name})
  {
    var longer := lines + [SetOption(name, merged[name])];
    assert forall k | 0 <= k < |lines| :: longer[k] == lines[k];
    assert longer[|lines|].name == name;
    forall n | n in merged && n !in left - {name}
      ensures exists k | 0 <= k < |longer| :: longer[k].name == n
    {
      if n != name {
        var k :| 0 <= k < |lines| && lines[k].name == n;
        assert longer[k].name == n;
      }
    }
  }

  lemma LastLine(lines: seq<Command>, c: Command)
    ensures EndsWith(lines + [c], c) && (lines + [c])[..|lines|] == lines
  {
  }

  lemma PositionAdded(lines: seq<Command>, merged: Values, posted: string, newGame: bool)
    requires GameLines(lines, merged, newGame)
    ensures PositionLines(lines + [Position(posted)], merged, posted, newGame)
  {
    LastLine(lines, Position(posted));
  }

  lemma ConfiguringStep(s: State, t: TaskId, name: string)
    requires HasTask(s, t) && s.tasks[t].phase.Configuring? && Resume(s, t, name).Some?
    ensures t in Resume(s, t, name).value.tasks
    ensures var s', task := Resume(s, t, name).value, s.tasks[t];
            if task.phase.left == {}
            then s'.input == s.input + [IsReady] && s'.tasks[t] == task.(phase := AwaitReady)
            else
              && name in task.phase.left && name in task.merged
              && s'.input == s.input + [SetOption(name, task.merged[name])]
              && s'.tasks[t] == task.(phase := Configuring(task.phase.left - {name}))
  {
  }

  lemma OptionSent(init: State, actions: seq<Action>, a: Action, t: TaskId, task: Task, name: string, tr: Track)
    requires Followed(init, actions, t, task, tr) && task.phase.Configuring?
    requires name in task.phase.left && name in task.merged
    requires LinesOf(init, actions + [a], t) == LinesOf(init, actions, t) + [SetOption(name, task.merged[name])]
    ensures Followed(init, actions + [a], t, task.(phase := Configuring(task.phase.left - {name})), tr)
  {
    TrackedMoves(init, actions, a, t, task, task.(phase := Configuring(task.phase.left - {name})), tr);
    OptionAdded(LinesOf(init, actions, t), task.merged, task.phase.left, name);
  }

  lemma ReadyAsked(init: State, actions: seq<Action>, a: Action, t: TaskId, task: Task, tr: Track)
    requires Followed(init, actions, t, task, tr) && task.phase == Configuring({})
    requires LinesOf(init, actions + [a], t) == LinesOf(init, actions, t) + [IsReady]
    ensures Followed(init, actions + [a], t, task.(phase := AwaitReady), tr)
  {
    TrackedMoves(init, actions, a, t, task, task.(phase := AwaitReady), tr);
    LastLine(LinesOf(init, actions, t), IsReady);
  }

  lemma ConfiguringFollowed(init: State, actions: seq<Action>, a: Action, s: State, t: TaskId, next: Task, tr: Track)
    requires Moving(init, actions, a, s, t, next) && s.lock == Some(t) && s.tasks[t].phase.Configuring?
    requires Followed(init, actions, t, s.tasks[t], tr)
    ensures Followed(init, actions + [a], t, next, tr)
  {
    var task := s.tasks[t];
    ConfiguringStep(s, t, a.name);
    if task.phase.left == {} {
      LineAdded(init, actions, a, s, t, IsReady);
      ReadyAsked(init, actions, a, t, task, tr);
    } else {
      LineAdded(init, actions, a, s, t, SetOption(a.name, task.merged[a.name]));
      OptionSent(init, actions, a, t, task, a.name, tr);
    }
  }

  lemma GoStep(s: State, t: TaskId, name: string)
    requires HasTask(s, t) && s.tasks[t].phase.SentPosition? && Resume(s, t, name).Some?
    ensures t in Resume(s, t, name).value.tasks
    ensures Resume(s, t, name).value.input == s.input + [Go(t, s.tasks[t].go)]
    ensures Resume(s, t, name).value.tasks[t] == s.tasks[t].(phase := Reading)
  {
  }

  lemma GoSent(init: State, actions: seq<Action>, a: Action, t: TaskId, task: Task, tr: Track)
    requires Followed(init, actions, t, task, tr) && task.phase.SentPosition?
    requires LinesOf(init, actions + [a], t) == LinesOf(init, actions, t) + [Go(t, task.go)]
    ensures Followed(init, actions + [a], t, task.(phase := Reading), tr)
  {
    TrackedMoves(init, actions, a, t, task, task.(phase := Reading), tr);
    SearchAdded(LinesOf(init, actions, t), Go(t, task.go), task.merged, task.posted, Wanted(init, actions, task, tr));
  }

  lemma SearchAdded(lines: seq<Command>, go: Command, merged: Values, posted: string, newGame: bool)
    requires PositionLines(lines, merged, posted, newGame)
    ensures SearchLines(lines + [go], go, merged, posted, newGame)
  {
    LastLine(lines, go);
  }

  lemma GoFollowed(init: State, actions: seq<Action>, a: Action, s: State, t: TaskId, next: Task, tr: Track)
    requires Moving(init, actions, a, s, t, next) && s.lock == Some(t) && s.tasks[t].phase.SentPosition?
    requires Followed(init, actions, t, s.tasks[t], tr)
    ensures Followed(init, actions + [a], t, next, tr)
  {
    GoStep(s, t, a.name);
    LineAdded(init, actions, a, s, t, Go(t, s.tasks[t].go));
    GoSent(init, actions, a, t, s.tasks[t], tr);
  }

  lemma ReadingStep(s: State, t: TaskId, name: string)
    requires HasTask(s, t) && (s.tasks[t].phase.Reading? || s.tasks[t].phase.Forwarding?) && Resume(s, t, name).Some?
    ensures var s' := Resume(s, t, name).value;
            && s'.input == s.input && t in s'.tasks
            && GoWritten(s'.tasks[t].phase) && s'.tasks[t] == s.tasks[t].(phase := s'.tasks[t].phase)
  {
  }

  lemma SearchReadsOn(init: State, actions: seq<Action>, a: Action, t: TaskId, task: Task, next: Task, tr: Track)
    requires Followed(init, actions, t, task, tr) && LinesOf(init, actions + [a], t) == LinesOf(init, actions, t)
    requires GoWritten(task.phase) && GoWritten(next.phase) && next == task.(phase := next.phase)
    ensures Followed(init, actions + [a], t, next, tr)
  {
    TrackedMoves(init, actions, a, t, task, next, tr);
    ReadsOn(LinesOf(init, actions, t), t, task, next, Wanted(init, actions, task, tr));
  }

  lemma ReadsOn(lines: seq<Command>, t: TaskId, task: Task, next: Task, newGame: bool)
    requires GoWritten(task.phase) && GoWritten(next.phase) && next == task.(phase := next.phase)
    requires Script(lines, t, task, newGame)
    ensures Script(lines, t, next, newGame)
  {
  }

  lemma ReadingFollowed(init: State, actions: seq<Action>, a: Action, s: State, t: TaskId, next: Task, tr: Track)
    requires Moving(init, actions, a, s, t, next) && (s.tasks[t].phase.Reading? || s.tasks[t].phase.Forwarding?)
    requires Followed(init, actions, t, s.tasks[t], tr)
    ensures Followed(init, actions + [a], t, next, tr)
  {
    ReadingStep(s, t, a.name);
    NoLineAdded(init, actions, a, s, t);
    SearchReadsOn(init, actions, a, t, s.tasks[t], next, tr);
  }

  // The turn comes.
  lemma TurnStep(init: State, actions: seq<Action>, a: Action, s: State, t: TaskId, next: Task)
    requires Moving(init, actions, a, s, t, next) && s.tasks[t].phase.Waiting? && next.phase.Configuring?
    ensures s.lock == None && TakesTheLock(init, actions + [a], |actions|, s, t)
    ensures next.session == s.tasks[t].session && next.go == s.tasks[t].go && next.phase.left == next.merged.Keys
    ensures next.base == s.engine.settings.options
    ensures next.merged == s.defaults + SessionOf(s.sessions, next.session).options
  {
    MoveHappens(init, actions, a, s, t, next);
  }

  lemma TurnComes(init: State, actions: seq<Action>, a: Action, s: State, t: TaskId, task: Task, next: Task, tr: Track)
    requires Followed(init, actions, t, task, tr) && LinesOf(init, actions + [a], t) == LinesOf(init, actions, t)
    requires task.phase.Waiting? && next.phase == Configuring(next.merged.Keys)
    requires next.session == task.session && next.go == task.go
    requires TakesTheLock(init, actions + [a], |actions|, s, t) && next.base == s.engine.settings.options
    requires next.merged == init.defaults + OptionsSent(actions, next.session)
    ensures Followed(init, actions + [a], t, next, tr.(turn := |actions|, atTurn := s))
  {
    OneActionMore(actions, a);
  }

  lemma TurnFollowed(init: State, actions: seq<Action>, a: Action, s: State, t: TaskId, next: Task, tr: Track)
    requires Moving(init, actions, a, s, t, next) && s.tasks[t].phase.Waiting? && next.phase.Configuring?
    requires init.sessions == map[] && s.defaults == init.defaults && Followed(init, actions, t, s.tasks[t], tr)
    ensures Followed(init, actions + [a], t, next, tr.(turn := |actions|, atTurn := s))
  {
    TurnStep(init, actions, a, s, t, next);
    SessionIsWhatItsClientSent(init, actions, s, next.session);
    NoLineAdded(init, actions, a, s, t);
    TurnComes(init, actions, a, s, t, s.tasks[t], next, tr);
  }

  // The engine is ready, and a new game is wanted.
  lemma NewGameStep(init: State, actions: seq<Action>, a: Action, s: State, t: TaskId, next: Task)
    requires Moving(init, actions, a, s, t, next) && s.tasks[t].phase.AwaitReady? && next.phase.SentNewGame?
    ensures HearsReady(init, actions + [a], |actions|, s, t) && next == s.tasks[t].(phase := SentNewGame)
    ensures Step(s, a).value.input == s.input + [NewGame] && SessionOf(s.sessions, next.session).newGame
  {
    MoveHappens(init, actions, a, s, t, next);
  }

  lemma NewGameComes(init: State, actions: seq<Action>, a: Action, s: State, t: TaskId, task: Task, next: Task, tr: Track)
    requires Followed(init, actions, t, task, tr)
    requires LinesOf(init, actions + [a], t) == LinesOf(init, actions, t) + [NewGame]
    requires task.phase.AwaitReady? && next == task.(phase := SentNewGame)
    requires HearsReady(init, actions + [a], |actions|, s, t) && NewGameWanted(init, actions, task.session)
    ensures Followed(init, actions + [a], t, next, tr.(ready := |actions|, atReady := s))
  {
    TrackedLater(init, actions, a, t, task, tr);
    OneActionMore(actions, a);
    LastLine(LinesOf(init, actions, t), NewGame);
  }

  lemma NewGameFollowed(init: State, actions: seq<Action>, a: Action, s: State, t: TaskId, next: Task, tr: Track)
    requires Moving(init, actions, a, s, t, next) && s.lock == Some(t) && init.sessions == map[]
    requires s.tasks[t].phase.AwaitReady? && next.phase.SentNewGame? && Followed(init, actions, t, s.tasks[t], tr)
    ensures Followed(init, actions + [a], t, next, tr.(ready := |actions|, atReady := s))
  {
    NewGameStep(init, actions, a, s, t, next);
    SessionIsWhatItsClientSent(init, actions, s, next.session);
    LineAdded(init, actions, a, s, t, NewGame);
    NewGameComes(init, actions, a, s, t, s.tasks[t], next, tr);
  }

  // The position is written: after `ucinewgame`, or at once.
  lemma PositionStep(init: State, actions: seq<Action>, a: Action, s: State, t: TaskId, next: Task)
    requires Moving(init, actions, a, s, t, next) && next.phase.SentPosition?
    requires s.tasks[t].phase.AwaitReady? || s.tasks[t].phase.SentNewGame?
    ensures WritesPosition(init, actions + [a], |actions|, s, t)
    ensures next == s.tasks[t].(phase := SentPosition, posted := next.posted)
    ensures Step(s, a).value.input == s.input + [Position(next.posted)]
    ensures next.posted == SessionOf(s.sessions, next.session).position
    ensures s.tasks[t].phase.AwaitReady? ==>
              HearsReady(init, actions + [a], |actions|, s, t) && !SessionOf(s.sessions, next.session).newGame
  {
    MoveHappens(init, actions, a, s, t, next);
  }

  lemma PositionTracks(init: State, actions: seq<Action>, a: Action, s: State, t: TaskId, task: Task, next: Task, tr: Track)
    requires Tracked(init, actions, t, task, tr)
    requires task.phase.SentNewGame? && next == task.(phase := SentPosition, posted := next.posted)
    requires WritesPosition(init, actions + [a], |actions|, s, t)
    requires next.posted == PositionSent(actions, task.session)
    ensures var tr' := tr.(posted := |actions|, atPosted := s);
            && Tracked(init, actions + [a], t, next, tr')
            && Wanted(init, actions + [a], next, tr') == Wanted(init, actions, task, tr)
  {
    TrackedLater(init, actions, a, t, task, tr);
    OneActionMore(actions, a);
  }

  lemma PositionTracksAtOnce(init: State, actions: seq<Action>, a: Action, s: State, t: TaskId, task: Task, next: Task,
                             tr: Track)
    requires Tracked(init, actions, t, task, tr)
    requires task.phase.AwaitReady? && next == task.(phase := SentPosition, posted := next.posted)
    requires HearsReady(init, actions + [a], |actions|, s, t) && WritesPosition(init, actions + [a], |actions|, s, t)
    requires next.posted == PositionSent(actions, task.session)
    ensures var tr' := tr.(ready := |actions|, atReady := s, posted := |actions|, atPosted := s);
            && Tracked(init, actions + [a], t, next, tr')
            && Wanted(init, actions + [a], next, tr') == NewGameWanted(init, actions, task.session)
  {
    TrackedLater(init, actions, a, t, task, tr);
    OneActionMore(actions, a);
  }

  lemma PositionFollowed(init: State, actions: seq<Action>, a: Action, s: State, t: TaskId, next: Task, tr: Track)
    returns (tr': Track)
    requires Moving(init, actions, a, s, t, next) && s.lock == Some(t) && init.sessions == map[]
    requires s.tasks[t].phase.AwaitReady? || s.tasks[t].phase.SentNewGame?
    requires next.phase.SentPosition? && Followed(init, actions, t, s.tasks[t], tr)
    ensures Followed(init, actions + [a], t, next, tr')
  {
    PositionStep(init, actions, a, s, t, next);
    SessionIsWhatItsClientSent(init, actions, s, next.session);
    LineAdded(init, actions, a, s, t, Position(next.posted));
    if s.tasks[t].phase.SentNewGame? {
      tr' := tr.(posted := |actions|, atPosted := s);
      PositionTracks(init, actions, a, s, t, s.tasks[t], next, tr);
      PositionAdded(LinesOf(init, actions, t), next.merged, next.posted, true);
    } else {
      tr' := tr.(ready := |actions|, atReady := s, posted := |actions|, atPosted := s);
      PositionTracksAtOnce(init, actions, a, s, t, s.tasks[t], next, tr);
      PositionAdded(LinesOf(init, actions, t), next.merged, next.posted, false);
    }
  }

  // A new task comes from its client's `go`.
  lemma AskedNow(s: State, a: Action, t: TaskId)
    requires Step(s, a).Some? && t !in s.tasks && t in Step(s, a).value.tasks
    ensures var task := Step(s, a).value.tasks[t];
            a == ARequest(task.session, ReqGo(task.go)) && task.phase.Waiting?
  {
    match a
    case AResume(u, name) => ResumeShape(s, u, name);
    case ARequest(c, r) => AskedInRequest(s, c, r, t);
    case ADisconnect(c) => StopAddsNoTask(s.(sessions := s.sessions[c := s.sessions[c].(closed := true)]), c);
    case _ =>
  }

  lemma StopAddsNoTask(s: State, c: SessionId)
    requires c in s.sessions
    ensures StopSearch(s, c).tasks.Keys == s.tasks.Keys
  {
  }

  lemma AskedInRequest(s: State, c: SessionId, r: Request, t: TaskId)
    requires c in s.sessions && t !in s.tasks && t in Handle(s, c, r).tasks
    ensures var task := Handle(s, c, r).tasks[t]; task.session == c && r == ReqGo(task.go) && task.phase.Waiting?
  {
    match r
    case ReqGo(text) => assert Handle(s, c, r) == Preempt(WithTask(s, c, text), c);
    case ReqStop => StopAddsNoTask(s, c);
    case _ =>
  }

  lemma {:induction false} NoLinesYet(init: State, actions: seq<Action>, s: State, t: TaskId)
    requires Inv(init) && Run(init, actions) == Some(s) && t !in s.tasks
    ensures LinesOf(init, actions, t) == []
    decreases |actions|
  {
    if actions != [] {
      var earlier, a := actions[..|actions| - 1], actions[|actions| - 1];
      var before := Run(init, earlier).value;
      RunKeeps(init, earlier);
      if t in before.tasks {
        StillThere(before, a, t);
      }
      NoLinesYet(init, earlier, before, t);
    }
  }

  lemma StillThere(s: State, a: Action, t: TaskId)
    requires Books(s) && t in s.tasks && Step(s, a).Some?
    ensures t in Step(s, a).value.tasks
  {
    if a.AResume? {
      ResumeShape(s, a.task, a.name);
    } else {
      OthersLeaveTask(s, a, t);
    }
  }

  lemma NewlyFollowed(init: State, actions: seq<Action>, a: Action, s: State, t: TaskId, tr: Track)
    requires Inv(init) && Run(init, actions) == Some(s) && Step(s, a).Some?
    requires t !in s.tasks && t in Step(s, a).value.tasks
    ensures Followed(init, actions + [a], t, Step(s, a).value.tasks[t], tr.(asked := |actions|))
  {
    AskedNow(s, a, t);
    NoLinesYet(init, actions, s, t);
    RunKeeps(init, actions);
    LinesNext(init, actions, a, s, t);
  }

  lemma UnchangedFollowed(init: State, actions: seq<Action>, a: Action, s: State, t: TaskId, next: Task, tr: Track)
    requires Run(init, actions) == Some(s) && Step(s, a).Some? && t in s.tasks
    requires s.lock == Some(t) ==> Step(s, a).value.input == s.input
    requires next == s.tasks[t].(phase := next.phase)
    requires if Turned(s.tasks[t].phase) then next == s.tasks[t] else !Turned(next.phase)
    requires Followed(init, actions, t, s.tasks[t], tr)
    ensures Followed(init, actions + [a], t, next, tr)
  {
    NoLineAdded(init, actions, a, s, t);
    FollowedAsBefore(init, actions, a, t, s.tasks[t], next, tr);
  }

  // A task that leaves its wait without its turn: its client has left, or it was
  // cancelled.
  lemma WaitEnds(s: State, t: TaskId, name: string)
    requires HasTask(s, t) && Resume(s, t, name).Some?
    requires s.tasks[t].phase.Waiting? || s.tasks[t].phase.Cancelling?
    ensures t in Resume(s, t, name).value.tasks && Resume(s, t, name).value.input == s.input
    ensures var task, next := s.tasks[t], Resume(s, t, name).value.tasks[t];
            || (task.phase.Waiting? && next.phase.Configuring?)
            || (next == task.(phase := next.phase) && !Turned(next.phase))
  {
  }

  lemma WaitingFollowed(init: State, actions: seq<Action>, a: Action, s: State, t: TaskId, next: Task, tr: Track)
    returns (tr': Track)
    requires Moving(init, actions, a, s, t, next) && (s.tasks[t].phase.Waiting? || s.tasks[t].phase.Cancelling?)
    requires init.sessions == map[] && s.defaults == init.defaults && Followed(init, actions, t, s.tasks[t], tr)
    ensures Followed(init, actions + [a], t, next, tr')
  {
    WaitEnds(s, t, a.name);
    if s.tasks[t].phase.Waiting? && next.phase.Configuring? {
      tr' := tr.(turn := |actions|, atTurn := s);
      TurnFollowed(init, actions, a, s, t, next, tr);
    } else {
      tr' := tr;
      UnchangedFollowed(init, actions, a, s, t, next, tr);
    }
  }

  lemma AwaitEnds(s: State, t: TaskId, name: string)
    requires HasTask(s, t) && s.tasks[t].phase.AwaitReady? && Resume(s, t, name).Some?
    ensures t in Resume(s, t, name).value.tasks
    ensures var s' := Resume(s, t, name).value;
            var next := s'.tasks[t];
            next.phase.SentNewGame? || next.phase.SentPosition? || (next == s.tasks[t] && s'.input == s.input)
  {
    ReadReadyShape(s, t);
  }

  lemma AwaitingFollowed(init: State, actions: seq<Action>, a: Action, s: State, t: TaskId, next: Task, tr: Track)
    returns (tr': Track)
    requires Moving(init, actions, a, s, t, next) && s.lock == Some(t) && s.tasks[t].phase.AwaitReady?
    requires init.sessions == map[] && Followed(init, actions, t, s.tasks[t], tr)
    ensures Followed(init, actions + [a], t, next, tr')
  {
    AwaitEnds(s, t, a.name);
    if next.phase.SentNewGame? {
      tr' := tr.(ready := |actions|, atReady := s);
      NewGameFollowed(init, actions, a, s, t, next, tr);
    } else if next.phase.SentPosition? {
      tr' := PositionFollowed(init, actions, a, s, t, next, tr);
    } else {
      tr' := tr;
      UnchangedFollowed(init, actions, a, s, t, next, tr);
    }
  }

  lemma AfterNewGameMoves(s: State, t: TaskId, name: string)
    requires HasTask(s, t) && s.tasks[t].phase.SentNewGame? && Resume(s, t, name).Some?
    ensures t in Resume(s, t, name).value.tasks && Resume(s, t, name).value.tasks[t].phase.SentPosition?
  {
  }

  lemma OwnStepFollowed(init: State, actions: seq<Action>, a: Action, s: State, t: TaskId, next: Task, tr: Track)
    returns (tr': Track)
    requires Inv(s) && Moving(init, actions, a, s, t, next) && init.sessions == map[] && s.defaults == init.defaults
    requires Followed(init, actions, t, s.tasks[t], tr)
    ensures Followed(init, actions + [a], t, next, tr')
  {
    if Holding(s.tasks[t].phase) {
      Holds(s, t);
      tr' := HolderFollowed(init, actions, a, s, t, next, tr);
    } else {
      tr' := WaitingFollowed(init, actions, a, s, t, next, tr);
    }
  }

  lemma HolderFollowed(init: State, actions: seq<Action>, a: Action, s: State, t: TaskId, next: Task, tr: Track)
    returns (tr': Track)
    requires Moving(init, actions, a, s, t, next) && s.lock == Some(t) && Holding(s.tasks[t].phase)
    requires init.sessions == map[] && Followed(init, actions, t, s.tasks[t], tr)
    ensures Followed(init, actions + [a], t, next, tr')
  {
    tr' := tr;
    match s.tasks[t].phase
    case Configuring(_) => ConfiguringFollowed(init, actions, a, s, t, next, tr);
    case AwaitReady => tr' := AwaitingFollowed(init, actions, a, s, t, next, tr);
    case SentNewGame =>
      AfterNewGameMoves(s, t, a.name);
      tr' := PositionFollowed(init, actions, a, s, t, next, tr);
    case SentPosition => GoFollowed(init, actions, a, s, t, next, tr);
    case Reading => ReadingFollowed(init, actions, a, s, t, next, tr);
    case Forwarding(_) => ReadingFollowed(init, actions, a, s, t, next, tr);
  }

  lemma DefaultsStay(s: State, a: Action)
    requires Step(s, a).Some?
    ensures Step(s, a).value.defaults == s.defaults
  {
    match a
    case AResume(t, name) => ResumeKeepsDefaults(s, t, name);
    case ARequest(c, r) => RequestKeepsDefaults(s, c, r);
    case ADisconnect(c) => assert Step(s, a) == Some(Disconnect(s, c));
    case _ =>
  }

  lemma ResumeKeepsDefaults(s: State, t: TaskId, name: string)
    requires HasTask(s, t) && Resume(s, t, name).Some?
    ensures Resume(s, t, name).value.defaults == s.defaults
  {
    if s.tasks[t].phase.AwaitReady? {
      assert Resume(s, t, name) == Some(ReadReady(s, t));
    }
  }

  lemma RequestKeepsDefaults(s: State, c: SessionId, r: Request)
    requires c in s.sessions
    ensures Handle(s, c, r).defaults == s.defaults
  {
  }

  // Every search can be followed through every run.
  lemma {:induction false} Follow(init: State, actions: seq<Action>, s: State, t: TaskId) returns (tr: Track)
    requires Inv(init) && init.sessions == map[] && init.tasks == map[]
    requires Run(init, actions) == Some(s) && t in s.tasks
    ensures Followed(init, actions, t, s.tasks[t], tr) && s.defaults == init.defaults
    decreases |actions|
  {
    var earlier, a := actions[..|actions| - 1], actions[|actions| - 1];
    var before := Run(init, earlier).value;
    assert earlier + [a] == actions;
    RunKeeps(init, earlier);
    DefaultsHold(init, earlier, before);
    DefaultsStay(before, a);
    if t !in before.tasks {
      tr := Track(0, 0, before, 0, before, 0, before);
      NewlyFollowed(init, earlier, a, before, t, tr);
      tr := tr.(asked := |earlier|);
    } else {
      tr := Follow(init, earlier, before, t);
      if a.AResume? && a.task == t {
        tr := OwnStepFollowed(init, earlier, a, before, t, s.tasks[t], tr);
      } else {
        FollowedByOthers(init, earlier, a, before, t, tr);
      }
    }
  }

  lemma {:induction false} DefaultsHold(init: State, actions: seq<Action>, s: State)
    requires Run(init, actions) == Some(s)
    ensures s.defaults == init.defaults
    decreases |actions|
  {
    if actions != [] {
      var before := Run(init, actions[..|actions| - 1]).value;
      DefaultsHold(init, actions[..|actions| - 1], before);
      DefaultsStay(before, actions[|actions| - 1]);
    }
  }

  /* ---------- what it means ---------- */

  lemma FollowedMeans(init: State, actions: seq<Action>, t: TaskId, task: Task, tr: Track)
    requires Followed(init, actions, t, task, tr) && GoWritten(task.phase)
    ensures tr.asked < |actions| && actions[tr.asked] == ARequest(task.session, ReqGo(task.go))
    ensures TurnTracked(init, actions, t, task, tr) && ReadyTracked(init, actions, t, tr)
    ensures PositionTracked(init, actions, t, task, tr)
    ensures tr.asked < tr.turn < tr.ready <= tr.posted < |actions|
    ensures SearchLines(LinesOf(init, actions, t), Go(t, task.go), task.merged, task.posted,
                        NewGameWanted(init, actions[..tr.ready], task.session))
  {
  }

  // In every run a search starts at the last position its client had sent when the
  // position line was written, and under the defaults overridden by the options its
  // client had set when its turn came, with every other option as the engine had it
  // then; the client had asked for just this search before.
  lemma SearchRunsOnWhatItsClientSent(defaults: Values, endless: set<string>, settings: Settings,
                                      actions: seq<Action>, s: State, t: TaskId) returns (tr: Track)
    requires Run(Init(defaults, endless, settings), actions) == Some(s) && t in s.started
    ensures t in s.tasks
    ensures var init, c := Init(defaults, endless, settings), s.tasks[t].session;
            && tr.asked < tr.turn < tr.posted < |actions|
            && actions[tr.asked] == ARequest(c, ReqGo(s.tasks[t].go))
            && TakesTheLock(init, actions, tr.turn, tr.atTurn, t)
            && WritesPosition(init, actions, tr.posted, tr.atPosted, t)
            && s.started[t].position == PositionSent(actions[..tr.posted], c)
            && s.started[t].options
               == tr.atTurn.engine.settings.options + (defaults + OptionsSent(actions[..tr.turn], c))
  {
    var init := Init(defaults, endless, settings);
    StartedHasItsGo(init, actions, s, t);
    tr := Follow(init, actions, s, t);
    FollowedMeans(init, actions, t, s.tasks[t], tr);
  }

  lemma StartedHasItsGo(init: State, actions: seq<Action>, s: State, t: TaskId)
    requires Inv(init) && Run(init, actions) == Some(s) && t in s.started
    ensures t in s.tasks && GoWritten(s.tasks[t].phase)
    ensures s.started[t] == Settings(s.tasks[t].base + s.tasks[t].merged, s.tasks[t].posted)
  {
    RunKeeps(init, actions);
    assert Started(s.tasks, s.started);
  }

  // What is written to the engine for a search, stops aside, is exactly: each option
  // of that dictionary once, `isready`, `ucinewgame` if the client wanted a new game
  // when the engine had become ready, the position and the client's `go`.
  lemma SearchWritesItsLines(defaults: Values, endless: set<string>, settings: Settings,
                             actions: seq<Action>, s: State, t: TaskId) returns (tr: Track)
    requires Run(Init(defaults, endless, settings), actions) == Some(s) && t in s.tasks && GoWritten(s.tasks[t].phase)
    ensures var init, c := Init(defaults, endless, settings), s.tasks[t].session;
            && tr.asked < tr.turn < tr.ready <= tr.posted < |actions|
            && actions[tr.asked] == ARequest(c, ReqGo(s.tasks[t].go))
            && TakesTheLock(init, actions, tr.turn, tr.atTurn, t)
            && HearsReady(init, actions, tr.ready, tr.atReady, t)
            && WritesPosition(init, actions, tr.posted, tr.atPosted, t)
            && SearchLines(LinesOf(init, actions, t), Go(t, s.tasks[t].go),
                           defaults + OptionsSent(actions[..tr.turn], c), PositionSent(actions[..tr.posted], c),
                           NewGameWanted(init, actions[..tr.ready], c))
  {
    tr := Follow(Init(defaults, endless, settings), actions, s, t);
    FollowedMeans(Init(defaults, endless, settings), actions, t, s.tasks[t], tr);
  }

  // An engine line of a search is sent to its client unless the client has left by
  // then; it is handed on nowhere else.
  lemma {:induction false} SentUnlessItsClientHasLeft(init: State, actions: seq<Action>, s: State, k: nat)
    returns (j: nat, at: State)
    requires init.sessions == map[] && init.log == [] && Run(init, actions) == Some(s) && k < |s.log|
    ensures Moves(init, actions, j, at, s.log[k].task) && at.output != [] && s.log[k].line == at.output[0]
    ensures s.log[k].sent <==> !HasLeft(actions[..j], s.log[k].session)
    decreases |actions|
  {
    var earlier, a := actions[..|actions| - 1], actions[|actions| - 1];
    var before := Run(init, earlier).value;
    assert earlier + [a] == actions;
    LogGrows(before, a);
    if k < |before.log| {
      j, at := SentUnlessItsClientHasLeft(init, earlier, before, k);
      OneActionMore(earlier, a);
    } else {
      j, at := |earlier|, before;
      SessionIsWhatItsClientSent(init, earlier, before, s.log[k].session);
    }
  }

  lemma LogGrows(s: State, a: Action)
    requires Step(s, a).Some?
    ensures var s' := Step(s, a).value;
            || s'.log == s.log
            || (&& a.AResume? && s.output != [] && HasTask(s, a.task)
                && var c := s.tasks[a.task].session;
                   s'.log == s.log + [Delivery(a.task, c, s.output[0], !s.sessions[c].closed)])
  {
    if a.AResume? {
      ResumeLogs(s, a.task, a.name);
    } else if a.ARequest? {
      RequestLogsNothing(s, a.session, a.request);
    }
  }

  lemma RequestLogsNothing(s: State, c: SessionId, r: Request)
    requires c in s.sessions
    ensures Handle(s, c, r).log == s.log
  {
  }

  lemma ResumeLogs(s: State, t: TaskId, name: string)
    requires HasTask(s, t) && Resume(s, t, name).Some?
    ensures var s', c := Resume(s, t, name).value, s.tasks[t].session;
            if s.tasks[t].phase.Reading?
            then s.output != [] && s'.log == s.log + [Delivery(t, c, s.output[0], !s.sessions[c].closed)]
            else s'.log == s.log
  {
    if s.tasks[t].phase.AwaitReady? {
      assert Resume(s, t, name) == Some(ReadReady(s, t));
    }
  }

  // A `ucinewgame` that a client sends while its search is writing one counts as done
  // with it: the next search does not send another.
  lemma NewGameAskedMeanwhileIsForgotten(s: State, t: TaskId)
    requires HasTask(s, t) && s.tasks[t].phase.SentNewGame? && !s.sessions[s.tasks[t].session].closed
    ensures Step(s, ARequest(s.tasks[t].session, ReqNewGame)).Some?
    ensures var s1 := Step(s, ARequest(s.tasks[t].session, ReqNewGame)).value;
            && s1.sessions[s.tasks[t].session].newGame
            && Step(s1, AResume(t, "")).Some?
            && !Step(s1, AResume(t, "")).value.sessions[s.tasks[t].session].newGame
  {
    var c := s.tasks[t].session;
    var s1 := s.(sessions := s.sessions[c := s.sessions[c].(newGame := true)]);
    assert Step(s, ARequest(c, ReqNewGame)) == Some(s1);
    assert Step(s1, AResume(t, "")) == Some(AfterNewGame(s1, t));
  }

  /* ---------- which `go` is taken up ---------- */

  predicate AllDone(tasks: Tasks, c: SessionId) {
    forall t | t in tasks && tasks[t].session == c :: tasks[t].phase.Done?
  }

  lemma LiveMeansNotDone(s: State, c: SessionId)
    requires Tables(s.tasks, s.sessions, s.nextTask) && c in s.sessions
    ensures Live(s, c) <==> !AllDone(s.tasks, c)
  {
  }

  // In every run the `go` of a connected client is taken up, as a new search that waits
  // for its turn, exactly if all its earlier searches are done; otherwise no search
  // changes.
  lemma GoIsTakenUpExactly(s: State, c: SessionId, text: string)
    requires Reachable(s) && c in s.sessions && !s.sessions[c].closed
    ensures Step(s, ARequest(c, ReqGo(text))).Some? && s.nextTask !in s.tasks
    ensures Step(s, ARequest(c, ReqGo(text))).value.tasks ==
            if AllDone(s.tasks, c) then s.tasks[s.nextTask := Task(c, text, Waiting, map[], map[], "")] else s.tasks
  {
    ReachableKeeps(s);
    LiveMeansNotDone(s, c);
    assert Step(s, ARequest(c, ReqGo(text))) == Some(StartSearch(s, c, text));
  }

  /* ---------- a stop before the turn ---------- */

  predicate CalledOff(phase: Phase) {
    phase.Cancelling? || phase == Done(Cancelled)
  }

  lemma CalledOffStays(s: State, a: Action, t: TaskId)
    requires Books(s) && t in s.tasks && CalledOff(s.tasks[t].phase) && Step(s, a).Some?
    ensures t in Step(s, a).value.tasks && CalledOff(Step(s, a).value.tasks[t].phase)
  {
    if a.AResume? && a.task == t {
      CalledOffEnds(s, t, a.name);
    } else {
      OthersLeaveTask(s, a, t);
    }
  }

  lemma CalledOffEnds(s: State, t: TaskId, name: string)
    requires HasTask(s, t) && CalledOff(s.tasks[t].phase) && Resume(s, t, name).Some?
    ensures Resume(s, t, name) == Some(AfterCancel(s, t))
    ensures t in AfterCancel(s, t).tasks && AfterCancel(s, t).tasks[t].phase == Done(Cancelled)
  {
  }

  lemma StopCallsOff(s: State, a: Action, t: TaskId)
    requires Books(s) && t in s.tasks && s.tasks[t].phase.Waiting?
    requires a == ARequest(s.tasks[t].session, ReqStop) || a == ADisconnect(s.tasks[t].session)
    requires Step(s, a).Some? && !s.sessions[s.tasks[t].session].closed
    ensures t in Step(s, a).value.tasks && Step(s, a).value.tasks[t].phase.Cancelling?
    ensures Step(s, a).value.input == s.input
  {
    var c := s.tasks[t].session;
    assert s.sessions[c].task == Some(t) && s.active != Some(c);
    if a.ADisconnect? {
      assert Step(s, a) == Some(Disconnect(s, c));
    } else {
      assert Step(s, a) == Some(StopSearch(s, c));
    }
  }

  lemma {:induction false} CalledOffForTheRun(s: State, t: TaskId, actions: seq<Action>, s': State)
    requires Inv(s) && t in s.tasks && CalledOff(s.tasks[t].phase) && Run(s, actions) == Some(s')
    ensures Inv(s') && t in s'.tasks && CalledOff(s'.tasks[t].phase) && LinesOf(s, actions, t) == []
    decreases |actions|
  {
    if actions != [] {
      var earlier, b := actions[..|actions| - 1], actions[|actions| - 1];
      var before := Run(s, earlier).value;
      CalledOffForTheRun(s, t, earlier, before);
      CalledOffIsIdle(before, t);
      StepKeeps(before, b);
      CalledOffStays(before, b, t);
    }
  }

  // A search that is stopped, or whose client leaves, before its turn is called off:
  // in every run that follows it never has the lock, nothing is written for it, it
  // never starts, and it can end at once.
  lemma StoppedBeforeItsTurn(s: State, a: Action, t: TaskId, actions: seq<Action>, s': State)
    requires Reachable(s) && t in s.tasks && s.tasks[t].phase.Waiting?
    requires a == ARequest(s.tasks[t].session, ReqStop) || a == ADisconnect(s.tasks[t].session)
    requires Step(s, a).Some? && !s.sessions[s.tasks[t].session].closed
    requires Run(Step(s, a).value, actions) == Some(s')
    ensures s'.lock != Some(t) && t !in s'.started && LinesOf(Step(s, a).value, actions, t) == []
    ensures t in s'.tasks && CalledOff(s'.tasks[t].phase)
    ensures s'.tasks[t].phase.Cancelling? ==> Step(s', AResume(t, "")).Some?
  {
    ReachableKeeps(s);
    StepKeeps(s, a);
    StopCallsOff(s, a, t);
    CalledOffForTheRun(Step(s, a).value, t, actions, s');
    CalledOffIsIdle(s', t);
  }

  lemma CalledOffIsIdle(s: State, t: TaskId)
    requires Inv(s) && t in s.tasks && CalledOff(s.tasks[t].phase)
    ensures s.lock != Some(t) && t !in s.started && HasTask(s, t)
    ensures s.tasks[t].phase.Cancelling? ==> Step(s, AResume(t, "")).Some?
  {
  }
}
