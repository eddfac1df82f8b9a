/**
 What a client has sent, read off the actions of a run alone: its position, options
 and priority, whether it wants a new game and whether it has left; and that the
 broker's record of a session is just that.
 */
module BrokerHistory {
  import opened Options
  import opened UciBroker

  /* ---------- what a client has sent ---------- */

  // A session begins with AConnect, before which no command of it is accepted.
  function PositionSent(actions: seq<Action>, c: SessionId): string
    decreases |actions|
  {
    if actions == [] then "position startpos"
    else
      var before, last := actions[..|actions| - 1], actions[|actions| - 1];
      if last.ARequest? && last.session == c && last.request.ReqPosition? then last.request.text
      else PositionSent(before, c)
  }

  // The options it has set, the later over the earlier.
  function OptionsSent(actions: seq<Action>, c: SessionId): Values
    decreases |actions|
  {
    if actions == [] then map[]
    else
      var before, last := actions[..|actions| - 1], actions[|actions| - 1];
      if && last.ARequest? && last.session == c && last.request.ReqSetOption?
         && last.request.name != "" && last.request.name != "BrokerPriority"
      then OptionsSent(before, c)[last.request.name := last.request.value]
      else OptionsSent(before, c)
  }

  function PrioritySent(actions: seq<Action>, c: SessionId): Priority
    decreases |actions|
  {
    if actions == [] then Interactive
    else
      var before, last := actions[..|actions| - 1], actions[|actions| - 1];
      if && last.ARequest? && last.session == c && last.request.ReqSetOption?
         && last.request.name == "BrokerPriority"
      then if last.request.value == "background" then Background else Interactive
      else PrioritySent(before, c)
  }

  predicate HasLeft(actions: seq<Action>, c: SessionId) {
    exists k | 0 <= k < |actions| :: actions[k] == ADisconnect(c)
  }

  // A client wants a new game from the beginning and whenever it says so, until one
  // of its searches has sent `ucinewgame`.
  ghost predicate NewGameWanted(init: State, actions: seq<Action>, c: SessionId)
    decreases |actions|
  {
    actions == [] ||
    var before, last := actions[..|actions| - 1], actions[|actions| - 1];
    || last == ARequest(c, ReqNewGame)
    || (!SendsNewGame(Run(init, before), last, c) && NewGameWanted(init, before, c))
  }

  predicate SendsNewGame(at: Option<State>, a: Action, c: SessionId) {
    && at.Some? && a.AResume? && a.task in at.value.tasks
    && at.value.tasks[a.task].session == c && at.value.tasks[a.task].phase.SentNewGame?
  }

  /* ---------- the broker's record of a session is just that ---------- */

  function NewSession(): Session {
    Session(map[], "position startpos", Interactive, true, None, false)
  }

  function SessionOf(sessions: map<SessionId, Session>, c: SessionId): Session {
    if c in sessions then sessions[c] else NewSession()
  }

  ghost predicate Recorded(init: State, actions: seq<Action>, q: Session, c: SessionId) {
    && q.position == PositionSent(actions, c)
    && q.options == OptionsSent(actions, c)
    && q.priority == PrioritySent(actions, c)
    && (q.closed <==> HasLeft(actions, c))
    && (q.newGame <==> NewGameWanted(init, actions, c))
  }

  // The same but for its task.
  predicate SameRecord(q: Session, r: Session) {
    q.(task := None) == r.(task := None)
  }

  function Learned(q: Session, r: Request): Session {
    match r
    case ReqSetOption(name, value) => SetSessionOption(q, name, value)
    case ReqNewGame => q.(newGame := true)
    case ReqPosition(text) => q.(position := text)
    case _ => q
  }

  // What a step makes of a session's record.
  function Taught(q: Session, s: State, a: Action, c: SessionId): Session {
    match a
    case ARequest(d, r) => if d == c then Learned(q, r) else q
    case ADisconnect(d) => if d == c then q.(closed := true) else q
    case AResume(_, _) => if SendsNewGame(Some(s), a, c) then q.(newGame := false) else q
    case _ => q
  }

  lemma RequestTeaches(s: State, d: SessionId, r: Request, c: SessionId)
    requires d in s.sessions
    ensures SameRecord(SessionOf(Handle(s, d, r).sessions, c), Taught(SessionOf(s.sessions, c), s, ARequest(d, r), c))
  {
    match r
    case ReqGo(text) => assert Handle(s, d, r) == StartSearch(s, d, text);
    case ReqStop => StopTeachesNothing(s, d);
    case _ =>
  }

  lemma DisconnectTeaches(s: State, d: SessionId, c: SessionId)
    requires d in s.sessions
    ensures SameRecord(SessionOf(Disconnect(s, d).sessions, c), Taught(SessionOf(s.sessions, c), s, ADisconnect(d), c))
  {
    if !s.sessions[d].closed {
      StopTeachesNothing(s.(sessions := s.sessions[d := s.sessions[d].(closed := true)]), d);
    }
  }

  lemma StopTeachesNothing(s: State, d: SessionId)
    requires d in s.sessions
    ensures StopSearch(s, d).sessions == s.sessions
  {
  }

  lemma ResumeTeaches(s: State, u: TaskId, name: string, c: SessionId)
    requires HasTask(s, u) && Resume(s, u, name).Some?
    ensures SameRecord(SessionOf(Resume(s, u, name).value.sessions, c),
                       Taught(SessionOf(s.sessions, c), s, AResume(u, name), c))
  {
    match s.tasks[u].phase
    case AwaitReady => assert Resume(s, u, name) == Some(ReadReady(s, u));
    case SentNewGame => assert Resume(s, u, name) == Some(AfterNewGame(s, u));
    case _ => PlainResumeTeaches(s, u, name);
  }

  lemma PlainResumeTeaches(s: State, u: TaskId, name: string)
    requires HasTask(s, u) && Resume(s, u, name).Some?
    requires !s.tasks[u].phase.AwaitReady? && !s.tasks[u].phase.SentNewGame?
    ensures Resume(s, u, name).value.sessions == s.sessions
  {
  }

  lemma StepTeaches(s: State, a: Action, c: SessionId)
    requires Step(s, a).Some?
    ensures SameRecord(SessionOf(Step(s, a).value.sessions, c), Taught(SessionOf(s.sessions, c), s, a, c))
  {
    match a
    case AConnect(d) => assert Step(s, a) == Some(Connect(s, d));
    case ARequest(d, r) => RequestTeaches(s, d, r, c);
    case ADisconnect(d) => DisconnectTeaches(s, d, c);
    case AResume(u, name) => ResumeTeaches(s, u, name, c);
    case _ => EngineTeaches(s, a);
  }

  lemma EngineTeaches(s: State, a: Action)
    requires (a.AConsume? || a.AInfo? || a.AChatter? || a.ABest?) && Step(s, a).Some?
    ensures Step(s, a).value.sessions == s.sessions
  {
  }

  lemma LeftOneMore(actions: seq<Action>, a: Action, c: SessionId)
    ensures HasLeft(actions + [a], c) <==> HasLeft(actions, c) || a == ADisconnect(c)
  {
    var longer := actions + [a];
    if HasLeft(actions, c) {
      var k :| 0 <= k < |actions| && actions[k] == ADisconnect(c);
      assert longer[k] == ADisconnect(c);
    }
    assert longer[|actions|] == a;
  }

  lemma SentNext(actions: seq<Action>, a: Action, c: SessionId)
    requires !(a.ARequest? && a.session == c)
    ensures PositionSent(actions + [a], c) == PositionSent(actions, c)
    ensures OptionsSent(actions + [a], c) == OptionsSent(actions, c)
    ensures PrioritySent(actions + [a], c) == PrioritySent(actions, c)
  {
    assert (actions + [a])[..|actions|] == actions;
  }

  lemma PositionInRequest(actions: seq<Action>, q: Session, c: SessionId, r: Request)
    requires q.position == PositionSent(actions, c)
    ensures Learned(q, r).position == PositionSent(actions + [ARequest(c, r)], c)
  {
    assert (actions + [ARequest(c, r)])[..|actions|] == actions;
  }

  lemma OptionsInRequest(actions: seq<Action>, q: Session, c: SessionId, r: Request)
    requires q.options == OptionsSent(actions, c)
    ensures Learned(q, r).options == OptionsSent(actions + [ARequest(c, r)], c)
  {
    assert (actions + [ARequest(c, r)])[..|actions|] == actions;
  }

  lemma PriorityInRequest(actions: seq<Action>, q: Session, c: SessionId, r: Request)
    requires q.priority == PrioritySent(actions, c)
    ensures Learned(q, r).priority == PrioritySent(actions + [ARequest(c, r)], c)
  {
    assert (actions + [ARequest(c, r)])[..|actions|] == actions;
  }

  lemma WantedNext(init: State, actions: seq<Action>, a: Action, s: State, c: SessionId)
    requires Run(init, actions) == Some(s)
    ensures NewGameWanted(init, actions + [a], c) <==>
            a == ARequest(c, ReqNewGame) || (!SendsNewGame(Some(s), a, c) && NewGameWanted(init, actions, c))
  {
    assert (actions + [a])[..|actions|] == actions;
  }

  lemma RequestRecorded(init: State, actions: seq<Action>, q: Session, s: State, c: SessionId, r: Request)
    requires Recorded(init, actions, q, c) && Run(init, actions) == Some(s)
    ensures Recorded(init, actions + [ARequest(c, r)], Learned(q, r), c)
  {
    LeftOneMore(actions, ARequest(c, r), c);
    WantedNext(init, actions, ARequest(c, r), s, c);
    PositionInRequest(actions, q, c, r);
    OptionsInRequest(actions, q, c, r);
    PriorityInRequest(actions, q, c, r);
  }

  lemma OtherRecorded(init: State, actions: seq<Action>, a: Action, q: Session, s: State, c: SessionId)
    requires Recorded(init, actions, q, c) && Run(init, actions) == Some(s) && !(a.ARequest? && a.session == c)
    ensures Recorded(init, actions + [a], Taught(q, s, a, c), c)
  {
    LeftOneMore(actions, a, c);
    WantedNext(init, actions, a, s, c);
    SentNext(actions, a, c);
  }

  // What is said in `actions` and then `a` is what is said in `actions`, and `a`.
  lemma RecordedNext(init: State, actions: seq<Action>, a: Action, q: Session, s: State, c: SessionId)
    requires Recorded(init, actions, q, c) && Run(init, actions) == Some(s)
    ensures Recorded(init, actions + [a], Taught(q, s, a, c), c)
  {
    if a.ARequest? && a.session == c {
      RequestRecorded(init, actions, q, s, c, a.request);
    } else {
      OtherRecorded(init, actions, a, q, s, c);
    }
  }

  // In every run the broker holds of each session what its client sent.
  lemma {:induction false} SessionIsWhatItsClientSent(init: State, actions: seq<Action>, s: State, c: SessionId)
    requires init.sessions == map[] && Run(init, actions) == Some(s)
    ensures Recorded(init, actions, SessionOf(s.sessions, c), c)
    decreases |actions|
  {
    if actions != [] {
      var earlier, a := actions[..|actions| - 1], actions[|actions| - 1];
      var before := Run(init, earlier).value;
      SessionIsWhatItsClientSent(init, earlier, before, c);
      StepTeaches(before, a, c);
      RecordedNext(init, earlier, a, SessionOf(before.sessions, c), before, c);
      assert earlier + [a] == actions;
    }
  }
}
