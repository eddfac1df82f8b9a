/**
 The client of mcp_server/tcp_client.py: what it believes about a remote engine
 across failures, cancellations and reconnects at every suspension point.

 `ahead` is what the outside does at the coming suspension points; the methods
 hold for every such future. Calls do not overlap: they run under the client's
 lock, and a client is closed or connected from outside only while it is idle.
 */
module TcpClient {
  import opened Options
  import opened UciInfo
  import opened UciWire

  // At a send: the connection drops, the caller is cancelled, or all is well.
  // At a read: also the end of the stream, nothing in time, a word in passing, or
  // the next reply that is owed, with the best move if it is one.
  datatype Event =
    | Quiet
    | Drop
    | Cancel
    | Silence
    | EndOfStream
    | Talk(words: seq<Token>)
    | Answer(move: Option<Token>)

  datatype Fault = UciError | CancelledError | AssertionError | ValueOrIndexError | OsError

  datatype Line =
    | InfoLine(words: seq<Token>)
    | ReplyLine(reply: Reply, move: Option<Token>)
    | OtherLine

  datatype Heard = Said(line: Line) | Ended | Raised(fault: Fault)

  datatype Outcome<T> = Done(value: T) | Failed(fault: Fault)

  predicate OnlyReady(owed: seq<Reply>) {
    forall i | 0 <= i < |owed| :: owed[i] == ReadyOk
  }

  // What stays owed once the first of these replies has come.
  function AfterFirst(owed: seq<Reply>, reply: Reply): seq<Reply> {
    if owed == [] then [] else if owed[0] == reply then owed[1..] else AfterFirst(owed[1..], reply)
  }

  // The moves of the one line made up when no variation was heard of.
  predicate Playable(move: Option<Token>) {
    move.Some? && move.value != Known(KNone)
  }

  function Result(lines: seq<Info>, move: Option<Token>): seq<Info> {
    if lines == [] && Playable(move) then [NO_INFO.(pv := Some([move.value]))] else lines
  }

  // Cut off while sending an option that is recorded with another value.
  predicate Harmful(before: map<string, Value>, options: seq<(string, Value)>, sent: nat, torn: bool) {
    torn && sent < |options| && options[sent].0 in before && before[options[sent].0] != options[sent].1
  }

  class TCPUCIClient {
    var attached: bool
    var closing: bool
    var currentMultipv: int
    var applied: map<string, Value>

    var wire: seq<Command>
    var owed: seq<Reply>
    var ahead: seq<Event>

    // Between calls: nothing but readiness is owed, so no search is outstanding, none
    // has yet to follow a new game, and without a connection the client expects a
    // fresh engine.
    ghost predicate Valid()
      reads this
    {
      if attached then OnlyReady(owed) && !GameAnnounced(wire) else currentMultipv == 1 && "MultiPV" !in applied
    }

    // The tracked number of variations is the engine's.
    ghost predicate MultiPvTracked()
      reads this
    {
      && (attached ==> Setting(wire, "MultiPV") == Some(Num(currentMultipv)))
      && (if "MultiPV" in applied then applied["MultiPV"] == Num(currentMultipv) else currentMultipv == 1)
    }

    // The engine has every recorded option.
    ghost predicate InAgreement()
      reads this
    {
      attached ==> Drift(wire, applied) == {}
    }

    predicate IsConnected()
      reads this
    {
      attached && !closing
    }

    constructor (future: seq<Event>)
      ensures Valid() && !attached && MultiPvTracked() && InAgreement() && applied == map[]
    {
      attached, closing, currentMultipv, applied := false, false, 1, map[];
      wire, owed, ahead := [], [], future;
    }

    method NextEvent() returns (e: Event)
      modifies this`ahead
      ensures |ahead| <= |old(ahead)| && (old(ahead) != [] ==> |ahead| < |old(ahead)|)
      ensures old(ahead) == [] ==> e == Silence
    {
      if ahead == [] {
        return Silence;
      }
      e := ahead[0];
      ahead := ahead[1..];
    }

    method ResetConnection()
      modifies this
      ensures !attached && Valid() && applied == old(applied) - {"MultiPV"} && ahead == old(ahead)
    {
      attached := false;
      currentMultipv := 1;
      applied := applied - {"MultiPV"};
      wire, owed := [], [];
    }

    method Send(c: Command) returns (f: Option<Fault>)
      modifies this
      ensures |ahead| <= |old(ahead)|
      ensures old(attached) && attached ==>
                wire == old(wire) + [c] && owed == old(owed) + Due(c) && (f == None || f == Some(CancelledError))
      ensures attached ==> old(attached) && currentMultipv == old(currentMultipv) && applied == old(applied)
      ensures !attached ==> f.Some?
      ensures old(attached) && !attached ==> Valid() && applied == old(applied) - {"MultiPV"}
      ensures !old(attached) ==>
                f == Some(AssertionError) && currentMultipv == old(currentMultipv) && applied == old(applied)
    {
      if !attached {
        return Some(AssertionError);
      }
      wire := wire + [c];
      owed := owed + Due(c);
      var e := NextEvent();
      if e.Drop? {
        ResetConnection();
        return Some(UciError);
      }
      return if e.Cancel? then Some(CancelledError) else None;
    }

    // A line in passing tells about a search only while a search is what the engine
    // works on.
    method ReadLine() returns (h: Heard)
      requires attached
      modifies this
      ensures h.Said? ==> |ahead| < |old(ahead)| && attached
      ensures |ahead| <= |old(ahead)|
      ensures attached ==> wire == old(wire) && currentMultipv == old(currentMultipv) && applied == old(applied)
      ensures !attached ==> h.Raised? && Valid() && applied == old(applied) - {"MultiPV"}
      ensures attached && !(h.Said? && h.line.ReplyLine?) ==> owed == old(owed)
      ensures h.Said? && h.line.InfoLine? ==> owed != [] && owed[0] == BestMove
      ensures h.Said? && h.line.ReplyLine? ==>
                old(owed) != [] && h.line.reply == old(owed)[0] && owed == old(owed)[1..]
    {
      var e := NextEvent();
      match e
      case Cancel => return Raised(CancelledError);
      case Drop =>
        ResetConnection();
        return Raised(UciError);
      case EndOfStream => return Ended;
      case Talk(words) =>
        return Said(if owed != [] && owed[0] == BestMove then InfoLine(words) else OtherLine);
      case Answer(move) =>
        if owed == [] {
          return Raised(UciError);
        }
        var reply := owed[0];
        owed := owed[1..];
        return Said(ReplyLine(reply, move));
      case _ => return Raised(UciError);
    }

    method WaitFor(reply: Reply) returns (f: Option<Fault>)
      requires attached
      modifies this
      ensures |ahead| <= |old(ahead)|
      ensures attached ==> wire == old(wire) && currentMultipv == old(currentMultipv) && applied == old(applied)
      ensures !attached ==> f.Some? && Valid() && applied == old(applied) - {"MultiPV"}
      ensures f == None ==> attached && owed == AfterFirst(old(owed), reply)
      ensures attached && OnlyReady(old(owed)) ==> OnlyReady(owed)
    {
      while true
        invariant attached && |ahead| <= |old(ahead)|
        invariant wire == old(wire) && currentMultipv == old(currentMultipv) && applied == old(applied)
        invariant AfterFirst(owed, reply) == AfterFirst(old(owed), reply)
        invariant OnlyReady(old(owed)) ==> OnlyReady(owed)
        decreases |ahead|
      {
        var h := ReadLine();
        match h
        case Raised(fault) => return Some(fault);
        case Ended => return Some(UciError);
        case Said(line) =>
          if line.ReplyLine? && line.reply == reply {
            return None;
          }
      }
    }

    /* ---------- connecting ---------- */

    // Every recorded option again, in the order of the record or any other.
    method ReapplyOptions() returns (f: Option<Fault>)
      requires attached && owed == [] && !GameAnnounced(wire) && forall k :: Setting(wire, k) == Initial(k)
      modifies this
      ensures |ahead| <= |old(ahead)|
      ensures attached ==> currentMultipv == old(currentMultipv) && applied == old(applied)
      ensures !attached ==> f.Some? && Valid() && applied == old(applied) - {"MultiPV"}
      ensures f == None ==>
                && attached && owed == [] && !GameAnnounced(wire)
                && forall k :: Setting(wire, k) == if k in applied then Some(applied[k]) else Initial(k)
    {
      var left := applied.Keys;
      while left != {}
        invariant attached && owed == [] && |ahead| <= |old(ahead)| && left <= applied.Keys && !GameAnnounced(wire)
        invariant currentMultipv == old(currentMultipv) && applied == old(applied)
        invariant forall k :: Setting(wire, k) == if k in applied && k !in left then Some(applied[k]) else Initial(k)
        decreases |left|
      {
        var key :| key in left;
        var c := SetOption(key, applied[key]);
        ghost var before := wire;
        f := Send(c);
        if f.Some? {
          return;
        }
        forall k
          ensures Setting(before + [c], k) == if k == key then Some(c.value) else Setting(before, k)
        {
          SettingAppend(before, c, k);
        }
        GameAppend(before, c);
        left := left - {key};
      }
      f := None;
    }

    method Handshake() returns (f: Option<Fault>)
      requires attached && wire == [] && owed == []
      modifies this
      ensures |ahead| <= |old(ahead)|
      ensures attached ==> currentMultipv == old(currentMultipv) && applied == old(applied)
      ensures !attached ==> f.Some? && Valid() && applied == old(applied) - {"MultiPV"}
      ensures f == None ==>
                && attached && owed == [] && !GameAnnounced(wire)
                && forall k :: Setting(wire, k) == if k in applied then Some(applied[k]) else Initial(k)
    {
      f := Send(Uci);
      if f.Some? { return; }
      GameAppend([], Uci);
      f := WaitFor(UciOk);
      if f.Some? { return; }
      forall k
        ensures Setting([] + [Uci], k) == Initial(k)
      {
        SettingAppend([], Uci, k);
      }
      f := ReapplyOptions();
      if f.Some? { return; }
      ghost var before := wire;
      f := Send(IsReady);
      if f.Some? { return; }
      GameAppend(before, IsReady);
      forall k
        ensures Setting(before + [IsReady], k) == Setting(before, k)
      {
        SettingAppend(before, IsReady, k);
      }
      f := WaitFor(ReadyOk);
    }

    method Connect() returns (f: Option<Fault>)
      modifies this
      ensures |ahead| <= |old(ahead)|
      ensures f.Some? ==> !attached && Valid() && applied == old(applied) - {"MultiPV"}
      ensures f == None ==>
                && attached && owed == [] && Valid() && InAgreement()
                && currentMultipv == old(currentMultipv) && applied == old(applied)
                && forall k :: Setting(wire, k) == if k in applied then Some(applied[k]) else Initial(k)
      ensures old(MultiPvTracked()) ==> MultiPvTracked()
    {
      var e := NextEvent();
      if !e.Quiet? {
        ResetConnection();
        return Some(if e.Cancel? then CancelledError else OsError);
      }
      attached, closing, wire, owed := true, false, [], [];
      f := Handshake();
      if f.Some? {
        ResetConnection();
      }
    }

    method EnsureConnected() returns (f: Option<Fault>)
      requires Valid()
      modifies this
      ensures |ahead| <= |old(ahead)| && Valid()
      ensures f.Some? ==> !attached
      ensures f == None ==> attached
      ensures old(IsConnected()) ==>
                && f == None && wire == old(wire) && owed == old(owed)
                && currentMultipv == old(currentMultipv) && applied == old(applied)
      ensures !old(IsConnected()) ==> applied == old(applied) - {"MultiPV"} && currentMultipv == 1
      ensures !old(IsConnected()) && f == None ==>
                forall k :: Setting(wire, k) == if k in applied then Some(applied[k]) else Initial(k)
      ensures old(InAgreement()) ==> InAgreement()
      ensures old(MultiPvTracked()) ==> MultiPvTracked()
    {
      f := None;
      if !IsConnected() {
        ResetConnection();
        f := Connect();
      }
    }

    method Close()
      modifies this
      ensures Valid() && !attached && applied == old(applied) - {"MultiPV"} && MultiPvTracked()
    {
      ResetConnection();
    }

    /* ---------- configuring ---------- */

    // The option is recorded once it has been sent.
    method SendOption(name: string, value: Value) returns (f: Option<Fault>)
      requires Valid()
      modifies this
      ensures |ahead| <= |old(ahead)| && Valid()
      ensures f == None ==> attached && applied == old(applied)[name := value]
      ensures attached ==>
                && old(attached) && currentMultipv == old(currentMultipv)
                && wire == old(wire) + [SetOption(name, value)] && (f.Some? ==> applied == old(applied))
      ensures attached && f.Some? ==> f == Some(CancelledError)
      ensures !old(attached) ==> f == Some(AssertionError) && !attached && applied == old(applied)
      ensures old(attached) && !attached ==> applied == old(applied) - {"MultiPV"}
    {
      GameAppend(wire, SetOption(name, value));
      f := Send(SetOption(name, value));
      if f == None {
        applied := applied[name := value];
      }
    }

    // `sent` options were sent and recorded; `torn` if the caller was cancelled while
    // one more was being sent.
    method SendOptions(options: seq<(string, Value)>) returns (f: Option<Fault>, sent: nat, torn: bool)
      requires Valid()
      modifies this
      ensures |ahead| <= |old(ahead)|
      ensures Valid() && sent <= |options|
      ensures !old(attached) ==> f == Some(AssertionError) && !attached && applied == old(applied) && sent == 0
      ensures f == None ==> attached && sent == |options|
      ensures torn ==> f == Some(CancelledError) && attached && sent < |options|
      ensures attached ==>
                && old(attached) && currentMultipv == old(currentMultipv)
                && applied == Recorded(old(applied), options[..sent])
                && wire == old(wire) + (if torn then Sets(options[..sent + 1]) else Sets(options) + [IsReady])
                && (!torn ==> sent == |options|)
      ensures old(attached) && !attached ==> applied == Recorded(old(applied), options[..sent]) - {"MultiPV"}
    {
      sent, torn := 0, false;
      while sent < |options|
        invariant sent <= |options| && |ahead| <= |old(ahead)|
        invariant attached == old(attached) && Valid() && currentMultipv == old(currentMultipv)
        invariant applied == Recorded(old(applied), options[..sent]) && (sent > 0 ==> attached)
        invariant attached ==> wire == old(wire) + Sets(options[..sent])
      {
        var (name, value) := options[sent];
        assert Sets(options[..sent + 1]) == Sets(options[..sent]) + [SetOption(name, value)];
        f := SendOption(name, value);
        if f.Some? {
          torn := attached;
          return;
        }
        assert options[..sent + 1][..sent] == options[..sent];
        sent := sent + 1;
      }
      assert options[..sent] == options;
      GameAppend(wire, IsReady);
      f := Send(IsReady);
      if f.Some? {
        return;
      }
      f := WaitFor(ReadyOk);
    }

    // The engine still agrees with the record exactly unless the call was cut off
    // while sending a recorded option another value.
    method Configure(options: seq<(string, Value)>) returns (f: Option<Fault>, sent: nat, torn: bool)
      requires Valid() && Distinct(options)
      modifies this
      ensures |ahead| <= |old(ahead)|
      ensures Valid() && sent <= |options|
      ensures f == None ==> attached && sent == |options| && wire == old(wire) + Sets(options) + [IsReady]
      ensures attached ==> applied == Recorded(old(applied), options[..sent])
      ensures old(attached) && !attached ==> applied == Recorded(old(applied), options[..sent]) - {"MultiPV"}
      ensures old(InAgreement()) ==> (InAgreement() <==> !Harmful(old(applied), options, sent, torn))
      ensures old(MultiPvTracked()) && !Names(options, "MultiPV") ==> MultiPvTracked()
    {
      f, sent, torn := SendOptions(options);
      ghost var before := old(applied);
      if attached {
        assert options[..|options|] == options;
        if torn {
          ConfigureCutOff(old(wire), before, options, sent, "MultiPV");
        } else {
          ConfigureComplete(old(wire), before, options, "MultiPV");
          assert old(wire) + Sets(options) + [IsReady] == old(wire) + (Sets(options) + [IsReady]);
        }
      } else if old(attached) {
        assert !Names(options, "MultiPV") ==> !Names(options[..sent], "MultiPV");
      }
    }

    /* ---------- analysing ---------- */

    method Synchronise(reuse: bool) returns (f: Option<Fault>)
      requires attached && OnlyReady(owed)
      modifies this
      ensures |ahead| <= |old(ahead)|
      ensures f == None ==>
                && attached && OnlyReady(owed)
                && wire == old(wire) + ((if reuse then [] else [NewGame]) + [IsReady])
      ensures attached ==> currentMultipv == old(currentMultipv) && applied == old(applied)
      ensures applied - {"MultiPV"} == old(applied) - {"MultiPV"}
    {
      if !reuse {
        f := Send(NewGame);
        if f.Some? { return; }
      }
      f := Send(IsReady);
      if f.Some? { return; }
      f := WaitFor(ReadyOk);
    }

    method AskForSearch(fen: string, depth: int, multipv: int, searchMoves: seq<string>, reuse: bool)
      returns (f: Option<Fault>, ghost ready: seq<Reply>)
      requires attached && OnlyReady(owed)
      modifies this
      ensures |ahead| <= |old(ahead)|
      ensures f == None ==>
                && attached && OnlyReady(ready) && owed == ready + [BestMove]
                && wire == old(wire) + Asked(old(currentMultipv), multipv, fen, depth, searchMoves, reuse)
                && currentMultipv == multipv
                && applied == (if multipv != old(currentMultipv) then old(applied)["MultiPV" := Num(multipv)]
                               else old(applied))
      ensures applied - {"MultiPV"} == old(applied) - {"MultiPV"}
    {
      ready := [];
      f := Synchronise(reuse);
      if f.Some? { return; }
      if multipv != currentMultipv {
        f := Send(SetOption("MultiPV", Num(multipv)));
        if f.Some? { return; }
        currentMultipv := multipv;
        applied := applied["MultiPV" := Num(multipv)];
      }
      f := Send(Position(fen));
      if f.Some? { return; }
      ready := owed;
      f := Send(Go(depth, searchMoves));
    }

    // The best move stands in for the variations if none was heard of.
    method StandIn(lines: seq<Info>, move: Option<Token>) returns (pvLines: seq<Info>)
      ensures pvLines == Result(lines, move)
    {
      pvLines := lines;
      if lines == [] {
        if move.Some? && move.value != Known(KNone) {
          pvLines := [NO_INFO.(pv := Some([move.value]))];
        }
      }
    }

    // `heard` are the lines about this search, all said while the engine was at it.
    method HearSearch(ghost ready: seq<Reply>) returns (r: Outcome<seq<Info>>, heard: seq<seq<Token>>, move: Option<Token>)
      requires attached && OnlyReady(ready) && owed == ready + [BestMove]
      modifies this
      ensures |ahead| <= |old(ahead)|
      ensures r.Done? ==>
                && attached && owed == [] && wire == old(wire)
                && currentMultipv == old(currentMultipv) && applied == old(applied)
                && Collected(heard).Some? && r.value == Result(Collected(heard).value, move)
      ensures applied - {"MultiPV"} == old(applied) - {"MultiPV"}
    {
      var lines: seq<Info> := [];
      heard, move := [], None;
      ghost var rest := ready;
      while true
        invariant attached && |ahead| <= |old(ahead)|
        invariant OnlyReady(rest) && owed == rest + [BestMove]
        invariant wire == old(wire) && currentMultipv == old(currentMultipv) && applied == old(applied)
        invariant Collected(heard) == Some(lines)
        decreases |ahead|
      {
        var h := ReadLine();
        match h
        case Raised(fault) => return Failed(fault), heard, move;
        case Ended => return Failed(UciError), heard, move;
        case Said(line) =>
          if line.InfoLine? {
            assert (heard + [line.words])[..|heard|] == heard;
            heard := heard + [line.words];
            var info := ParseInfo(line.words);
            if info == None { return Failed(ValueOrIndexError), heard, move; }
            if info.value.pv.Some? {
              var stored := Store(lines, info.value);
              if stored == None { return Failed(ValueOrIndexError), heard, move; }
              lines := stored.value;
            }
          } else if line.ReplyLine? && line.reply == BestMove {
            move := line.move;
            lines := StandIn(lines, move);
            return Done(lines), heard, move;
          } else if line.ReplyLine? {
            rest := rest[1..];
          }
      }
    }

    method Analyse(fen: string, depth: int, multipv: int, searchMoves: seq<string>, reuse: bool)
      returns (r: Outcome<seq<Info>>, heard: seq<seq<Token>>, move: Option<Token>, ghost base: seq<Command>)
      requires Valid()
      modifies this
      ensures |ahead| <= |old(ahead)| && Valid()
      ensures r.Failed? ==> !attached && applied == old(applied) - {"MultiPV"}
      ensures r.Done? ==> attached && owed == []
      ensures r.Done? ==> Collected(heard).Some? && r.value == Result(Collected(heard).value, move)
      ensures r.Done? ==>
                wire == base + Asked(if old(IsConnected()) then old(currentMultipv) else 1,
                                     multipv, fen, depth, searchMoves, reuse)
      ensures r.Done? && old(IsConnected()) ==> base == old(wire)
      ensures r.Done? && !old(IsConnected()) ==>
                forall k :: Setting(base, k) ==
                            if k in old(applied) && k != "MultiPV" then Some(old(applied)[k]) else Initial(k)
      ensures r.Done? ==> LastRun(wire) == Some(Ran(Some(fen), depth, searchMoves, !reuse))
      ensures r.Done? && old(MultiPvTracked()) ==> Setting(wire, "MultiPV") == Some(Num(multipv))
      ensures old(InAgreement()) ==> InAgreement()
      ensures old(MultiPvTracked()) ==> MultiPvTracked()
    {
      heard, move, base := [], None, [];
      var f := EnsureConnected();
      if f.Some? {
        return Failed(f.value), heard, move, base;
      }
      base := wire;
      ghost var current, recorded := currentMultipv, applied;
      ghost var ready;
      f, ready := AskForSearch(fen, depth, multipv, searchMoves, reuse);
      if f.Some? {
        ResetConnection();
        return Failed(f.value), heard, move, base;
      }
      r, heard, move := HearSearch(ready);
      if r.Failed? {
        ResetConnection();
        return;
      }
      SearchKeepsAgreement(base, recorded, current, multipv, fen, depth, searchMoves, reuse);
      AskedIsWhatRuns(base, current, multipv, fen, depth, searchMoves, reuse);
    }
  }

  /* ---------- whole runs ---------- */

  datatype Call =
    | CallConnect
    | CallConfigure(options: seq<(string, Value)>)
    | CallAnalyse(fen: string, depth: int, multipv: int, searchMoves: seq<string>, reuse: bool)
    | CallClose
    | PeerCloses

  // What became of a call: what a completed search ran on and the option values it ran
  // under, or how far a configuration got.
  datatype Logged =
    | Searched(ran: Option<Ran>, requested: int, inForce: Option<Value>, drift: set<string>)
    | Configured(before: map<string, Value>, options: seq<(string, Value)>, sent: nat, torn: bool)
    | NothingLogged

  predicate CutOffHarmfully(l: Logged) {
    l.Configured? && Harmful(l.before, l.options, l.sent, l.torn)
  }

  ghost predicate RanAsAsked(l: Logged) {
    l.Searched? ==> l.inForce == Some(Num(l.requested))
  }

  predicate NamesMultiPv(call: Call) {
    call.CallConfigure? && Names(call.options, "MultiPV")
  }

  ghost predicate RanUnderTheRecord(l: Logged) {
    l.Searched? ==> l.drift == {}
  }

  // The search ran on the position, depth and moves of its own call, and in a new game
  // exactly if the call did not ask for reuse.
  ghost predicate RanItsRequest(call: Call, l: Logged) {
    l.Searched? ==>
      call.CallAnalyse? && l.ran == Some(Ran(Some(call.fen), call.depth, call.searchMoves, !call.reuse))
  }

  ghost predicate Records(call: Call, l: Logged) {
    && (call.CallConfigure? ==> l.Configured? && l.options == call.options)
    && (l.Searched? ==> call.CallAnalyse? && l.requested == call.multipv)
  }

  method MakeCall(c: TCPUCIClient, call: Call) returns (ghost entry: Logged)
    requires c.Valid() && (call.CallConfigure? ==> Distinct(call.options))
    modifies c
    ensures c.Valid() && Records(call, entry) && RanItsRequest(call, entry)
    ensures entry.Configured? ==> entry.before == old(c.applied)
    ensures old(c.MultiPvTracked()) && !NamesMultiPv(call) ==> c.MultiPvTracked() && RanAsAsked(entry)
    ensures old(c.InAgreement()) && !CutOffHarmfully(entry) ==> c.InAgreement() && RanUnderTheRecord(entry)
  {
    entry := NothingLogged;
    match call
    case CallConnect =>
      var f := c.Connect();
    case CallConfigure(options) =>
      ghost var before := c.applied;
      var f, sent, torn := c.Configure(options);
      entry := Configured(before, options, sent, torn);
    case CallAnalyse(fen, depth, multipv, searchMoves, reuse) =>
      var r, heard, move;
      ghost var base;
      r, heard, move, base := c.Analyse(fen, depth, multipv, searchMoves, reuse);
      if r.Done? {
        entry := Searched(LastRun(c.wire), multipv, Setting(c.wire, "MultiPV"), Drift(c.wire, c.applied));
      }
    case CallClose =>
      c.Close();
    case PeerCloses =>
      c.closing := true;
  }

  // Whatever calls are made and wherever they fail or are cancelled: every search that
  // completed ran on its own request; if no configuration names MultiPV, it ran with
  // the number of variations it asked for, and if none was cut off harmfully, under all
  // the recorded options.
  method RunCalls(c: TCPUCIClient, calls: seq<Call>) returns (ghost log: seq<Logged>)
    requires c.Valid() && c.MultiPvTracked() && c.InAgreement()
    requires forall i | 0 <= i < |calls| && calls[i].CallConfigure? :: Distinct(calls[i].options)
    modifies c
    ensures c.Valid() && |log| == |calls|
    ensures forall i | 0 <= i < |calls| :: Records(calls[i], log[i]) && RanItsRequest(calls[i], log[i])
    ensures (forall i | 0 <= i < |calls| :: !NamesMultiPv(calls[i])) ==> forall i | 0 <= i < |log| :: RanAsAsked(log[i])
    ensures (forall i | 0 <= i < |log| :: !CutOffHarmfully(log[i])) ==>
              forall i | 0 <= i < |log| :: RanUnderTheRecord(log[i])
  {
    log := [];
    for n := 0 to |calls|
      invariant c.Valid() && |log| == n
      invariant forall i | 0 <= i < n :: Records(calls[i], log[i]) && RanItsRequest(calls[i], log[i])
      invariant (forall i | 0 <= i < n :: !NamesMultiPv(calls[i])) ==>
                  c.MultiPvTracked() && forall i | 0 <= i < n :: RanAsAsked(log[i])
      invariant (forall i | 0 <= i < n :: !CutOffHarmfully(log[i])) ==>
                  c.InAgreement() && forall i | 0 <= i < n :: RanUnderTheRecord(log[i])
    {
      ghost var entry := MakeCall(c, calls[n]);
      log := log + [entry];
    }
  }
}
