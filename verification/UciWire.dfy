/**
 What a connection to a remote UCI engine carries, and what it does to the
 engine: the commands written, the settings they leave, the replies they are owed.
 */
module UciWire {
  import opened Options

  datatype Value = Num(n: int) | Text(s: string)

  datatype Command =
    | Uci
    | IsReady
    | NewGame
    | SetOption(name: string, value: Value)
    | Position(fen: string)
    | Go(depth: int, searchMoves: seq<string>)

  datatype Reply = UciOk | ReadyOk | BestMove

  // UCI: each of these commands is answered once, in the order of the commands.
  function Due(c: Command): seq<Reply> {
    match c
    case Uci => [UciOk]
    case IsReady => [ReadyOk]
    case Go(_, _) => [BestMove]
    case _ => []
  }

  // A fresh engine computes one variation; its other defaults are its own affair.
  function Initial(name: string): Option<Value> {
    if name == "MultiPV" then Some(Num(1)) else None
  }

  // The engine's value of an option after a connection carried these commands.
  function Setting(wire: seq<Command>, name: string): Option<Value> {
    if wire == [] then Initial(name)
    else
      var last := wire[|wire| - 1];
      if last.SetOption? && last.name == name then Some(last.value) else Setting(wire[..|wire| - 1], name)
  }

  // The recorded options of which the engine has another value.
  function Drift(wire: seq<Command>, applied: map<string, Value>): set<string> {
    set k | k in applied && Setting(wire, k) != Some(applied[k])
  }

  /* ---------- what the last search ran on ---------- */

  function PositionInForce(wire: seq<Command>): Option<string> {
    if wire == [] then None
    else
      var last := wire[|wire| - 1];
      if last.Position? then Some(last.fen) else PositionInForce(wire[..|wire| - 1])
  }

  // A new game has been announced since the last search, if there was one.
  predicate GameAnnounced(wire: seq<Command>) {
    wire != [] &&
    var last := wire[|wire| - 1];
    last == NewGame || (!last.Go? && GameAnnounced(wire[..|wire| - 1]))
  }

  datatype Ran = Ran(fen: Option<string>, depth: int, searchMoves: seq<string>, newGame: bool)

  // The last search: the position in force when it started, what it was asked for, and
  // whether a new game had been announced since the one before.
  function LastRun(wire: seq<Command>): Option<Ran> {
    if wire == [] then None
    else
      var before, last := wire[..|wire| - 1], wire[|wire| - 1];
      if last.Go? then Some(Ran(PositionInForce(before), last.depth, last.searchMoves, GameAnnounced(before)))
      else LastRun(before)
  }

  lemma GameAppend(wire: seq<Command>, c: Command)
    ensures GameAnnounced(wire + [c]) <==> c == NewGame || (!c.Go? && GameAnnounced(wire))
  {
    assert (wire + [c])[..|wire|] == wire;
  }

  lemma {:induction false} GameAfter(wire: seq<Command>, rest: seq<Command>)
    requires forall k | 0 <= k < |rest| :: !rest[k].Go?
    ensures GameAnnounced(wire + rest) <==> NewGame in rest || GameAnnounced(wire)
    decreases |rest|
  {
    if rest == [] {
      assert wire + rest == wire;
    } else {
      var before, last := rest[..|rest| - 1], rest[|rest| - 1];
      GameAfter(wire, before);
      GameAppend(wire + before, last);
      assert wire + rest == wire + before + [last] && rest == before + [last];
    }
  }

  lemma GoAppend(wire: seq<Command>, fen: string, depth: int, searchMoves: seq<string>)
    ensures LastRun(wire + [Position(fen)] + [Go(depth, searchMoves)]) ==
            Some(Ran(Some(fen), depth, searchMoves, GameAnnounced(wire)))
    ensures !GameAnnounced(wire + [Position(fen)] + [Go(depth, searchMoves)])
  {
    var placed := wire + [Position(fen)];
    assert placed[..|wire|] == wire && (placed + [Go(depth, searchMoves)])[..|placed|] == placed;
    GameAppend(wire, Position(fen));
  }

  lemma SettingAppend(wire: seq<Command>, c: Command, name: string)
    ensures Setting(wire + [c], name) ==
            if c.SetOption? && c.name == name then Some(c.value) else Setting(wire, name)
  {
    assert (wire + [c])[..|wire|] == wire;
  }

  /* ---------- configuring ---------- */

  predicate Distinct(options: seq<(string, Value)>) {
    forall i, j | 0 <= i < j < |options| :: options[i].0 != options[j].0
  }

  function Sets(options: seq<(string, Value)>): seq<Command> {
    seq(|options|, i requires 0 <= i < |options| => SetOption(options[i].0, options[i].1))
  }

  function Recorded(applied: map<string, Value>, options: seq<(string, Value)>): map<string, Value> {
    if options == [] then applied
    else
      var last := options[|options| - 1];
      Recorded(applied, options[..|options| - 1])[last.0 := last.1]
  }

  predicate Names(options: seq<(string, Value)>, k: string) {
    exists i | 0 <= i < |options| :: options[i].0 == k
  }

  // Recording what was sent mends the options it names and touches no other.
  lemma {:induction false} ConfigureMendsWhatItNames(wire: seq<Command>, applied: map<string, Value>,
                                                     options: seq<(string, Value)>)
    ensures forall k :: k in Drift(wire + Sets(options), Recorded(applied, options)) <==>
                        k in Drift(wire, applied) && !Names(options, k)
    ensures forall k | !Names(options, k) ::
              && Setting(wire + Sets(options), k) == Setting(wire, k)
              && (k in Recorded(applied, options) <==> k in applied)
              && (k in applied ==> Recorded(applied, options)[k] == applied[k])
  {
    if options == [] {
      assert wire + Sets(options) == wire;
    } else {
      var before, last := options[..|options| - 1], options[|options| - 1];
      ConfigureMendsWhatItNames(wire, applied, before);
      var sent := wire + Sets(before);
      var c := SetOption(last.0, last.1);
      assert Sets(options) == Sets(before) + [c];
      assert wire + Sets(options) == sent + [c];
      forall k
        ensures Setting(sent + [c], k) == if k == last.0 then Some(last.1) else Setting(sent, k)
      {
        SettingAppend(sent, c, k);
      }
      forall k
        ensures Names(options, k) <==> k == last.0 || Names(before, k)
      {
        if Names(before, k) {
          var i :| 0 <= i < |before| && before[i].0 == k;
          assert options[i].0 == k;
        }
      }
    }
  }

  // Of a configuration the client sent and recorded the first `sent` options and,
  // if it was cut off in the middle of a send, wrote one more without recording it.
  // An engine in agreement with the record stays so unless that one option is
  // recorded with another value; then it alone has drifted.
  lemma CutOffConfigureDrifts(wire: seq<Command>, applied: map<string, Value>, options: seq<(string, Value)>, sent: nat)
    requires Distinct(options) && sent < |options| && Drift(wire, applied) == {}
    ensures var (name, value) := options[sent];
            Drift(wire + Sets(options[..sent + 1]), Recorded(applied, options[..sent])) ==
            if name in applied && applied[name] != value then {name} else {}
  {
    var before := options[..sent];
    var (name, value) := options[sent];
    var c := SetOption(name, value);
    var after := wire + Sets(before);
    ConfigureMendsWhatItNames(wire, applied, before);
    assert Sets(options[..sent + 1]) == Sets(before) + [c];
    assert wire + Sets(options[..sent + 1]) == after + [c];
    forall k
      ensures Setting(after + [c], k) == if k == name then Some(value) else Setting(after, k)
    {
      SettingAppend(after, c, k);
    }
    assert !Names(before, name);
    assert forall k | k in Recorded(applied, before) :: Setting(after, k) == Some(Recorded(applied, before)[k]) by {
      forall k | k in Recorded(applied, before)
        ensures Setting(after, k) == Some(Recorded(applied, before)[k])
      {
        assert k !in Drift(after, Recorded(applied, before));
      }
    }
  }

  // The two ways a configuration leaves the connection standing.
  lemma ConfigureComplete(wire: seq<Command>, applied: map<string, Value>, options: seq<(string, Value)>, name: string)
    ensures var after := wire + Sets(options) + [IsReady];
            && (Drift(wire, applied) == {} ==> Drift(after, Recorded(applied, options)) == {})
            && (!Names(options, name) ==>
                  && Setting(after, name) == Setting(wire, name)
                  && (name in Recorded(applied, options) <==> name in applied)
                  && (name in applied ==> Recorded(applied, options)[name] == applied[name]))
  {
    var sent, recorded := wire + Sets(options), Recorded(applied, options);
    ConfigureMendsWhatItNames(wire, applied, options);
    forall k
      ensures Setting(sent + [IsReady], k) == Setting(sent, k)
    {
      SettingAppend(sent, IsReady, k);
    }
    if Drift(wire, applied) == {} {
      forall k | k in recorded
        ensures k !in Drift(sent + [IsReady], recorded)
      {
        assert k !in Drift(sent, recorded);
      }
    }
  }

  lemma ConfigureCutOff(wire: seq<Command>, applied: map<string, Value>, options: seq<(string, Value)>, sent: nat,
                        name: string)
    requires Distinct(options) && sent < |options|
    ensures var after := wire + Sets(options[..sent + 1]);
            var recorded := Recorded(applied, options[..sent]);
            && (Drift(wire, applied) == {} ==>
                  (Drift(after, recorded) == {} <==>
                   !(options[sent].0 in applied && applied[options[sent].0] != options[sent].1)))
            && (!Names(options, name) ==>
                  && Setting(after, name) == Setting(wire, name)
                  && (name in recorded <==> name in applied)
                  && (name in applied ==> recorded[name] == applied[name]))
  {
    if Drift(wire, applied) == {} {
      CutOffConfigureDrifts(wire, applied, options, sent);
    }
    if !Names(options, name) {
      assert !Names(options[..sent], name) && !Names(options[..sent + 1], name);
      ConfigureMendsWhatItNames(wire, applied, options[..sent]);
      ConfigureMendsWhatItNames(wire, applied, options[..sent + 1]);
    }
  }

  /* ---------- asking for a search ---------- */

  // What one analysis writes on a connection whose tracked MultiPV is `current`.
  function Asked(current: int, multipv: int, fen: string, depth: int, searchMoves: seq<string>, reuse: bool): seq<Command> {
    Prepared(current, multipv, reuse) + [Position(fen), Go(depth, searchMoves)]
  }

  function Prepared(current: int, multipv: int, reuse: bool): (q: seq<Command>)
    ensures NewGame in q <==> !reuse
    ensures forall k | 0 <= k < |q| :: !q[k].Go?
  {
    (if reuse then [] else [NewGame]) + [IsReady] +
    (if multipv != current then [SetOption("MultiPV", Num(multipv))] else [])
  }

  // Commands that set nothing.
  lemma {:induction false} SettingAfter(wire: seq<Command>, rest: seq<Command>, name: string)
    requires forall k | 0 <= k < |rest| :: !rest[k].SetOption?
    ensures Setting(wire + rest, name) == Setting(wire, name)
    decreases |rest|
  {
    if rest == [] {
      assert wire + rest == wire;
    } else {
      var before, last := rest[..|rest| - 1], rest[|rest| - 1];
      SettingAfter(wire, before, name);
      SettingAppend(wire + before, last, name);
      assert wire + rest == wire + before + [last];
    }
  }

  lemma AskedSettings(base: seq<Command>, current: int, multipv: int, fen: string, depth: int,
                      searchMoves: seq<string>, reuse: bool, name: string)
    ensures Setting(base + Asked(current, multipv, fen, depth, searchMoves, reuse), name) ==
            if name == "MultiPV" && multipv != current then Some(Num(multipv)) else Setting(base, name)
  {
    var start: seq<Command> := (if reuse then [] else [NewGame]) + [IsReady];
    var c, asked := SetOption("MultiPV", Num(multipv)), [Position(fen), Go(depth, searchMoves)];
    SettingAfter(base, start, name);
    if multipv != current {
      SettingAppend(base + start, c, name);
      SettingAfter(base + start + [c], asked, name);
      assert base + (start + [c] + asked) == base + start + [c] + asked;
    } else {
      SettingAfter(base + start, asked, name);
      assert base + (start + [] + asked) == base + start + asked;
    }
  }

  // The search asked for is the one that runs: at this position, to this depth, over
  // these moves, and in a new game unless the table is to be reused.
  lemma AskedIsWhatRuns(base: seq<Command>, current: int, multipv: int, fen: string, depth: int,
                        searchMoves: seq<string>, reuse: bool)
    requires !GameAnnounced(base)
    ensures var wire := base + Asked(current, multipv, fen, depth, searchMoves, reuse);
            LastRun(wire) == Some(Ran(Some(fen), depth, searchMoves, !reuse)) && !GameAnnounced(wire)
  {
    var before := Prepared(current, multipv, reuse);
    GameAfter(base, before);
    GoAppend(base + before, fen, depth, searchMoves);
    assert base + (before + [Position(fen), Go(depth, searchMoves)]) ==
           base + before + [Position(fen)] + [Go(depth, searchMoves)];
  }

  lemma SearchKeepsAgreement(base: seq<Command>, applied: map<string, Value>, current: int, multipv: int, fen: string,
                             depth: int, searchMoves: seq<string>, reuse: bool)
    ensures var after := base + Asked(current, multipv, fen, depth, searchMoves, reuse);
            var recorded := if multipv != current then applied["MultiPV" := Num(multipv)] else applied;
            && (Drift(base, applied) == {} ==> Drift(after, recorded) == {})
            && Setting(after, "MultiPV") == if multipv != current then Some(Num(multipv)) else Setting(base, "MultiPV")
  {
    var after := base + Asked(current, multipv, fen, depth, searchMoves, reuse);
    var recorded := if multipv != current then applied["MultiPV" := Num(multipv)] else applied;
    AskedSettings(base, current, multipv, fen, depth, searchMoves, reuse, "MultiPV");
    if Drift(base, applied) == {} {
      forall k | k in recorded
        ensures k !in Drift(after, recorded)
      {
        AskedSettings(base, current, multipv, fen, depth, searchMoves, reuse, k);
        assert k in applied ==> k !in Drift(base, applied);
      }
    }
  }

  // The search runs with as many variations as asked for exactly if they differ from
  // the tracked number, or the engine has them already.
  lemma GoRunsWithRequestedMultiPv(base: seq<Command>, current: int, multipv: int, fen: string, depth: int,
                                   searchMoves: seq<string>, reuse: bool)
    ensures Setting(base + Asked(current, multipv, fen, depth, searchMoves, reuse), "MultiPV") == Some(Num(multipv)) <==>
            multipv != current || Setting(base, "MultiPV") == Some(Num(multipv))
  {
    AskedSettings(base, current, multipv, fen, depth, searchMoves, reuse, "MultiPV");
  }

  // A configuration that names MultiPV goes behind the tracker's back: the next
  // analysis that asks for one line gets three.
  lemma ConfiguredMultiPvIsForgotten(fen: string, depth: int)
    ensures var wire := [Uci, IsReady] + Sets([("MultiPV", Num(3))]) + [IsReady];
            Setting(wire + Asked(1, 1, fen, depth, [], true), "MultiPV") == Some(Num(3))
  {
    var wire := [Uci, IsReady] + Sets([("MultiPV", Num(3))]) + [IsReady];
    var c := SetOption("MultiPV", Num(3));
    assert wire == [Uci, IsReady] + [c] + [IsReady];
    SettingAppend([Uci, IsReady], c, "MultiPV");
    SettingAppend([Uci, IsReady] + [c], IsReady, "MultiPV");
    AskedSettings(wire, 1, 1, fen, depth, [], true, "MultiPV");
  }
}
