/**
 `_parse_info` and the `pv_lines` collector of mcp_server/tcp_client.py: how the
 `info` lines of a search become one record for each principal variation.
 */
module UciInfo {
  import opened Options

  // The words that mean something to the client: the keywords of an `info` line and
  // the `(none)` of a `bestmove` line.
  datatype Key = KInfo | KDepth | KMultiPv | KScore | KCp | KMate | KWdl | KPv | KNone

  // A word of an engine's line: one of these, one that `int()` accepts, or any other.
  datatype Token = Known(key: Key) | Number(value: int) | Other(text: string)

  datatype Info = Info(
    depth: Option<int>,
    multipv: Option<int>,
    cp: Option<int>,
    mate: Option<int>,
    wdl: Option<(int, int, int)>,
    pv: Option<seq<Token>>)

  const NO_INFO := Info(None, None, None, None, None, None)

  /* ---------- parsing ---------- */

  // None is the ValueError of an ill-formed number.
  function ParseFrom(parts: seq<Token>, i: nat, info: Info): Option<Info>
    requires i <= |parts|
    decreases |parts| - i
  {
    var left := |parts| - i;
    if left == 0 then Some(info)
    else if parts[i] == Known(KDepth) && left >= 2 then
      if parts[i + 1].Number? then ParseFrom(parts, i + 2, info.(depth := Some(parts[i + 1].value))) else None
    else if parts[i] == Known(KMultiPv) && left >= 2 then
      if parts[i + 1].Number? then ParseFrom(parts, i + 2, info.(multipv := Some(parts[i + 1].value))) else None
    else if parts[i] == Known(KScore) && left >= 3 then
      ParseScore(parts, i, info)
    else if parts[i] == Known(KWdl) && left >= 4 then
      ParseFrom(parts, i + 4, WithWdl(info, parts[i + 1], parts[i + 2], parts[i + 3]))
    else if parts[i] == Known(KPv) then Some(info.(pv := Some(parts[i + 1..])))
    else ParseFrom(parts, i + 1, info)
  }

  function ParseScore(parts: seq<Token>, i: nat, info: Info): Option<Info>
    requires i + 3 <= |parts|
    decreases |parts| - i, 0
  {
    if parts[i + 1] == Known(KCp) then
      if parts[i + 2].Number? then ParseFrom(parts, i + 3, info.(cp := Some(parts[i + 2].value))) else None
    else if parts[i + 1] == Known(KMate) then
      if parts[i + 2].Number? then ParseFrom(parts, i + 3, info.(mate := Some(parts[i + 2].value))) else None
    else ParseFrom(parts, i + 3, info)
  }

  // Three numbers or nothing: the one conversion error that is swallowed.
  function WithWdl(info: Info, w: Token, d: Token, l: Token): Info {
    if w.Number? && d.Number? && l.Number? then info.(wdl := Some((w.value, d.value, l.value))) else info
  }

  function Parse(parts: seq<Token>): Option<Info> {
    ParseFrom(parts, 0, NO_INFO)
  }

  method ParseInfo(parts: seq<Token>) returns (r: Option<Info>)
    ensures r == Parse(parts)
  {
    var info := NO_INFO;
    var i := 0;
    while i < |parts|
      invariant i <= |parts| && ParseFrom(parts, i, info) == Parse(parts)
    {
      var key := parts[i];
      if key == Known(KInfo) {
        i := i + 1;
        continue;
      }
      if key == Known(KDepth) && i + 1 < |parts| {
        if !parts[i + 1].Number? { return None; }
        info := info.(depth := Some(parts[i + 1].value));
        i := i + 2;
      } else if key == Known(KMultiPv) && i + 1 < |parts| {
        if !parts[i + 1].Number? { return None; }
        info := info.(multipv := Some(parts[i + 1].value));
        i := i + 2;
      } else if key == Known(KScore) && i + 2 < |parts| {
        if parts[i + 1] == Known(KCp) {
          if !parts[i + 2].Number? { return None; }
          info := info.(cp := Some(parts[i + 2].value));
        } else if parts[i + 1] == Known(KMate) {
          if !parts[i + 2].Number? { return None; }
          info := info.(mate := Some(parts[i + 2].value));
        }
        i := i + 3;
      } else if key == Known(KWdl) && i + 3 < |parts| {
        info := WithWdl(info, parts[i + 1], parts[i + 2], parts[i + 3]);
        i := i + 4;
      } else if key == Known(KPv) {
        return Some(info.(pv := Some(parts[i + 1..])));
      } else {
        i := i + 1;
      }
    }
    return Some(info);
  }

  /* ---------- printing, and the round trip ---------- */

  // What an engine may print before `pv`: the fields, in any order and number, and
  // words the parser does not know.
  datatype Item =
    | Depth(n: int)
    | MultiPv(n: int)
    | Cp(n: int)
    | Mate(n: int)
    | Wdl(w: int, d: int, l: int)
    | Unknown(token: Token)

  predicate Keyword(t: Token) {
    t == Known(KDepth) || t == Known(KMultiPv) || t == Known(KScore) || t == Known(KWdl) || t == Known(KPv)
  }

  predicate WellFormed(items: seq<Item>) {
    forall k | 0 <= k < |items| :: items[k].Unknown? ==> !Keyword(items[k].token)
  }

  function PrintItem(item: Item): seq<Token> {
    match item
    case Depth(n) => [Known(KDepth), Number(n)]
    case MultiPv(n) => [Known(KMultiPv), Number(n)]
    case Cp(n) => [Known(KScore), Known(KCp), Number(n)]
    case Mate(n) => [Known(KScore), Known(KMate), Number(n)]
    case Wdl(w, d, l) => [Known(KWdl), Number(w), Number(d), Number(l)]
    case Unknown(t) => [t]
  }

  function Print(items: seq<Item>): seq<Token> {
    if items == [] then [] else PrintItem(items[0]) + Print(items[1..])
  }

  // The record the items describe: of two that set one field the later holds.
  function Read(items: seq<Item>, info: Info): Info {
    if items == [] then info else Read(items[1..], Put(items[0], info))
  }

  function Put(item: Item, info: Info): Info {
    match item
    case Depth(n) => info.(depth := Some(n))
    case MultiPv(n) => info.(multipv := Some(n))
    case Cp(n) => info.(cp := Some(n))
    case Mate(n) => info.(mate := Some(n))
    case Wdl(w, d, l) => info.(wdl := Some((w, d, l)))
    case Unknown(_) => info
  }

  // `stretch` stands in `parts` at i.
  predicate Stands(parts: seq<Token>, i: nat, stretch: seq<Token>) {
    i + |stretch| <= |parts| && parts[i..i + |stretch|] == stretch
  }

  lemma StretchHolds(parts: seq<Token>, i: nat, stretch: seq<Token>, k: nat)
    requires Stands(parts, i, stretch) && k < |stretch|
    ensures parts[i + k] == stretch[k]
  {
    assert parts[i..i + |stretch|][k] == parts[i + k];
  }

  // Parsing reads one printed item at a time.
  lemma ParseOneItem(parts: seq<Token>, i: nat, item: Item, info: Info)
    requires item.Unknown? ==> !Keyword(item.token)
    requires Stands(parts, i, PrintItem(item))
    ensures ParseFrom(parts, i, info) == ParseFrom(parts, i + |PrintItem(item)|, Put(item, info))
  {
    var stretch := PrintItem(item);
    StretchHolds(parts, i, stretch, 0);
    if |stretch| > 1 {
      StretchHolds(parts, i, stretch, 1);
    }
    if |stretch| > 2 {
      StretchHolds(parts, i, stretch, 2);
    }
    if |stretch| > 3 {
      StretchHolds(parts, i, stretch, 3);
    }
  }

  lemma TwoStretches(parts: seq<Token>, i: nat, all: seq<Token>, a: seq<Token>, b: seq<Token>)
    requires all == a + b && Stands(parts, i, all)
    ensures Stands(parts, i, a) && Stands(parts, i + |a|, b)
  {
    forall k | 0 <= k < |a|
      ensures parts[i + k] == a[k]
    {
      StretchHolds(parts, i, all, k);
    }
    forall k | 0 <= k < |b|
      ensures parts[i + |a| + k] == b[k]
    {
      StretchHolds(parts, i, all, |a| + k);
    }
  }

  lemma ItemsSplit(items: seq<Item>)
    requires items != []
    ensures Print(items) == PrintItem(items[0]) + Print(items[1..])
    ensures |Print(items)| == |PrintItem(items[0])| + |Print(items[1..])|
  {
  }

  lemma FirstItem(parts: seq<Token>, i: nat, items: seq<Item>, info: Info) returns (j: nat, next: Info)
    requires items != [] && WellFormed(items) && Stands(parts, i, Print(items))
    ensures Stands(parts, j, Print(items[1..])) && j + |Print(items[1..])| == i + |Print(items)|
    ensures ParseFrom(parts, i, info) == ParseFrom(parts, j, next) && Read(items, info) == Read(items[1..], next)
  {
    var first, rest := PrintItem(items[0]), Print(items[1..]);
    j, next := i + |first|, Put(items[0], info);
    ItemsSplit(items);
    TwoStretches(parts, i, Print(items), first, rest);
    ParseOneItem(parts, i, items[0], info);
  }

  lemma {:induction false} ParsePrinted(parts: seq<Token>, i: nat, items: seq<Item>, info: Info)
    requires WellFormed(items) && Stands(parts, i, Print(items))
    ensures ParseFrom(parts, i, info) == ParseFrom(parts, i + |Print(items)|, Read(items, info))
    decreases |items|
  {
    if items != [] {
      var j, next := FirstItem(parts, i, items, info);
      ParsePrinted(parts, j, items[1..], next);
    }
  }

  // A printed line is read back: every field from its last mention, then the moves.
  lemma ParseInvertsPrint(items: seq<Item>, moves: seq<Token>)
    requires WellFormed(items)
    ensures Parse([Known(KInfo)] + Print(items) + ([Known(KPv)] + moves)) ==
            Some(Read(items, NO_INFO).(pv := Some(moves)))
    ensures Parse([Known(KInfo)] + Print(items)) == Some(Read(items, NO_INFO))
  {
    var i := 1 + |Print(items)|;
    var line := [Known(KInfo)] + Print(items) + ([Known(KPv)] + moves);
    assert line[0] == Known(KInfo) && line[1..i] == Print(items);
    assert line[i] == Known(KPv) && line[i + 1..] == moves;
    ParsePrinted(line, 1, items, NO_INFO);
    var short := [Known(KInfo)] + Print(items);
    assert short[0] == Known(KInfo) && short[1..i] == Print(items);
    ParsePrinted(short, 1, items, NO_INFO);
  }

  // The items of a record, in the order engines print them.
  function Items(info: Info): (items: seq<Item>)
    ensures WellFormed(items)
  {
    (if info.depth.Some? then [Depth(info.depth.value)] else []) +
    (if info.multipv.Some? then [MultiPv(info.multipv.value)] else []) +
    (if info.cp.Some? then [Cp(info.cp.value)] else []) +
    (if info.mate.Some? then [Mate(info.mate.value)] else []) +
    (if info.wdl.Some? then [Wdl(info.wdl.value.0, info.wdl.value.1, info.wdl.value.2)] else [])
  }

  lemma {:induction false} ReadJoin(a: seq<Item>, b: seq<Item>, info: Info)
    ensures Read(a + b, info) == Read(b, Read(a, info))
  {
    if a == [] {
      assert a + b == b;
    } else {
      assert (a + b)[1..] == a[1..] + b;
      ReadJoin(a[1..], b, Put(a[0], info));
    }
  }

  lemma ReadItems(info: Info)
    ensures Read(Items(info), NO_INFO) == info.(pv := None)
  {
    var a := if info.depth.Some? then [Depth(info.depth.value)] else [];
    var b := if info.multipv.Some? then [MultiPv(info.multipv.value)] else [];
    var c := if info.cp.Some? then [Cp(info.cp.value)] else [];
    var d := if info.mate.Some? then [Mate(info.mate.value)] else [];
    var e := if info.wdl.Some? then [Wdl(info.wdl.value.0, info.wdl.value.1, info.wdl.value.2)] else [];
    ReadJoin(a + b + c + d, e, NO_INFO);
    ReadJoin(a + b + c, d, NO_INFO);
    ReadJoin(a + b, c, NO_INFO);
    ReadJoin(a, b, NO_INFO);
  }

  // Unknown words change nothing wherever they stand between the fields.
  lemma {:induction false} UnknownWordsAreSkipped(items: seq<Item>, info: Info, k: nat)
    requires k < |items| && items[k].Unknown?
    ensures Read(items, info) == Read(items[..k] + items[k + 1..], info)
  {
    assert items == items[..k] + ([items[k]] + items[k + 1..]);
    ReadJoin(items[..k], [items[k]] + items[k + 1..], info);
    ReadJoin(items[..k], items[k + 1..], info);
    assert ([items[k]] + items[k + 1..])[1..] == items[k + 1..];
  }

  // Printing a record and parsing the line gives the record back.
  lemma RoundTrip(info: Info)
    requires info.pv.Some?
    ensures Parse([Known(KInfo)] + Print(Items(info)) + ([Known(KPv)] + info.pv.value)) == Some(info)
  {
    ParseInvertsPrint(Items(info), info.pv.value);
    ReadItems(info);
  }

  /* ---------- collecting the lines ---------- */

  function Slot(info: Info): int {
    if info.multipv.Some? then info.multipv.value else 1
  }

  // Pads with empty records, then stores by Python's rules: an index below zero
  // counts from the end. None is the IndexError.
  function Stored(lines: seq<Info>, info: Info): Option<seq<Info>> {
    var slot := Slot(info);
    var padded := if |lines| < slot then lines + seq(slot - |lines|, _ => NO_INFO) else lines;
    if slot >= 1 then Some(padded[slot - 1 := info])
    else if 1 - slot <= |padded| then Some(padded[|padded| - (1 - slot) := info])
    else None
  }

  method Store(lines: seq<Info>, info: Info) returns (r: Option<seq<Info>>)
    ensures r == Stored(lines, info)
  {
    var slot := Slot(info);
    var padded := lines;
    while |padded| < slot
      invariant |padded| <= slot || padded == lines
      invariant |padded| >= |lines| && padded == lines + seq(|padded| - |lines|, _ => NO_INFO)
    {
      padded := padded + [NO_INFO];
    }
    if slot >= 1 {
      return Some(padded[slot - 1 := info]);
    } else if 1 - slot <= |padded| {
      return Some(padded[|padded| - (1 - slot) := info]);
    }
    return None;
  }

  // The records a search leaves after the lines heard so far.
  function Collected(heard: seq<seq<Token>>): Option<seq<Info>> {
    if heard == [] then Some([])
    else
      var lines, info := Collected(heard[..|heard| - 1]), Parse(heard[|heard| - 1]);
      if lines == None || info == None then None
      else if info.value.pv.Some? then Stored(lines.value, info.value)
      else lines
  }

  // A line that carries the variation numbered i + 1; a variation without a number is
  // the first.
  predicate ForSlot(line: seq<Token>, i: nat) {
    && Parse(line).Some? && Parse(line).value.pv.Some?
    && match Parse(line).value.multipv
       case Some(number) => number == i + 1
       case None => i == 0
  }

  // A line that numbers from one, if it carries a variation.
  predicate Numbered(line: seq<Token>) {
    && Parse(line).Some?
    && (Parse(line).value.pv.Some? && Parse(line).value.multipv.Some? ==> Parse(line).value.multipv.value >= 1)
  }

  // The last line heard for slot i, and the highest slot heard of.
  function LastFor(heard: seq<seq<Token>>, i: nat): Info {
    if heard == [] then NO_INFO
    else if ForSlot(heard[|heard| - 1], i) then Parse(heard[|heard| - 1]).value
    else LastFor(heard[..|heard| - 1], i)
  }

  function Highest(heard: seq<seq<Token>>): nat {
    if heard == [] then 0
    else
      var before, line := Highest(heard[..|heard| - 1]), Parse(heard[|heard| - 1]);
      if line.Some? && line.value.pv.Some? && Slot(line.value) > before then Slot(line.value) else before
  }

  // With well-formed lines, numbered from one, record i is the last one heard for
  // it, and the list is as long as the highest number.
  lemma {:induction false} EachSlotHoldsItsLastLine(heard: seq<seq<Token>>)
    requires forall k | 0 <= k < |heard| :: Numbered(heard[k])
    ensures Collected(heard).Some? && |Collected(heard).value| == Highest(heard)
    ensures forall i | 0 <= i < Highest(heard) :: Collected(heard).value[i] == LastFor(heard, i)
  {
    if heard != [] {
      var before, last := heard[..|heard| - 1], heard[|heard| - 1];
      EachSlotHoldsItsLastLine(before);
      assert Numbered(last);
      forall i | Highest(before) <= i < Highest(heard)
        ensures LastFor(before, i) == NO_INFO
      {
        NothingAboveTheHighest(before, i);
      }
    }
  }

  lemma {:induction false} NothingAboveTheHighest(heard: seq<seq<Token>>, i: nat)
    requires Highest(heard) <= i
    ensures LastFor(heard, i) == NO_INFO
  {
    if heard != [] {
      NothingAboveTheHighest(heard[..|heard| - 1], i);
    }
  }

  // `LastFor` is the last: a line for slot i with none for slot i after it; without
  // any the record is empty.
  lemma {:induction false} LastForIsTheLast(heard: seq<seq<Token>>, i: nat, k: int)
    requires -1 <= k < |heard| && (k >= 0 ==> ForSlot(heard[k], i))
    requires forall j | k < j < |heard| :: !ForSlot(heard[j], i)
    ensures LastFor(heard, i) == if k >= 0 then Parse(heard[k]).value else NO_INFO
  {
    if k < |heard| - 1 {
      LastForIsTheLast(heard[..|heard| - 1], i, k);
    }
  }
}
