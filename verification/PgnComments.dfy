/**
 Section 5 of the PGN standard knows two kinds of comment: from a semicolon to the
 end of the line and from a left brace to the next right brace. Brace comments do
 not nest, a brace in a semicolon comment means nothing, and neither does a
 semicolon in a brace comment. `_strip_comments_and_ravs` first matches all braces
 and then looks for semicolons; here is when it reads a text as the standard does.
 */
module PgnComments {
  import opened Options
  import opened MovetextStripping
  import opened BraceComments

  type Extent = (nat, nat)

  predicate Newline(c: char) { c == '\r' || c == '\n' }

  /* ---------- the reading of the standard ---------- */

  function StandardText(s: string, i: nat): string
    requires i <= |s|
    decreases |s| - i
  {
    if i == |s| then []
    else if s[i] == ';' then [' '] + StandardText(s, LineEnd(s, i + 1))
    else
      var end := if s[i] == '{' then NextClose(s, i + 1) else None;
      if end.Some? then [' '] + StandardText(s, end.value + 1) else [s[i]] + StandardText(s, i + 1)
  }

  // Where the comments begin and end.
  function StandardComments(s: string, i: nat): (cs: seq<Extent>)
    requires i <= |s|
    ensures Placed(s, i, cs)
    decreases |s| - i
  {
    if i == |s| then []
    else if s[i] == ';' then
      var end := LineEnd(s, i + 1);
      [(i, end)] + StandardComments(s, end)
    else
      var end := if s[i] == '{' then NextClose(s, i + 1) else None;
      if end.Some? then [(i, end.value + 1)] + StandardComments(s, end.value + 1)
      else
        PlacedLater(s, i, StandardComments(s, i + 1));
        StandardComments(s, i + 1)
  }

  // Extents one after the other, from i on.
  predicate Placed(s: string, i: nat, cs: seq<Extent>)
    decreases |cs|
  {
    cs == [] || (i <= cs[0].0 < cs[0].1 <= |s| && Placed(s, cs[0].1, cs[1..]))
  }

  lemma PlacedLater(s: string, i: nat, cs: seq<Extent>)
    requires Placed(s, i + 1, cs)
    ensures Placed(s, i, cs)
  {
  }

  /* ---------- the reading of the code ---------- */

  // The right brace that the stack matches with the `depth + 1`-st left brace before i.
  function Partner(s: string, i: nat, depth: nat): (end: Option<nat>)
    requires i <= |s|
    ensures end.Some? ==> i <= end.value < |s| && s[end.value] == '}'
    decreases |s| - i
  {
    if i == |s| then None
    else if s[i] == '{' then Partner(s, i + 1, depth + 1)
    else if s[i] != '}' then Partner(s, i + 1, depth)
    else if depth == 0 then Some(i)
    else Partner(s, i + 1, depth - 1)
  }

  // The end of the line once the matched groups have gone from it.
  function CodeLineEnd(s: string, i: nat): (end: nat)
    requires i <= |s|
    ensures i <= end <= |s|
    decreases |s| - i
  {
    if i == |s| || Newline(s[i]) then i
    else
      var r := if s[i] == '{' then Partner(s, i + 1, 0) else None;
      CodeLineEnd(s, if r.Some? then r.value + 1 else i + 1)
  }

  function CodeText(s: string, i: nat): string
    requires i <= |s|
    decreases |s| - i
  {
    if i == |s| then []
    else if s[i] == ';' then [' '] + CodeText(s, CodeLineEnd(s, i + 1))
    else
      var r := if s[i] == '{' then Partner(s, i + 1, 0) else None;
      if r.Some? then [' '] + CodeText(s, r.value + 1) else [s[i]] + CodeText(s, i + 1)
  }

  function CodeComments(s: string, i: nat): (cs: seq<Extent>)
    requires i <= |s|
    ensures Placed(s, i, cs)
    decreases |s| - i
  {
    if i == |s| then []
    else if s[i] == ';' then
      var end := CodeLineEnd(s, i + 1);
      [(i, end)] + CodeComments(s, end)
    else
      var r := if s[i] == '{' then Partner(s, i + 1, 0) else None;
      if r.Some? then [(i, r.value + 1)] + CodeComments(s, r.value + 1)
      else
        PlacedLater(s, i, CodeComments(s, i + 1));
        CodeComments(s, i + 1)
  }

  /* ---------- the stack pass, one character at a time ---------- */

  function Braceless(s: string): string {
    Matched(s, '{', '}')
  }

  lemma {:induction false} RunBase(pre: string, stack: seq<string>, s: string)
    requires stack != []
    ensures var end := Run(stack, s, '{', '}');
            Run(stack[0 := pre + stack[0]], s, '{', '}') == end[0 := pre + end[0]]
    decreases |s|
  {
    if s != [] {
      PushBase(pre, stack, s[0]);
      RunBase(pre, Push(stack, s[0], '{', '}'), s[1..]);
    }
  }

  lemma PushBase(pre: string, stack: seq<string>, c: char)
    requires stack != []
    ensures var next := Push(stack, c, '{', '}');
            Push(stack[0 := pre + stack[0]], c, '{', '}') == next[0 := pre + next[0]]
  {
    if |stack| == 1 {
      Associative(pre, stack[0], [c]);
    } else if |stack| == 2 {
      Associative(pre, stack[0], [' ']);
    }
  }

  lemma {:induction false} JoinBase(pre: string, stack: seq<string>)
    requires stack != []
    ensures Join(stack[0 := pre + stack[0]], '{') == pre + Join(stack, '{')
  {
    if |stack| > 1 {
      var last := |stack| - 1;
      JoinBase(pre, stack[..last]);
      assert stack[0 := pre + stack[0]][..last] == stack[..last][0 := pre + stack[0]];
      var below := Join(stack[..last], '{');
      assert pre + below + ['{'] + stack[last] == pre + (below + ['{'] + stack[last]);
    }
  }

  lemma BracelessHead(c: char, rest: string)
    requires c != '{'
    ensures Braceless([c] + rest) == [c] + Braceless(rest)
  {
    RunHead([[]], c, rest, '{', '}');
    assert [] + [c] == [c] && [c] + [] == [c];
    RunBase([c], [[]], rest);
    JoinBase([c], Run([[]], rest, '{', '}'));
  }

  lemma {:induction false} NestedBetween(s: string, i: nat, depth: nat, r: nat)
    requires i <= |s| && Partner(s, i, depth) == Some(r)
    ensures Nested(s[i..r], depth, '{', '}')
    decreases |s| - i
  {
    if i < r {
      var next := if s[i] == '{' then depth + 1 else if s[i] == '}' then depth - 1 else depth;
      assert s[i..r][1..] == s[i + 1..r];
      NestedBetween(s, i + 1, next, r);
    }
  }

  lemma BracelessGroup(s: string, i: nat, r: nat)
    requires i < |s| && s[i] == '{' && Partner(s, i + 1, 0) == Some(r)
    ensures Braceless(s[i..]) == [' '] + Braceless(s[r + 1..])
  {
    NestedBetween(s, i + 1, 0, r);
    GroupText(s, i, r, '{', '}');
    GroupIsASpace(s[i + 1..r], s[r + 1..]);
    BracelessHead(' ', s[r + 1..]);
  }

  lemma GroupIsASpace(group: string, rest: string)
    requires Nested(group, 0, '{', '}')
    ensures Braceless(['{'] + (group + (['}'] + rest))) == Braceless([' '] + rest)
  {
    GroupBecomesASpace([], group, rest, '{', '}');
    GroupInside([], group, rest, '{', '}');
    NothingBefore(['{'] + (group + (['}'] + rest)));
    NothingBefore([' ']);
  }

  lemma NothingBefore(s: string)
    ensures [] + s == s
  {
  }

  lemma {:induction false} RunAbove(low: string, stack: seq<string>, s: string, i: nat)
    requires stack != [] && i <= |s| && Partner(s, i, |stack| - 1) == None
    ensures Run([low] + stack, s[i..], '{', '}') == [low] + Run(stack, s[i..], '{', '}')
    decreases |s| - i
  {
    if i < |s| {
      SuffixHead(s, i);
      PushAbove(low, stack, s[i]);
      RunHead([low] + stack, s[i], s[i + 1..], '{', '}');
      RunHead(stack, s[i], s[i + 1..], '{', '}');
      RunAbove(low, Push(stack, s[i], '{', '}'), s, i + 1);
    }
  }

  lemma PushAbove(low: string, stack: seq<string>, c: char)
    requires stack != [] && (c == '}' ==> |stack| > 1)
    ensures Push([low] + stack, c, '{', '}') == [low] + Push(stack, c, '{', '}')
    ensures |Push(stack, c, '{', '}')| == |stack| + (if c == '{' then 1 else if c == '}' then -1 else 0)
  {
    if c == '}' {
      assert ([low] + stack)[..|stack|] == [low] + stack[..|stack| - 1];
    }
  }

  lemma {:induction false} JoinAbove(low: string, stack: seq<string>)
    requires stack != []
    ensures Join([low] + stack, '{') == low + ['{'] + Join(stack, '{')
  {
    var last := |stack| - 1;
    assert ([low] + stack)[..|stack|] == [low] + stack[..last];
    if last > 0 {
      JoinAbove(low, stack[..last]);
      var below := Join(stack[..last], '{');
      assert low + ['{'] + below + ['{'] + stack[last] == low + ['{'] + (below + ['{'] + stack[last]);
    } else {
      assert [low] + stack[..0] == [low];
    }
  }

  lemma BracelessOpen(s: string, i: nat)
    requires i < |s| && s[i] == '{' && Partner(s, i + 1, 0) == None
    ensures Braceless(s[i..]) == ['{'] + Braceless(s[i + 1..])
  {
    SuffixHead(s, i);
    var empty: seq<string> := [[]];
    RunHead(empty, '{', s[i + 1..], '{', '}');
    assert Push(empty, '{', '{', '}') == [[]] + empty;
    RunAbove([], empty, s, i + 1);
    JoinAbove([], Run([[]], s[i + 1..], '{', '}'));
    assert [] + ['{'] == ['{'];
  }

  // All three cases.
  lemma BracelessShape(s: string, i: nat, r: Option<nat>)
    requires i < |s| && r == if s[i] == '{' then Partner(s, i + 1, 0) else None
    ensures Braceless(s[i..]) == if r.Some? then [' '] + Braceless(s[r.value + 1..]) else [s[i]] + Braceless(s[i + 1..])
  {
    if r.Some? {
      BracelessGroup(s, i, r.value);
    } else if s[i] == '{' {
      BracelessOpen(s, i);
    } else {
      SuffixHead(s, i);
      BracelessHead(s[i], s[i + 1..]);
    }
  }

  lemma BracelessOfNothing(s: string)
    ensures s[|s|..] == [] && Braceless([]) == []
  {
  }

  /* ---------- the code computes its reading ---------- */

  lemma {:induction false} LineEndShift(pre: string, t: string, i: nat)
    requires i <= |t|
    ensures LineEnd(pre + t, |pre| + i) == |pre| + LineEnd(t, i)
    decreases |t| - i
  {
    if i < |t| && !Newline(t[i]) {
      LineEndShift(pre, t, i + 1);
    }
  }

  lemma {:induction false} StripShift(pre: string, t: string, i: nat)
    requires i <= |t|
    ensures StripLineComments(pre + t, |pre| + i) == StripLineComments(t, i)
    decreases |t| - i
  {
    if i < |t| {
      if t[i] == ';' {
        LineEndShift(pre, t, i + 1);
        StripShift(pre, t, LineEnd(t, i + 1));
      } else {
        StripShift(pre, t, i + 1);
      }
    }
  }

  lemma LineEndHead(c: char, t: string)
    ensures LineEnd([c] + t, 0) == if Newline(c) then 0 else 1 + LineEnd(t, 0)
  {
    LineEndShift([c], t, 0);
  }

  lemma StripHead(c: char, t: string)
    requires c != ';'
    ensures StripLineComments([c] + t, 0) == [c] + StripLineComments(t, 0)
  {
    StripShift([c], t, 0);
  }

  lemma StripComment(t: string)
    ensures StripLineComments([';'] + t, 0) == [' '] + StripLineComments(t[LineEnd(t, 0)..], 0)
  {
    var end := LineEnd(t, 0);
    LineEndShift([';'], t, 0);
    StripShift([';'], t, end);
    StripShift(t[..end], t[end..], 0);
    assert t[..end] + t[end..] == t;
  }

  lemma {:induction false} SkipLine(s: string, i: nat)
    requires i <= |s|
    ensures SkipsLine(s, i, CodeLineEnd(s, i))
    decreases |s| - i
  {
    if i == |s| {
      BracelessOfNothing(s);
    } else {
      var r := if s[i] == '{' then Partner(s, i + 1, 0) else None;
      var next := if r.Some? then r.value + 1 else i + 1;
      SkipLine(s, next);
      BracelessShape(s, i, r);
      SkipLineOver(s, i, if r.Some? then ' ' else s[i], next, CodeLineEnd(s, next));
    }
  }

  ghost predicate SkipsLine(s: string, i: nat, end: nat)
    requires i <= |s| && end <= |s|
  {
    SkipsTo(Braceless(s[i..]), Braceless(s[end..]))
  }

  // What follows the first line of t.
  ghost predicate SkipsTo(t: string, rest: string) {
    t[LineEnd(t, 0)..] == rest
  }

  lemma SkipLineOver(s: string, i: nat, c: char, next: nat, end: nat)
    requires i <= |s| && next <= |s| && end <= |s| && Braceless(s[i..]) == [c] + Braceless(s[next..])
    requires SkipsLine(s, next, end)
    ensures SkipsLine(s, i, if Newline(c) then i else end)
  {
    SkipOver(Braceless(s[i..]), c, Braceless(s[next..]), Braceless(s[end..]));
  }

  lemma SkipOver(u: string, c: char, t: string, rest: string)
    requires u == [c] + t && SkipsTo(t, rest)
    ensures SkipsTo(u, if Newline(c) then u else rest)
  {
    SkipHead(c, t, rest);
  }

  lemma SkipHead(c: char, t: string, rest: string)
    requires SkipsTo(t, rest)
    ensures SkipsTo([c] + t, if Newline(c) then [c] + t else rest)
  {
    LineEndHead(c, t);
  }

  lemma ReadsLineComment(s: string, i: nat)
    requires i < |s| && s[i] == ';'
    requires var end := CodeLineEnd(s, i + 1); StripLineComments(Braceless(s[end..]), 0) == CodeText(s, end)
    ensures StripLineComments(Braceless(s[i..]), 0) == CodeText(s, i)
  {
    BracelessShape(s, i, None);
    SkipLine(s, i + 1);
    StripComment(Braceless(s[i + 1..]));
  }

  lemma ReadsOther(s: string, i: nat, r: Option<nat>, next: nat)
    requires i < |s| && s[i] != ';' && r == if s[i] == '{' then Partner(s, i + 1, 0) else None
    requires next == if r.Some? then r.value + 1 else i + 1
    requires StripLineComments(Braceless(s[next..]), 0) == CodeText(s, next)
    ensures StripLineComments(Braceless(s[i..]), 0) == CodeText(s, i)
  {
    BracelessShape(s, i, r);
    StripHead(if r.Some? then ' ' else s[i], Braceless(s[next..]));
  }

  lemma {:induction false} CodeReads(s: string, i: nat)
    requires i <= |s|
    ensures StripLineComments(Braceless(s[i..]), 0) == CodeText(s, i)
    decreases |s| - i
  {
    if i == |s| {
      BracelessOfNothing(s);
    } else if s[i] == ';' {
      CodeReads(s, CodeLineEnd(s, i + 1));
      ReadsLineComment(s, i);
    } else {
      var r := if s[i] == '{' then Partner(s, i + 1, 0) else None;
      var next := if r.Some? then r.value + 1 else i + 1;
      CodeReads(s, next);
      ReadsOther(s, i, r, next);
    }
  }

  /* ---------- both results are the text without its comments ---------- */

  function Blank(s: string, i: nat, cs: seq<Extent>): string
    requires i <= |s| && Placed(s, i, cs)
    decreases |cs|
  {
    if cs == [] then s[i..] else s[i..cs[0].0] + [' '] + Blank(s, cs[0].1, cs[1..])
  }

  lemma BlankOther(s: string, i: nat, cs: seq<Extent>)
    requires i < |s| && Placed(s, i + 1, cs)
    ensures Placed(s, i, cs) && Blank(s, i, cs) == [s[i]] + Blank(s, i + 1, cs)
  {
    if cs == [] {
      SuffixHead(s, i);
    } else {
      assert s[i..cs[0].0] == [s[i]] + s[i + 1..cs[0].0];
      var rest := Blank(s, cs[0].1, cs[1..]);
      assert [s[i]] + s[i + 1..cs[0].0] + [' '] + rest == [s[i]] + (s[i + 1..cs[0].0] + [' '] + rest);
    }
  }

  lemma BlankComment(s: string, i: nat, end: nat, rest: seq<Extent>)
    requires i < end <= |s| && Placed(s, end, rest)
    ensures Placed(s, i, [(i, end)] + rest) && Blank(s, i, [(i, end)] + rest) == [' '] + Blank(s, end, rest)
  {
    assert ([(i, end)] + rest)[1..] == rest;
    assert s[i..i] + [' '] == [' '];
  }

  // Where the comment that begins at i ends, in either reading.
  function StandardEnd(s: string, i: nat): Option<nat>
    requires i < |s|
  {
    if s[i] == ';' then Some(LineEnd(s, i + 1))
    else if s[i] == '{' && NextClose(s, i + 1).Some? then Some(NextClose(s, i + 1).value + 1)
    else None
  }

  function CodeEnd(s: string, i: nat): Option<nat>
    requires i < |s|
  {
    if s[i] == ';' then Some(CodeLineEnd(s, i + 1))
    else if s[i] == '{' && Partner(s, i + 1, 0).Some? then Some(Partner(s, i + 1, 0).value + 1)
    else None
  }

  // One step of either reading.
  lemma StandardStep(s: string, i: nat, end: Option<nat>)
    requires i < |s| && end == StandardEnd(s, i)
    ensures end.Some? ==> i < end.value <= |s|
    ensures StandardText(s, i) ==
            if end.Some? then [' '] + StandardText(s, end.value) else [s[i]] + StandardText(s, i + 1)
    ensures StandardComments(s, i) ==
            if end.Some? then [(i, end.value)] + StandardComments(s, end.value) else StandardComments(s, i + 1)
  {
  }

  lemma CodeStep(s: string, i: nat, end: Option<nat>)
    requires i < |s| && end == CodeEnd(s, i)
    ensures end.Some? ==> i < end.value <= |s|
    ensures CodeText(s, i) == if end.Some? then [' '] + CodeText(s, end.value) else [s[i]] + CodeText(s, i + 1)
    ensures CodeComments(s, i) ==
            if end.Some? then [(i, end.value)] + CodeComments(s, end.value) else CodeComments(s, i + 1)
  {
  }

  lemma {:induction false} StandardIsBlanked(s: string, i: nat)
    requires i <= |s|
    ensures StandardText(s, i) == Blank(s, i, StandardComments(s, i))
    decreases |s| - i
  {
    if i < |s| {
      var end := StandardEnd(s, i);
      StandardStep(s, i, end);
      if end.Some? {
        StandardIsBlanked(s, end.value);
        BlankComment(s, i, end.value, StandardComments(s, end.value));
      } else {
        StandardIsBlanked(s, i + 1);
        BlankOther(s, i, StandardComments(s, i + 1));
      }
    }
  }

  lemma {:induction false} CodeIsBlanked(s: string, i: nat)
    requires i <= |s|
    ensures CodeText(s, i) == Blank(s, i, CodeComments(s, i))
    decreases |s| - i
  {
    if i < |s| {
      var end := CodeEnd(s, i);
      CodeStep(s, i, end);
      if end.Some? {
        CodeIsBlanked(s, end.value);
        BlankComment(s, i, end.value, CodeComments(s, end.value));
      } else {
        CodeIsBlanked(s, i + 1);
        BlankOther(s, i, CodeComments(s, i + 1));
      }
    }
  }

  // The result of the code is the text with the comments it finds made spaces.
  lemma ResultIsBlankedText(s: string)
    ensures StripLineComments(Matched(s, '{', '}'), 0) == Blank(s, 0, CodeComments(s, 0))
  {
    assert s[0..] == s;
    CodeReads(s, 0);
    CodeIsBlanked(s, 0);
  }

  // So a parenthesis in a comment neither opens nor closes a side line.
  lemma SideLinesAreOutsideComments(text: string)
    ensures Stripped(text) == Matched(Blank(text, 0, CodeComments(text, 0)), '(', ')')
  {
    ResultIsBlankedText(text);
  }

  /* ---------- when they find the same comments ---------- */

  // No left brace inside a brace comment.
  predicate Plain(s: string, c: Extent)
    requires c.0 < c.1 <= |s|
  {
    s[c.0] == '{' ==> '{' !in s[c.0 + 1..c.1]
  }

  // No left brace inside a semicolon comment is matched beyond the line.
  predicate Short(s: string, c: Extent)
    requires c.0 < c.1 <= |s|
  {
    s[c.0] == ';' ==> StaysOnLine(s, c.0 + 1, c.1)
  }

  predicate StaysOnLine(s: string, i: nat, end: nat)
    requires end <= |s|
  {
    forall q | i <= q < end && s[q] == '{' :: Partner(s, q + 1, 0).Some? ==> Partner(s, q + 1, 0).value < end
  }

  predicate AllPlain(s: string, i: nat, cs: seq<Extent>)
    requires Placed(s, i, cs)
    decreases |cs|
  {
    cs == [] || (Plain(s, cs[0]) && AllPlain(s, cs[0].1, cs[1..]))
  }

  predicate AllShort(s: string, i: nat, cs: seq<Extent>)
    requires Placed(s, i, cs)
    decreases |cs|
  {
    cs == [] || (Short(s, cs[0]) && AllShort(s, cs[0].1, cs[1..]))
  }

  lemma {:induction false} PartnerOfPlain(s: string, i: nat, depth: nat, end: nat)
    requires i <= end < |s| && s[end] == '}' && '}' !in s[i..end]
    ensures Partner(s, i, depth) == Some(end) <==> depth == 0 && '{' !in s[i..end]
    ensures Partner(s, i, depth).Some? ==> Partner(s, i, depth).value >= end
    decreases end - i
  {
    if i < end {
      assert s[i..end] == [s[i]] + s[i + 1..end];
      PartnerOfPlain(s, i + 1, if s[i] == '{' then depth + 1 else depth, end);
    } else if depth > 0 {
      assert Partner(s, i, depth) == Partner(s, i + 1, depth - 1);
    }
  }

  // A deeper search finds its end through the ends of the shallower ones.
  lemma {:induction false} PartnerSplit(s: string, i: nat, inner: nat, depth: nat, r: nat) returns (r1: nat)
    requires i <= |s| && Partner(s, i, inner + 1 + depth) == Some(r)
    ensures i <= r1 < r && Partner(s, i, inner) == Some(r1) && Partner(s, r1 + 1, depth) == Some(r)
    decreases |s| - i
  {
    if s[i] == '{' {
      r1 := PartnerSplit(s, i + 1, inner + 1, depth, r);
    } else if s[i] != '}' {
      r1 := PartnerSplit(s, i + 1, inner, depth, r);
    } else if inner > 0 {
      r1 := PartnerSplit(s, i + 1, inner - 1, depth, r);
    } else {
      r1 := i;
    }
  }

  // Everything between a left brace and its partner is still to be closed by it.
  lemma {:induction false} DepthAt(s: string, i: nat, depth: nat, r: nat, k: nat) returns (d: nat)
    requires i <= k <= r < |s| && Partner(s, i, depth) == Some(r)
    ensures Partner(s, k, d) == Some(r)
    decreases k - i
  {
    if i == k {
      d := depth;
    } else {
      var next := if s[i] == '{' then depth + 1 else if s[i] == '}' then depth - 1 else depth;
      d := DepthAt(s, i + 1, next, r, k);
    }
  }

  lemma PartnerInside(s: string, i: nat, r: nat, q: nat)
    requires i <= q < r < |s| && Partner(s, i, 0) == Some(r) && s[q] == '{'
    ensures Partner(s, q + 1, 0).Some? && Partner(s, q + 1, 0).value < r
  {
    var d := DepthAt(s, i, 0, r, q);
    assert Partner(s, q, d) == Partner(s, q + 1, d + 1);
    var r1 := PartnerSplit(s, q + 1, 0, d, r);
  }

  lemma {:induction false} LineEndOnLine(s: string, i: nat, k: nat)
    requires i <= |s| && i <= k <= LineEnd(s, i)
    ensures LineEnd(s, k) == LineEnd(s, i)
    decreases k - i
  {
    if i < k {
      LineEndOnLine(s, i + 1, k);
    }
  }

  lemma GroupStaysOnLine(s: string, i: nat, r: nat, end: nat)
    requires i < r < end <= |s| && s[i] == '{' && Partner(s, i + 1, 0) == Some(r)
    ensures StaysOnLine(s, i, end) <==> StaysOnLine(s, r + 1, end)
  {
    forall q | i <= q <= r && s[q] == '{'
      ensures Partner(s, q + 1, 0).Some? && Partner(s, q + 1, 0).value < end
    {
      if q > i {
        PartnerInside(s, i + 1, r, q);
      }
    }
  }

  lemma GroupCrosses(s: string, i: nat, r: nat, end: nat)
    requires i < end <= r < |s| && s[i] == '{' && Partner(s, i + 1, 0) == Some(r)
    ensures !StaysOnLine(s, i, end)
  {
  }

  lemma OtherStaysOnLine(s: string, i: nat, end: nat)
    requires i < end <= |s| && (s[i] == '{' ==> Partner(s, i + 1, 0) == None)
    ensures StaysOnLine(s, i, end) <==> StaysOnLine(s, i + 1, end)
  {
  }

  lemma LineEndShape(s: string, i: nat)
    requires i <= |s|
    ensures LineEnd(s, i) == if i == |s| || Newline(s[i]) then i else LineEnd(s, i + 1)
  {
  }

  lemma CodeLineEndShape(s: string, i: nat, r: Option<nat>)
    requires i < |s| && r == if s[i] == '{' then Partner(s, i + 1, 0) else None
    ensures CodeLineEnd(s, i) ==
            if Newline(s[i]) then i else CodeLineEnd(s, if r.Some? then r.value + 1 else i + 1)
  {
  }

  // The code's line comment ends with the line exactly if no group in it crosses.
  lemma {:induction false} SameLineEnd(s: string, i: nat)
    requires i <= |s|
    ensures SameLine(s, i, LineEnd(s, i), CodeLineEnd(s, i))
    decreases |s| - i
  {
    var end := LineEnd(s, i);
    LineEndShape(s, i);
    if i < end {
      var r := if s[i] == '{' then Partner(s, i + 1, 0) else None;
      CodeLineEndShape(s, i, r);
      if r == None {
        SameLineEnd(s, i + 1);
        OtherStaysOnLine(s, i, end);
      } else if r.value < end {
        LineEndOnLine(s, i, r.value + 1);
        SameLineEnd(s, r.value + 1);
        GroupStaysOnLine(s, i, r.value, end);
      } else {
        GroupCrosses(s, i, r.value, end);
      }
    }
  }

  ghost predicate SameLine(s: string, i: nat, end: nat, codeEnd: nat)
    requires end <= |s|
  {
    codeEnd >= end && (codeEnd == end <==> StaysOnLine(s, i, end))
  }

  lemma SameHeads(i: nat, a: nat, x: seq<Extent>, b: nat, y: seq<Extent>)
    ensures [(i, a)] + x == [(i, b)] + y <==> a == b && x == y
  {
    assert ([(i, a)] + x)[1..] == x && ([(i, b)] + y)[1..] == y;
    assert ([(i, a)] + x)[0] == (i, a) && ([(i, b)] + y)[0] == (i, b);
  }

  lemma AllTail(s: string, i: nat, end: nat, rest: seq<Extent>)
    requires i < end <= |s| && Placed(s, end, rest)
    ensures Placed(s, i, [(i, end)] + rest)
    ensures AllPlain(s, i, [(i, end)] + rest) <==> Plain(s, (i, end)) && AllPlain(s, end, rest)
    ensures AllShort(s, i, [(i, end)] + rest) <==> Short(s, (i, end)) && AllShort(s, end, rest)
  {
    assert ([(i, end)] + rest)[1..] == rest;
  }

  lemma AllLater(s: string, i: nat, cs: seq<Extent>)
    requires i < |s| && Placed(s, i + 1, cs)
    ensures Placed(s, i, cs)
    ensures AllPlain(s, i, cs) <==> AllPlain(s, i + 1, cs)
    ensures AllShort(s, i, cs) <==> AllShort(s, i + 1, cs)
  {
  }

  lemma PartnerIsAhead(s: string, i: nat, depth: nat)
    requires i <= |s|
    ensures Partner(s, i, depth).Some? ==> '}' in s[i..]
  {
    var r := Partner(s, i, depth);
    if r.Some? {
      assert s[i..][r.value - i] == '}';
    }
  }

  lemma {:induction false} SameCommentsFrom(s: string, i: nat)
    requires i <= |s|
    ensures var cs := StandardComments(s, i);
            cs == CodeComments(s, i) <==> AllPlain(s, i, cs) && AllShort(s, i, cs)
    decreases |s| - i
  {
    if i < |s| {
      if s[i] == ';' {
        SameAtSemicolon(s, i);
      } else if s[i] == '{' {
        SameAtBrace(s, i);
      } else {
        SameCommentsFrom(s, i + 1);
        AllLater(s, i, StandardComments(s, i + 1));
      }
    }
  }

  lemma {:induction false} SameAtSemicolon(s: string, i: nat)
    requires i < |s| && s[i] == ';'
    ensures var cs := StandardComments(s, i);
            cs == CodeComments(s, i) <==> AllPlain(s, i, cs) && AllShort(s, i, cs)
    decreases |s| - i, 0
  {
    var end, codeEnd := LineEnd(s, i + 1), CodeLineEnd(s, i + 1);
    SameCommentsFrom(s, end);
    SameLineEnd(s, i + 1);
    SameHeads(i, end, StandardComments(s, end), codeEnd, CodeComments(s, codeEnd));
    AllTail(s, i, end, StandardComments(s, end));
  }

  lemma {:induction false} SameAtBrace(s: string, i: nat)
    requires i < |s| && s[i] == '{'
    ensures var cs := StandardComments(s, i);
            cs == CodeComments(s, i) <==> AllPlain(s, i, cs) && AllShort(s, i, cs)
    decreases |s| - i, 0
  {
    var end, codeEnd := StandardEnd(s, i), CodeEnd(s, i);
    StandardStep(s, i, end);
    CodeStep(s, i, codeEnd);
    if end == None {
      PartnerIsAhead(s, i + 1, 0);
      SameCommentsFrom(s, i + 1);
      AllLater(s, i, StandardComments(s, i + 1));
    } else {
      SameCommentsFrom(s, end.value);
      SameBraceEnd(s, i, end.value);
      AllTail(s, i, end.value, StandardComments(s, end.value));
      if codeEnd.Some? {
        SameHeads(i, end.value, StandardComments(s, end.value), codeEnd.value, CodeComments(s, codeEnd.value));
      } else {
        LaterDiffers(s, i, (i, end.value), StandardComments(s, end.value), CodeComments(s, i + 1));
      }
    }
  }

  lemma SameBraceEnd(s: string, i: nat, end: nat)
    requires i < end <= |s| && s[i] == '{' && StandardEnd(s, i) == Some(end)
    ensures CodeEnd(s, i) == Some(end) <==> Plain(s, (i, end))
    ensures Short(s, (i, end))
  {
    PartnerOfPlain(s, i + 1, 0, end - 1);
    PlainAt(s, i, end - 1);
  }

  lemma LaterDiffers(s: string, i: nat, c: Extent, rest: seq<Extent>, cs: seq<Extent>)
    requires c.0 == i && Placed(s, i + 1, cs)
    ensures [c] + rest != cs
  {
    assert ([c] + rest)[0] == c;
  }

  lemma PlainAt(s: string, i: nat, end: nat)
    requires i < end < |s| && s[end] == '}'
    ensures s[i] == '{' ==> (Plain(s, (i, end + 1)) <==> '{' !in s[i + 1..end])
  {
    assert s[i + 1..end + 1] == s[i + 1..end] + [s[end]];
  }

  // The code finds the comments of section 5 exactly if no left brace stands inside a
  // brace comment, and the stack matches no left brace inside a semicolon comment
  // with a right brace beyond its line.
  lemma SameCommentsExactly(s: string)
    ensures var cs := StandardComments(s, 0);
            CodeComments(s, 0) == cs <==>
            forall k | 0 <= k < |cs| :: cs[k].0 < cs[k].1 <= |s| && Plain(s, cs[k]) && Short(s, cs[k])
  {
    SameCommentsFrom(s, 0);
    EachOne(s, 0, StandardComments(s, 0));
  }

  // The same comments leave the same result.
  lemma SameCommentsSameResult(s: string)
    requires CodeComments(s, 0) == StandardComments(s, 0)
    ensures StripLineComments(Matched(s, '{', '}'), 0) == StandardText(s, 0)
  {
    ResultIsBlankedText(s);
    StandardIsBlanked(s, 0);
  }

  lemma {:induction false} EachOne(s: string, i: nat, cs: seq<Extent>)
    requires Placed(s, i, cs)
    ensures forall k | 0 <= k < |cs| :: i <= cs[k].0 < cs[k].1 <= |s|
    ensures AllPlain(s, i, cs) <==> forall k | 0 <= k < |cs| :: Plain(s, cs[k])
    ensures AllShort(s, i, cs) <==> forall k | 0 <= k < |cs| :: Short(s, cs[k])
    decreases |cs|
  {
    if cs != [] {
      EachOne(s, cs[0].1, cs[1..]);
      assert forall k | 0 < k < |cs| :: cs[k] == cs[1..][k - 1];
    }
  }

  /* ---------- when they leave the same text ---------- */

  function Lines(s: string): nat {
    if s == [] then 0 else Lines(s[1..]) + (if Newline(s[0]) then 1 else 0)
  }

  lemma LinesHead(c: char, t: string)
    ensures Lines([c] + t) == Lines(t) + (if Newline(c) then 1 else 0)
  {
    assert ([c] + t)[1..] == t;
  }

  // Line comments end where lines do, so they take no line.
  lemma {:induction false} StripKeepsLines(t: string, i: nat)
    requires i <= |t|
    ensures Lines(StripLineComments(t, i)) == Lines(t[i..])
    decreases |t| - i
  {
    if i < |t| {
      SuffixHead(t, i);
      if t[i] == ';' {
        var end := LineEnd(t, i + 1);
        StripKeepsLines(t, end);
        LinesToLineEnd(t, i + 1);
        LinesHead(t[i], t[i + 1..]);
        LinesHead(' ', StripLineComments(t, end));
      } else {
        StripKeepsLines(t, i + 1);
        LinesHead(t[i], t[i + 1..]);
        LinesHead(t[i], StripLineComments(t, i + 1));
      }
    }
  }

  lemma {:induction false} LinesToLineEnd(t: string, i: nat)
    requires i <= |t|
    ensures Lines(t[i..]) == Lines(t[LineEnd(t, i)..])
    decreases |t| - i
  {
    if i < |t| && !Newline(t[i]) {
      SuffixHead(t, i);
      LinesHead(t[i], t[i + 1..]);
      LinesToLineEnd(t, i + 1);
    }
  }

  lemma BracelessLines(s: string, i: nat, r: Option<nat>)
    requires i < |s| && r == if s[i] == '{' then Partner(s, i + 1, 0) else None
    ensures Lines(Braceless(s[i..])) ==
            if r.Some? then Lines(Braceless(s[r.value + 1..]))
            else Lines(Braceless(s[i + 1..])) + (if Newline(s[i]) then 1 else 0)
  {
    BracelessShape(s, i, r);
    LinesHead(if r.Some? then ' ' else s[i], Braceless(s[if r.Some? then r.value + 1 else i + 1..]));
  }

  // What a group is still to close adds lines, if anything.
  lemma {:induction false} LinesUpToClose(s: string, i: nat, depth: nat, r: nat)
    requires i <= |s| && Partner(s, i, depth) == Some(r)
    ensures Lines(Braceless(s[r + 1..])) <= Lines(Braceless(s[i..]))
    decreases |s| - i
  {
    if s[i] == '{' {
      var r1 := PartnerSplit(s, i + 1, 0, depth, r);
      BracelessLines(s, i, Some(r1));
      LinesUpToClose(s, r1 + 1, depth, r);
    } else {
      BracelessLines(s, i, None);
      if i < r {
        LinesUpToClose(s, i + 1, if s[i] == '}' then depth - 1 else depth, r);
      }
    }
  }

  lemma LinesOneLess(s: string, i: nat)
    requires i < |s|
    ensures Lines(Braceless(s[i..])) <= Lines(Braceless(s[i + 1..])) + (if Newline(s[i]) then 1 else 0)
  {
    var r := if s[i] == '{' then Partner(s, i + 1, 0) else None;
    BracelessLines(s, i, r);
    if r.Some? {
      LinesUpToClose(s, i + 1, 0, r.value);
    }
  }

  lemma {:induction false} LinesAlongLine(s: string, i: nat, k: nat)
    requires i <= |s| && i <= k <= LineEnd(s, i)
    ensures Lines(Braceless(s[i..])) <= Lines(Braceless(s[k..]))
    decreases k - i
  {
    if i < k {
      LinesOneLess(s, i);
      LinesAlongLine(s, i + 1, k);
    }
  }

  lemma KeepsLinesAtSemicolon(s: string, i: nat)
    requires i < |s| && s[i] == ';'
    requires var end := LineEnd(s, i + 1); Lines(StandardText(s, end)) >= Lines(Braceless(s[end..]))
    ensures Lines(StandardText(s, i)) >= Lines(Braceless(s[i..]))
  {
    var end := LineEnd(s, i + 1);
    LinesOneLess(s, i);
    LinesAlongLine(s, i + 1, end);
    LinesHead(' ', StandardText(s, end));
  }

  lemma KeepsLinesAtGroup(s: string, i: nat, end: nat)
    requires i < end <= |s| && s[i] == '{' && StandardEnd(s, i) == Some(end) && CodeEnd(s, i) == Some(end)
    requires Lines(StandardText(s, end)) >= Lines(Braceless(s[end..]))
    ensures Lines(StandardText(s, i)) >= Lines(Braceless(s[i..]))
  {
    LinesAfterStandardGroup(s, i, end);
    LinesAfterCodeGroup(s, i, end);
  }

  lemma LinesAfterStandardGroup(s: string, i: nat, end: nat)
    requires i < end <= |s| && StandardEnd(s, i) == Some(end)
    ensures Lines(StandardText(s, i)) == Lines(StandardText(s, end))
  {
    StandardStep(s, i, Some(end));
    LinesHead(' ', StandardText(s, end));
  }

  lemma LinesAfterCodeGroup(s: string, i: nat, end: nat)
    requires i < end <= |s| && s[i] == '{' && CodeEnd(s, i) == Some(end)
    ensures Lines(Braceless(s[i..])) == Lines(Braceless(s[end..]))
  {
    BracelessLines(s, i, Some(end - 1));
  }

  lemma KeepsLinesAtOther(s: string, i: nat)
    requires i < |s| && StandardEnd(s, i) == None && Lines(StandardText(s, i + 1)) >= Lines(Braceless(s[i + 1..]))
    ensures Lines(StandardText(s, i)) >= Lines(Braceless(s[i..]))
  {
    LinesOneLess(s, i);
    LinesHead(s[i], StandardText(s, i + 1));
  }

  // Without nesting the standard keeps every line that the stack pass keeps.
  lemma {:induction false} StandardKeepsLines(s: string, i: nat)
    requires i <= |s| && AllPlain(s, i, StandardComments(s, i))
    ensures Lines(StandardText(s, i)) >= Lines(Braceless(s[i..]))
    decreases |s| - i
  {
    if i == |s| {
      BracelessOfNothing(s);
    } else {
      var end := StandardEnd(s, i);
      PlainNext(s, i, end);
      StandardKeepsLines(s, if end.Some? then end.value else i + 1);
      if s[i] == ';' {
        KeepsLinesAtSemicolon(s, i);
      } else if end.Some? {
        PlainGroup(s, i, end.value);
        KeepsLinesAtGroup(s, i, end.value);
      } else {
        KeepsLinesAtOther(s, i);
      }
    }
  }

  lemma PlainNext(s: string, i: nat, end: Option<nat>)
    requires i < |s| && end == StandardEnd(s, i) && AllPlain(s, i, StandardComments(s, i))
    ensures end.Some? ==> i < end.value <= |s| && AllPlain(s, end.value, StandardComments(s, end.value))
    ensures end == None ==> AllPlain(s, i + 1, StandardComments(s, i + 1))
  {
    StandardStep(s, i, end);
    if end.Some? {
      AllTail(s, i, end.value, StandardComments(s, end.value));
    } else {
      AllLater(s, i, StandardComments(s, i + 1));
    }
  }

  lemma PlainFirst(s: string, i: nat, end: nat)
    requires i < end <= |s| && StandardEnd(s, i) == Some(end) && AllPlain(s, i, StandardComments(s, i))
    ensures Plain(s, (i, end))
  {
    StandardStep(s, i, Some(end));
    AllTail(s, i, end, StandardComments(s, end));
  }

  lemma PlainGroup(s: string, i: nat, end: nat)
    requires i < end <= |s| && s[i] == '{' && StandardEnd(s, i) == Some(end) && AllPlain(s, i, StandardComments(s, i))
    ensures CodeEnd(s, i) == Some(end) && Short(s, (i, end))
  {
    PlainFirst(s, i, end);
    SameBraceEnd(s, i, end);
  }

  // A group that crosses the end of a line takes that line, which the standard keeps.
  lemma CrossingGroupTakesALine(s: string, q: nat, r: nat, end: nat)
    requires q < end <= r < |s| && s[q] == '{' && Partner(s, q + 1, 0) == Some(r) && Newline(s[end])
    ensures Lines(Braceless(s[q..])) < Lines(Braceless(s[end..]))
  {
    BracelessLines(s, q, Some(r));
    var d := DepthPast(s, q, r, end);
    NewlineBeforeClose(s, end, d, r);
  }

  lemma NewlineBeforeClose(s: string, end: nat, depth: nat, r: nat)
    requires end < |s| && Newline(s[end]) && Partner(s, end + 1, depth) == Some(r)
    ensures Lines(Braceless(s[r + 1..])) < Lines(Braceless(s[end..]))
  {
    LinesUpToClose(s, end + 1, depth, r);
    BracelessLines(s, end, None);
  }

  lemma DepthPast(s: string, q: nat, r: nat, end: nat) returns (d: nat)
    requires q < end <= r < |s| && Partner(s, q + 1, 0) == Some(r) && Newline(s[end])
    ensures end < r && Partner(s, end + 1, d) == Some(r)
  {
    d := DepthAt(s, q + 1, 0, r, end);
  }

  lemma CrossingTakesALine(s: string, i: nat, q: nat, r: nat)
    requires i < q < |s| && s[i] == ';' && q < LineEnd(s, i + 1) && s[q] == '{' && Partner(s, q + 1, 0) == Some(r)
    requires r >= LineEnd(s, i + 1)
    ensures Lines(Braceless(s[i..])) < Lines(Braceless(s[LineEnd(s, i + 1)..]))
  {
    LineEndIsNewline(s, i + 1);
    LinesOneLess(s, i);
    LinesAlongLine(s, i + 1, q);
    CrossingGroupTakesALine(s, q, r, LineEnd(s, i + 1));
  }

  lemma {:induction false} LineEndIsNewline(s: string, i: nat)
    requires i <= |s|
    ensures LineEnd(s, i) < |s| ==> Newline(s[LineEnd(s, i)])
    decreases |s| - i
  {
    if i < |s| && !Newline(s[i]) {
      LineEndIsNewline(s, i + 1);
    }
  }

  lemma SameHeadText(c: char, a: string, b: string)
    ensures [c] + a == [c] + b <==> a == b
  {
    assert ([c] + a)[1..] == a && ([c] + b)[1..] == b;
  }

  // What is to be shown of the text from i on.
  ghost predicate Agreed(s: string, i: nat)
    requires i <= |s|
  {
    StandardText(s, i) == CodeText(s, i) <==> AllShort(s, i, StandardComments(s, i))
  }

  // Both readings find the same comment.
  lemma AgreedAtComment(s: string, i: nat, end: nat)
    requires i < |s| && StandardEnd(s, i) == Some(end) && CodeEnd(s, i) == Some(end)
    requires i < end <= |s| && Short(s, (i, end)) && Agreed(s, end)
    ensures Agreed(s, i)
  {
    StandardStep(s, i, Some(end));
    CodeStep(s, i, Some(end));
    AllTail(s, i, end, StandardComments(s, end));
    SameHeadText(' ', StandardText(s, end), CodeText(s, end));
  }

  lemma AgreedAtOther(s: string, i: nat)
    requires i < |s| && StandardEnd(s, i) == None && Agreed(s, i + 1)
    ensures Agreed(s, i)
  {
    PartnerIsAhead(s, i + 1, 0);
    StandardStep(s, i, None);
    CodeStep(s, i, None);
    AllLater(s, i, StandardComments(s, i + 1));
    SameHeadText(s[i], StandardText(s, i + 1), CodeText(s, i + 1));
  }

  lemma SameEndOnLine(s: string, i: nat, end: nat)
    requires i < |s| && s[i] == ';' && end == LineEnd(s, i + 1) && StaysOnLine(s, i + 1, end)
    ensures CodeEnd(s, i) == Some(end) && Short(s, (i, end))
  {
    SameLineEnd(s, i + 1);
  }

  lemma AgreedAtCrossing(s: string, i: nat, end: nat)
    requires i < |s| && s[i] == ';' && end == LineEnd(s, i + 1) && !StaysOnLine(s, i + 1, end)
    requires AllPlain(s, i, StandardComments(s, i))
    ensures Agreed(s, i)
  {
    CrossingShows(s, i);
    StandardStep(s, i, Some(end));
    AllTail(s, i, end, StandardComments(s, end));
  }

  lemma {:induction false} SameTextFrom(s: string, i: nat)
    requires i <= |s| && AllPlain(s, i, StandardComments(s, i))
    ensures Agreed(s, i)
    decreases |s| - i
  {
    if i < |s| {
      var end := StandardEnd(s, i);
      PlainNext(s, i, end);
      if end == None {
        SameTextFrom(s, i + 1);
        AgreedAtOther(s, i);
      } else if s[i] == '{' {
        PlainGroup(s, i, end.value);
        SameTextFrom(s, end.value);
        AgreedAtComment(s, i, end.value);
      } else if StaysOnLine(s, i + 1, end.value) {
        SameTextFrom(s, end.value);
        SameEndOnLine(s, i, end.value);
        AgreedAtComment(s, i, end.value);
      } else {
        AgreedAtCrossing(s, i, end.value);
      }
    }
  }

  lemma CrossingShows(s: string, i: nat)
    requires i < |s| && s[i] == ';' && AllPlain(s, i, StandardComments(s, i))
    requires !StaysOnLine(s, i + 1, LineEnd(s, i + 1))
    ensures Lines(CodeText(s, i)) < Lines(StandardText(s, i))
  {
    var end := LineEnd(s, i + 1);
    var q :| i + 1 <= q < end && s[q] == '{' && Partner(s, q + 1, 0).Some? && Partner(s, q + 1, 0).value >= end;
    CrossingTakesALine(s, i, q, Partner(s, q + 1, 0).value);
    AllTail(s, i, end, StandardComments(s, end));
    StandardKeepsLines(s, end);
    LinesHead(' ', StandardText(s, end));
    CodeReads(s, i);
    StripKeepsLines(Braceless(s[i..]), 0);
    assert Braceless(s[i..])[0..] == Braceless(s[i..]);
  }

  // In text without nested brace comments the result is that of the standard exactly
  // if the stack matches no left brace inside a semicolon comment with a right brace
  // beyond its line.
  lemma SameResultWithoutNesting(s: string)
    requires forall k | 0 <= k < |StandardComments(s, 0)| ::
               var c := StandardComments(s, 0)[k]; c.0 < c.1 <= |s| && Plain(s, c)
    ensures var cs := StandardComments(s, 0);
            StripLineComments(Matched(s, '{', '}'), 0) == StandardText(s, 0) <==>
            forall k | 0 <= k < |cs| :: cs[k].0 < cs[k].1 <= |s| && Short(s, cs[k])
  {
    EachOne(s, 0, StandardComments(s, 0));
    SameTextFrom(s, 0);
    assert s[0..] == s;
    CodeReads(s, 0);
  }

  // In text without semicolons it is that of the standard exactly if no left brace
  // stands between a left brace and the next right brace.
  lemma SameResultWithoutSemicolons(s: string)
    requires ';' !in s
    ensures StripLineComments(Matched(s, '{', '}'), 0) == StandardText(s, 0) <==> Flat(s, 0)
  {
    assert s[0..] == s;
    CodeReads(s, 0);
    StandardWithoutSemicolons(s, 0);
    CodeWithoutSemicolons(s, 0);
    BracesAgreeOnFlatText(s);
  }

  lemma {:induction false} StandardWithoutSemicolons(s: string, i: nat)
    requires i <= |s| && ';' !in s
    ensures StandardText(s, i) == Standard(s, i)
    decreases |s| - i
  {
    if i < |s| {
      var end := if s[i] == '{' then NextClose(s, i + 1) else None;
      StandardWithoutSemicolons(s, if end.Some? then end.value + 1 else i + 1);
    }
  }

  lemma {:induction false} CodeWithoutSemicolons(s: string, i: nat)
    requires i <= |s| && ';' !in s
    ensures CodeText(s, i) == Braceless(s[i..])
    decreases |s| - i
  {
    if i == |s| {
      BracelessOfNothing(s);
    } else {
      var r := if s[i] == '{' then Partner(s, i + 1, 0) else None;
      CodeStep(s, i, if r.Some? then Some(r.value + 1) else None);
      CodeWithoutSemicolons(s, if r.Some? then r.value + 1 else i + 1);
      BracelessShape(s, i, r);
    }
  }

  /* ---------- where they differ, and where that does not show ---------- */

  // A brace in a line comment can swallow the next line, move and all.
  lemma BraceInLineCommentDropsAMove()
    ensures StripLineComments(Matched(";{\ne4}", '{', '}'), 0) == " " && StandardText(";{\ne4}", 0) == " \ne4}"
  {
    var s := ";{\ne4}";
    assert s[0..] == s;
    CodeReads(s, 0);
    assert Partner(s, 2, 0) == Some(5);
    assert CodeLineEnd(s, 1) == 6;
    assert LineEnd(s, 1) == 2;
    assert StandardText(s, 4) == "4}";
  }

  // Different comments can leave the same text: here all of it is comment either way.
  lemma DifferentCommentsSameText()
    ensures var s := "{{};};";
            && StripLineComments(Matched(s, '{', '}'), 0) == StandardText(s, 0)
            && CodeComments(s, 0) != StandardComments(s, 0)
  {
    var s := "{{};};";
    assert s[0..] == s;
    CodeReads(s, 0);
    assert Partner(s, 1, 0) == Some(4);
    assert CodeText(s, 5) == " ";
    assert NextClose(s, 1) == Some(2);
    assert LineEnd(s, 4) == 6;
    assert StandardText(s, 3) == " ";
    assert CodeComments(s, 0)[0] == (0, 5) && StandardComments(s, 0)[0] == (0, 3);
  }
}
