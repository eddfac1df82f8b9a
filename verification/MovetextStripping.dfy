/**
 `_strip_comments_and_ravs` of mcp_server/analysis/mainline_parser.py: comments
 and side lines are replaced by spaces, innermost group first, again and again.
 */
module MovetextStripping {
  import opened Options

  // The close that ends a group whose text starts at i, if no bracket comes before it.
  function GroupEnd(s: string, i: nat, open: char, close: char): (end: Option<nat>)
    requires i <= |s|
    ensures end.Some? ==> i <= end.value < |s| && s[end.value] == close
    ensures end.Some? ==> forall j | i <= j < end.value :: s[j] != open && s[j] != close
    decreases |s| - i
  {
    if i == |s| || s[i] == open then None
    else if s[i] == close then Some(i)
    else GroupEnd(s, i + 1, open, close)
  }

  // One substitution pass: every innermost group, from the left, becomes a space.
  function Pass(s: string, i: nat, open: char, close: char): (r: string)
    requires i <= |s|
    ensures |r| <= |s| - i
    decreases |s| - i
  {
    if i == |s| then []
    else
      var end := if s[i] == open then GroupEnd(s, i + 1, open, close) else None;
      if end.Some? then [' '] + Pass(s, end.value + 1, open, close) else [s[i]] + Pass(s, i + 1, open, close)
  }

  /* ---------- the reference: one pass with a stack ---------- */

  // The text so far, cut at the brackets that are still open.
  function Push(stack: seq<string>, c: char, open: char, close: char): (r: seq<string>)
    requires stack != []
    ensures r != []
  {
    if c == open then stack + [[]]
    else if c == close && |stack| > 1 then Append(stack[..|stack| - 1], ' ')
    else Append(stack, c)
  }

  function Append(stack: seq<string>, c: char): (r: seq<string>)
    requires stack != []
    ensures |r| == |stack|
  {
    stack[|stack| - 1 := stack[|stack| - 1] + [c]]
  }

  function Run(stack: seq<string>, s: string, open: char, close: char): (r: seq<string>)
    requires stack != []
    ensures r != []
    decreases |s|
  {
    if s == [] then stack else Run(Push(stack, s[0], open, close), s[1..], open, close)
  }

  // The text with the brackets nobody closed put back.
  function Join(stack: seq<string>, open: char): string
    requires stack != []
  {
    if |stack| == 1 then stack[0] else Join(stack[..|stack| - 1], open) + [open] + stack[|stack| - 1]
  }

  // Every outermost matched group becomes one space, all else is kept.
  function Matched(s: string, open: char, close: char): string {
    Join(Run([[]], s, open, close), open)
  }

  predicate Brackets(open: char, close: char) {
    open != close && open != ' ' && close != ' '
  }

  /* ---------- the passes compute the reference ---------- */

  lemma RunHead(stack: seq<string>, c: char, rest: string, open: char, close: char)
    requires stack != []
    ensures Run(stack, [c] + rest, open, close) == Run(Push(stack, c, open, close), rest, open, close)
  {
    assert ([c] + rest)[1..] == rest;
  }

  lemma {:induction false} RunPlain(stack: seq<string>, plain: string, rest: string, open: char, close: char)
    requires stack != [] && open !in plain && close !in plain
    ensures var top := |stack| - 1;
            Run(stack, plain + rest, open, close) == Run(stack[top := stack[top] + plain], rest, open, close)
    decreases |plain|
  {
    var top := |stack| - 1;
    if plain == [] {
      assert plain + rest == rest && stack[top] + plain == stack[top];
      assert stack[top := stack[top] + plain] == stack;
    } else {
      var next := Append(stack, plain[0]);
      assert plain + rest == [plain[0]] + (plain[1..] + rest);
      RunHead(stack, plain[0], plain[1..] + rest, open, close);
      RunPlain(next, plain[1..], rest, open, close);
      assert next[top] + plain[1..] == stack[top] + plain;
      assert next[top := next[top] + plain[1..]] == stack[top := stack[top] + plain];
    }
  }

  // Running over an innermost group is running over a space.
  lemma RunGroup(stack: seq<string>, plain: string, rest: string, open: char, close: char)
    requires stack != [] && Brackets(open, close) && open !in plain && close !in plain
    ensures Run(stack, [open] + (plain + ([close] + rest)), open, close) == Run(Append(stack, ' '), rest, open, close)
  {
    var deeper := stack + [[]];
    RunHead(stack, open, plain + ([close] + rest), open, close);
    RunPlain(deeper, plain, [close] + rest, open, close);
    var filled := deeper[|stack| := deeper[|stack|] + plain];
    RunHead(filled, close, rest, open, close);
    assert filled[..|stack|] == stack;
  }

  lemma RunGroupAt(stack: seq<string>, s: string, i: nat, end: nat, open: char, close: char)
    requires stack != [] && Brackets(open, close) && i < end < |s| && s[i] == open && s[end] == close
    requires forall j | i < j < end :: s[j] != open && s[j] != close
    ensures Run(stack, s[i..], open, close) == Run(Append(stack, ' '), s[end + 1..], open, close)
  {
    RunGroup(stack, s[i + 1..end], s[end + 1..], open, close);
    GroupText(s, i, end, open, close);
  }

  lemma GroupText(s: string, i: nat, end: nat, open: char, close: char)
    requires i < end < |s| && s[i] == open && s[end] == close
    ensures s[i..] == [open] + (s[i + 1..end] + ([close] + s[end + 1..]))
  {
  }

  lemma Associative(a: string, b: string, c: string)
    ensures a + b + c == a + (b + c)
  {
  }

  lemma HeadFirst(s: string, rest: string)
    requires s != []
    ensures s + rest == [s[0]] + (s[1..] + rest)
  {
  }

  lemma SuffixHead(s: string, i: nat)
    requires i < |s|
    ensures s[i..] == [s[i]] + s[i + 1..]
  {
  }

  lemma SameHead(stack: seq<string>, c: char, a: string, b: string, open: char, close: char)
    requires stack != []
    requires Run(Push(stack, c, open, close), a, open, close) == Run(Push(stack, c, open, close), b, open, close)
    ensures Run(stack, [c] + a, open, close) == Run(stack, [c] + b, open, close)
  {
    RunHead(stack, c, a, open, close);
    RunHead(stack, c, b, open, close);
  }

  lemma {:induction false} PassKeepsRun(stack: seq<string>, s: string, i: nat, open: char, close: char)
    requires stack != [] && i <= |s| && Brackets(open, close)
    ensures Run(stack, Pass(s, i, open, close), open, close) == Run(stack, s[i..], open, close)
    decreases |s| - i
  {
    if i < |s| {
      var end := if s[i] == open then GroupEnd(s, i + 1, open, close) else None;
      if end.Some? {
        PassKeepsRun(Append(stack, ' '), s, end.value + 1, open, close);
        PassOverGroup(stack, s, i, end.value, open, close);
      } else {
        PassKeepsRun(Push(stack, s[i], open, close), s, i + 1, open, close);
        PassOverOther(stack, s, i, open, close);
      }
    }
  }

  lemma PassOverOther(stack: seq<string>, s: string, i: nat, open: char, close: char)
    requires stack != [] && i < |s| && (s[i] == open ==> GroupEnd(s, i + 1, open, close) == None)
    requires var next := Push(stack, s[i], open, close);
             Run(next, Pass(s, i + 1, open, close), open, close) == Run(next, s[i + 1..], open, close)
    ensures Run(stack, Pass(s, i, open, close), open, close) == Run(stack, s[i..], open, close)
  {
    SameHead(stack, s[i], Pass(s, i + 1, open, close), s[i + 1..], open, close);
    SuffixHead(s, i);
  }

  lemma PassOverGroup(stack: seq<string>, s: string, i: nat, end: nat, open: char, close: char)
    requires stack != [] && Brackets(open, close) && i < |s| && s[i] == open
    requires GroupEnd(s, i + 1, open, close) == Some(end)
    requires Run(Append(stack, ' '), Pass(s, end + 1, open, close), open, close) ==
             Run(Append(stack, ' '), s[end + 1..], open, close)
    ensures Run(stack, Pass(s, i, open, close), open, close) == Run(stack, s[i..], open, close)
  {
    RunGroupAt(stack, s, i, end, open, close);
    RunHead(stack, ' ', Pass(s, end + 1, open, close), open, close);
  }

  // A pass that finds nothing: no close comes after an open.
  lemma {:induction false} NothingToClose(s: string, i: nat, open: char, close: char)
    requires i <= |s| && open != close
    requires |Pass(s, i, open, close)| == |s| - i && GroupEnd(s, i, open, close) == None
    ensures close !in s[i..]
    decreases |s| - i
  {
    if i < |s| {
      NothingToClose(s, i + 1, open, close);
      assert s[i..] == [s[i]] + s[i + 1..];
    }
  }

  // One character on, if no close comes after an open.
  lemma StillUnmatched(stack: seq<string>, s: string, i: nat, open: char, close: char)
    requires stack != [] && i < |s| && open != close && |Pass(s, i, open, close)| == |s| - i
    requires |stack| > 1 ==> close !in s[i..]
    ensures |Pass(s, i + 1, open, close)| == |s| - (i + 1)
    ensures |Push(stack, s[i], open, close)| > 1 ==> close !in s[i + 1..]
    ensures s[i] == close ==> |stack| == 1
  {
    if s[i] == open {
      NothingToClose(s, i + 1, open, close);
    }
    assert s[i] in s[i..] && forall c | c in s[i + 1..] :: c in s[i..];
  }

  lemma {:induction false} RunUnmatched(stack: seq<string>, s: string, i: nat, open: char, close: char)
    requires stack != [] && i <= |s| && open != close && |Pass(s, i, open, close)| == |s| - i
    requires |stack| > 1 ==> close !in s[i..]
    ensures Join(Run(stack, s[i..], open, close), open) == Join(stack, open) + s[i..]
    decreases |s| - i
  {
    if i < |s| {
      StillUnmatched(stack, s, i, open, close);
      JoinPush(stack, s[i], open, close);
      RunUnmatched(Push(stack, s[i], open, close), s, i + 1, open, close);
      RunHead(stack, s[i], s[i + 1..], open, close);
      SuffixHead(s, i);
      Associative(Join(stack, open), [s[i]], s[i + 1..]);
    }
  }

  lemma JoinPush(stack: seq<string>, c: char, open: char, close: char)
    requires stack != [] && (c == close && c != open ==> |stack| == 1)
    ensures Join(Push(stack, c, open, close), open) == Join(stack, open) + [c]
  {
    var next := Push(stack, c, open, close);
    if c == open {
      assert next[..|next| - 1] == stack;
      assert Join(stack, open) + [open] + [] == Join(stack, open) + [c];
    } else {
      assert next[..|next| - 1] == stack[..|stack| - 1];
      if |stack| > 1 {
        assert Join(next, open) == Join(stack[..|stack| - 1], open) + [open] + (stack[|stack| - 1] + [c]);
      }
    }
  }

  // A string no pass changes is its own result.
  lemma UnchangedIsMatched(s: string, open: char, close: char)
    requires open != close && |Pass(s, 0, open, close)| == |s|
    ensures Matched(s, open, close) == s
  {
    assert s[0..] == s;
    RunUnmatched([[]], s, 0, open, close);
  }

  lemma {:induction false} NoBracketsNoChange(s: string, i: nat, open: char, close: char)
    requires i <= |s| && (open !in s || close !in s)
    ensures Pass(s, i, open, close) == s[i..]
    decreases |s| - i
  {
    if i < |s| {
      NoBracketsNoChange(s, i + 1, open, close);
      assert s[i..] == [s[i]] + s[i + 1..];
    }
  }

  // A pass that changes anything shortens the text.
  lemma {:induction false} SameLengthSameText(s: string, i: nat, open: char, close: char)
    requires i <= |s| && |Pass(s, i, open, close)| == |s| - i
    ensures Pass(s, i, open, close) == s[i..]
    decreases |s| - i
  {
    if i < |s| {
      SameLengthSameText(s, i + 1, open, close);
      assert s[i..] == [s[i]] + s[i + 1..];
    }
  }

  method StripGroups(text: string, open: char, close: char) returns (s: string)
    requires Brackets(open, close)
    ensures s == Matched(text, open, close)
  {
    s := text;
    while open in s && close in s
      invariant Matched(s, open, close) == Matched(text, open, close)
      decreases |s|
    {
      var prev := s;
      s := Pass(s, 0, open, close);
      PassKeepsRun([[]], prev, 0, open, close);
      assert prev[0..] == prev;
      if s == prev {
        break;
      }
      if |s| == |prev| {
        SameLengthSameText(prev, 0, open, close);
      }
    }
    if open !in s || close !in s {
      NoBracketsNoChange(s, 0, open, close);
    }
    UnchangedIsMatched(s, open, close);
  }

  /* ---------- what the reference means ---------- */

  // Properly nested: the depth of open brackets never falls below zero and ends there.
  predicate Nested(s: string, depth: nat, open: char, close: char) {
    if s == [] then depth == 0
    else if s[0] == open then Nested(s[1..], depth + 1, open, close)
    else if s[0] == close then depth > 0 && Nested(s[1..], depth - 1, open, close)
    else Nested(s[1..], depth, open, close)
  }

  // The depth after one more character, and what it does to a stack that deep.
  function DepthAfter(c: char, depth: nat, open: char, close: char): int {
    if c == open then depth + 1 else if c == close then depth - 1 else depth
  }

  lemma PushKeepsTheLower(stack: seq<string>, c: char, depth: nat, open: char, close: char)
    requires |stack| > depth && DepthAfter(c, depth, open, close) >= 0
    ensures var next, low := Push(stack, c, open, close), |stack| - 1 - depth;
            |next| - 1 - DepthAfter(c, depth, open, close) == low && next[..low] == stack[..low]
  {
  }

  // Running over nested text that closes the last `depth` brackets of a stack leaves
  // the stack below them, with something more in its top.
  lemma {:induction false} RunNested(stack: seq<string>, s: string, rest: string, depth: nat, open: char, close: char)
    returns (top: string)
    requires Brackets(open, close) && |stack| > depth && Nested(s, depth, open, close)
    ensures var low := |stack| - 1 - depth;
            Run(stack, s + rest, open, close) == Run(stack[..low] + [top], rest, open, close)
    decreases |s|
  {
    var low := |stack| - 1 - depth;
    if s == [] {
      top := stack[low];
      assert s + rest == rest && stack[..low] + [top] == stack;
    } else {
      PushKeepsTheLower(stack, s[0], depth, open, close);
      top := RunNested(Push(stack, s[0], open, close), s[1..], rest, DepthAfter(s[0], depth, open, close), open, close);
      RunHead(stack, s[0], s[1..] + rest, open, close);
      HeadFirst(s, rest);
    }
  }

  lemma RunNestedGroup(stack: seq<string>, group: string, rest: string, open: char, close: char)
    requires stack != [] && Brackets(open, close) && Nested(group, 0, open, close)
    ensures Run(stack, [open] + (group + ([close] + rest)), open, close) == Run(Append(stack, ' '), rest, open, close)
  {
    var deeper := stack + [[]];
    RunHead(stack, open, group + ([close] + rest), open, close);
    var top := RunNested(deeper, group, [close] + rest, 0, open, close);
    assert deeper[..|stack|] == stack;
    RunHead(stack + [top], close, rest, open, close);
    assert (stack + [top])[..|stack|] == stack;
  }

  lemma {:induction false} RunJoin(stack: seq<string>, a: string, b: string, open: char, close: char)
    requires stack != []
    ensures Run(stack, a + b, open, close) == Run(Run(stack, a, open, close), b, open, close)
    decreases |a|
  {
    if a == [] {
      assert a + b == b;
    } else {
      HeadFirst(a, b);
      RunHead(stack, a[0], a[1..] + b, open, close);
      RunJoin(Push(stack, a[0], open, close), a[1..], b, open, close);
    }
  }

  lemma SameTail(before: string, a: string, b: string, open: char, close: char)
    requires var stack := Run([[]], before, open, close);
             Run(stack, a, open, close) == Run(stack, b, open, close)
    ensures Matched(before + a, open, close) == Matched(before + b, open, close)
  {
    RunJoin([[]], before, a, open, close);
    RunJoin([[]], before, b, open, close);
  }

  // A group, however deep, counts as one space wherever it stands.
  lemma GroupBecomesASpace(before: string, group: string, rest: string, open: char, close: char)
    requires Brackets(open, close) && Nested(group, 0, open, close)
    ensures Matched(before + [open] + group + [close] + rest, open, close) == Matched(before + [' '] + rest, open, close)
  {
    var tail, spaced := [open] + (group + ([close] + rest)), [' '] + rest;
    NestedGroupIsASpace(Run([[]], before, open, close), group, rest, open, close);
    SameTail(before, tail, spaced, open, close);
    GroupInside(before, group, rest, open, close);
    Associative(before, [' '], rest);
  }

  lemma GroupInside(before: string, group: string, rest: string, open: char, close: char)
    ensures before + [open] + group + [close] + rest == before + ([open] + (group + ([close] + rest)))
  {
  }

  lemma NestedGroupIsASpace(stack: seq<string>, group: string, rest: string, open: char, close: char)
    requires stack != [] && Brackets(open, close) && Nested(group, 0, open, close)
    ensures Run(stack, [open] + (group + ([close] + rest)), open, close) == Run(stack, [' '] + rest, open, close)
  {
    RunNestedGroup(stack, group, rest, open, close);
    RunHead(stack, ' ', rest, open, close);
  }

  // Text in which no close follows an open is kept as it is.
  predicate Tidy(s: string, open: char, close: char) {
    forall i, j | 0 <= i < j < |s| :: s[i] == open ==> s[j] != close
  }

  lemma TidyIsKept(s: string, open: char, close: char)
    requires Brackets(open, close)
    ensures Tidy(s, open, close) ==> Matched(s, open, close) == s
  {
    if Tidy(s, open, close) {
      TidyPass(s, 0, open, close);
      UnchangedIsMatched(s, open, close);
    }
  }

  lemma {:induction false} TidyPass(s: string, i: nat, open: char, close: char)
    requires i <= |s| && Tidy(s, open, close)
    ensures |Pass(s, i, open, close)| == |s| - i
    decreases |s| - i
  {
    if i < |s| {
      TidyPass(s, i + 1, open, close);
    }
  }

  // The result is tidy, so stripping twice is stripping once.
  lemma MatchedIsTidy(text: string, open: char, close: char)
    requires Brackets(open, close)
    ensures Tidy(Matched(text, open, close), open, close)
    ensures Matched(Matched(text, open, close), open, close) == Matched(text, open, close)
  {
    var stack := Run([[]], text, open, close);
    RunStacksText([[]], text, open, close);
    JoinIsTidy(stack, open, close);
    TidyIsKept(Join(stack, open), open, close);
  }

  // Only the lowest entry holds closes, and no entry an open.
  predicate Stacked(stack: seq<string>, open: char, close: char) {
    forall k | 0 <= k < |stack| :: open !in stack[k] && (k > 0 ==> close !in stack[k])
  }

  lemma {:induction false} RunStacksText(stack: seq<string>, s: string, open: char, close: char)
    requires stack != [] && Brackets(open, close) && Stacked(stack, open, close)
    ensures Stacked(Run(stack, s, open, close), open, close)
    decreases |s|
  {
    if s != [] {
      RunStacksText(Push(stack, s[0], open, close), s[1..], open, close);
    }
  }

  lemma {:induction false} JoinIsTidy(stack: seq<string>, open: char, close: char)
    requires stack != [] && open != close && Stacked(stack, open, close)
    ensures Tidy(Join(stack, open), open, close)
  {
    if |stack| > 1 {
      var lower, last := Join(stack[..|stack| - 1], open), [open] + stack[|stack| - 1];
      JoinIsTidy(stack[..|stack| - 1], open, close);
      assert Join(stack, open) == lower + last;
      assert close !in last;
      forall i, j | 0 <= i < j < |lower + last| && (lower + last)[i] == open
        ensures (lower + last)[j] != close
      {
        if j >= |lower| {
          assert (lower + last)[j] == last[j - |lower|];
        }
      }
    }
  }

  /* ---------- the whole function ---------- */

  // The end of a line comment: the line's.
  function LineEnd(s: string, i: nat): (end: nat)
    requires i <= |s|
    ensures i <= end <= |s|
    decreases |s| - i
  {
    if i == |s| || s[i] == '\r' || s[i] == '\n' then i else LineEnd(s, i + 1)
  }

  // A semicolon and the rest of its line become one space.
  function StripLineComments(s: string, i: nat): string
    requires i <= |s|
    decreases |s| - i
  {
    if i == |s| then []
    else if s[i] == ';' then [' '] + StripLineComments(s, LineEnd(s, i + 1))
    else [s[i]] + StripLineComments(s, i + 1)
  }

  // Comments in braces, then those to the end of a line, then side lines.
  function Stripped(text: string): string {
    Matched(StripLineComments(Matched(text, '{', '}'), 0), '(', ')')
  }

  method StripCommentsAndRavs(text: string) returns (s: string)
    ensures s == Stripped(text)
  {
    s := StripGroups(text, '{', '}');
    s := StripLineComments(s, 0);
    s := StripGroups(s, '(', ')');
  }

  // Both kinds of removal only drop characters and add spaces, so no step undoes what
  // an earlier one achieved: a run of text keeps the order of what is left of it.
  predicate KeepsOrder(s: string, i: nat, r: string)
    requires i <= |s|
    decreases |s| - i, |r|
  {
    r == [] || (r[0] == ' ' && KeepsOrder(s, i, r[1..])) ||
    (i < |s| && s[i] == r[0] && KeepsOrder(s, i + 1, r[1..])) || (i < |s| && KeepsOrder(s, i + 1, r))
  }

  lemma {:induction false} OrderedIsTidy(s: string, i: nat, r: string, open: char, close: char)
    requires Brackets(open, close) && i <= |s| && KeepsOrder(s, i, r) && Tidy(s, open, close)
    ensures Tidy(r, open, close) && forall c | c in r && c != ' ' :: c in s[i..]
    decreases |s| - i, |r|
  {
    if r != [] {
      assert r == [r[0]] + r[1..];
      if r[0] == ' ' && KeepsOrder(s, i, r[1..]) {
        OrderedIsTidy(s, i, r[1..], open, close);
      } else if i < |s| && s[i] == r[0] && KeepsOrder(s, i + 1, r[1..]) {
        OrderedIsTidy(s, i + 1, r[1..], open, close);
        assert s[i..] == [s[i]] + s[i + 1..];
        if s[i] == open {
          assert close !in s[i + 1..];
        }
      } else {
        OrderedIsTidy(s, i + 1, r, open, close);
        assert s[i..] == [s[i]] + s[i + 1..];
      }
    }
  }

  lemma {:induction false} LineCommentsKeepOrder(s: string, i: nat)
    requires i <= |s|
    ensures KeepsOrder(s, i, StripLineComments(s, i)) && ';' !in StripLineComments(s, i)
    decreases |s| - i
  {
    if i < |s| {
      var r := StripLineComments(s, i);
      if s[i] == ';' {
        var end := LineEnd(s, i + 1);
        LineCommentsKeepOrder(s, end);
        SkipKeepsOrder(s, i, end, r[1..]);
      } else {
        LineCommentsKeepOrder(s, i + 1);
        assert r[1..] == StripLineComments(s, i + 1);
      }
    }
  }

  lemma {:induction false} SkipKeepsOrder(s: string, i: nat, end: nat, r: string)
    requires i <= end <= |s| && KeepsOrder(s, end, r)
    ensures KeepsOrder(s, i, r)
    decreases end - i
  {
    if i < end {
      SkipKeepsOrder(s, i + 1, end, r);
    }
  }

  lemma {:induction false} PassKeepsOrder(s: string, i: nat, open: char, close: char)
    requires i <= |s|
    ensures KeepsOrder(s, i, Pass(s, i, open, close))
    decreases |s| - i
  {
    if i < |s| {
      var r := Pass(s, i, open, close);
      var end := if s[i] == open then GroupEnd(s, i + 1, open, close) else None;
      if end.Some? {
        PassKeepsOrder(s, end.value + 1, open, close);
        SkipKeepsOrder(s, i, end.value + 1, r[1..]);
      } else {
        PassKeepsOrder(s, i + 1, open, close);
        assert r[1..] == Pass(s, i + 1, open, close);
      }
    }
  }

  // Passing over and over keeps what is tidy tidy and adds no character but spaces.
  lemma {:induction false} MatchedKeepsTidy(s: string, open: char, close: char, other: char, otherClose: char)
    requires Brackets(open, close) && Brackets(other, otherClose) && Tidy(s, other, otherClose)
    ensures var r := Matched(s, open, close);
            Tidy(r, other, otherClose) && forall c | c in r && c != ' ' :: c in s
    decreases |s|
  {
    var next := Pass(s, 0, open, close);
    assert s[0..] == s;
    if |next| == |s| {
      UnchangedIsMatched(s, open, close);
    } else {
      PassKeepsOrder(s, 0, open, close);
      OrderedIsTidy(s, 0, next, other, otherClose);
      PassKeepsRun([[]], s, 0, open, close);
      MatchedKeepsTidy(next, open, close, other, otherClose);
    }
  }

  // What is left: no comment of either kind and no side line, closed.
  lemma StrippedIsClean(text: string)
    ensures var s := Stripped(text);
            Tidy(s, '{', '}') && Tidy(s, '(', ')') && ';' !in s
  {
    var a := Matched(text, '{', '}');
    var b := StripLineComments(a, 0);
    MatchedIsTidy(text, '{', '}');
    LineCommentsKeepOrder(a, 0);
    OrderedIsTidy(a, 0, b, '{', '}');
    MatchedKeepsTidy(b, '(', ')', '{', '}');
    MatchedIsTidy(b, '(', ')');
  }
}
