/**
 The rule for braces in section 5 of the PGN standard: a brace comment runs to the
 next right brace, and brace comments do not nest. `_strip_comments_and_ravs` reads
 nested ones instead; here is when the two readings of the braces agree. Semicolon
 comments, in which a brace means nothing, are the subject of `PgnComments`.
 */
module BraceComments {
  import opened Options
  import opened MovetextStripping

  // The next right brace from i on.
  function NextClose(s: string, i: nat): (end: Option<nat>)
    requires i <= |s|
    ensures end.Some? ==> i <= end.value < |s| && s[end.value] == '}' && '}' !in s[i..end.value]
    ensures end == None ==> '}' !in s[i..]
    decreases |s| - i
  {
    if i == |s| then None
    else if s[i] == '}' then Some(i)
    else
      assert forall j | i < j <= |s| :: s[i..j] == [s[i]] + s[i + 1..j];
      NextClose(s, i + 1)
  }

  // The text with every brace comment replaced by a space, if the rule for braces were
  // the only one; a brace that opens no comment, or one that never ends, is kept.
  function Standard(s: string, i: nat): string
    requires i <= |s|
    decreases |s| - i
  {
    if i == |s| then []
    else
      var end := if s[i] == '{' then NextClose(s, i + 1) else None;
      if end.Some? then [' '] + Standard(s, end.value + 1) else [s[i]] + Standard(s, i + 1)
  }

  // No left brace stands between a left brace and the next right brace.
  predicate Flat(s: string, i: nat) {
    forall a, b | i <= a < b < |s| && s[a] == '{' && s[b] == '{' && '}' in s[b..] :: '}' in s[a..b]
  }

  /* ---------- counting braces ---------- */

  function Balance(s: string): int {
    if s == [] then 0 else Balance(s[1..]) + (if s[0] == '{' then 1 else if s[0] == '}' then -1 else 0)
  }

  lemma {:induction false} BalanceJoin(a: string, b: string)
    ensures Balance(a + b) == Balance(a) + Balance(b)
  {
    if a == [] {
      assert a + b == b;
    } else {
      assert (a + b)[1..] == a[1..] + b;
      BalanceJoin(a[1..], b);
    }
  }

  // Without right braces the balance counts the left ones.
  lemma {:induction false} BalanceOfLefts(s: string)
    requires '}' !in s
    ensures Balance(s) >= 0 && (Balance(s) == 0 <==> '{' !in s)
  {
    if s != [] {
      assert s == [s[0]] + s[1..];
      BalanceOfLefts(s[1..]);
    }
  }

  lemma BalanceOfGroup(s: string, i: nat, end: nat)
    requires i < end < |s| && s[i] == '{' && s[end] == '}'
    ensures Balance(s[i..]) == Balance(s[i + 1..end]) + Balance(s[end + 1..])
  {
    assert s[i..] == [s[i]] + (s[i + 1..end] + ([s[end]] + s[end + 1..]));
    BalanceJoin([s[i]], s[i + 1..end] + ([s[end]] + s[end + 1..]));
    BalanceJoin(s[i + 1..end], [s[end]] + s[end + 1..]);
    BalanceJoin([s[end]], s[end + 1..]);
  }

  lemma BalanceOfHead(s: string, i: nat, rest: string)
    requires i < |s|
    ensures Balance([s[i]] + rest) - Balance(rest) == Balance(s[i..]) - Balance(s[i + 1..])
  {
    SuffixHead(s, i);
    BalanceJoin([s[i]], s[i + 1..]);
    BalanceJoin([s[i]], rest);
  }

  lemma BalanceOfSpace(rest: string)
    ensures Balance([' '] + rest) == Balance(rest)
  {
    assert ([' '] + rest)[1..] == rest;
  }

  // The left braces inside the brace comments of that reading.
  function Inside(s: string, i: nat): (n: int)
    requires i <= |s|
    ensures n >= 0
    decreases |s| - i
  {
    if i == |s| then 0
    else
      var end := if s[i] == '{' then NextClose(s, i + 1) else None;
      if end == None then Inside(s, i + 1)
      else
        BalanceOfLefts(s[i + 1..end.value]);
        Balance(s[i + 1..end.value]) + Inside(s, end.value + 1)
  }

  // Two readings of a text that do the same with its first character.
  lemma SameHeadBalance(s: string, i: nat, r: string, rest: string, inside: int)
    requires i < |s| && r == [s[i]] + rest && Balance(rest) == Balance(s[i + 1..]) - inside
    ensures Balance(r) == Balance(s[i..]) - inside
  {
    BalanceOfHead(s, i, rest);
  }

  lemma GroupGoneBalance(s: string, i: nat, end: nat, r: string, rest: string, inside: int)
    requires i < end < |s| && s[i] == '{' && s[end] == '}'
    requires r == [' '] + rest && Balance(rest) == Balance(s[end + 1..]) - inside
    ensures Balance(r) == Balance(s[i..]) - Balance(s[i + 1..end]) - inside
  {
    BalanceOfGroup(s, i, end);
    BalanceOfSpace(rest);
  }

  lemma PassShape(s: string, i: nat, end: Option<nat>)
    requires i < |s| && end == if s[i] == '{' then GroupEnd(s, i + 1, '{', '}') else None
    ensures Pass(s, i, '{', '}') ==
            if end.Some? then [' '] + Pass(s, end.value + 1, '{', '}') else [s[i]] + Pass(s, i + 1, '{', '}')
  {
  }

  lemma StandardShape(s: string, i: nat, end: Option<nat>)
    requires i < |s| && end == if s[i] == '{' then NextClose(s, i + 1) else None
    ensures Standard(s, i) ==
            if end.Some? then [' '] + Standard(s, end.value + 1) else [s[i]] + Standard(s, i + 1)
    ensures Inside(s, i) ==
            if end.Some? then Balance(s[i + 1..end.value]) + Inside(s, end.value + 1) else Inside(s, i + 1)
  {
  }

  ghost predicate Unbalanced(s: string, i: nat, r: string, inside: int)
    requires i <= |s|
  {
    Balance(r) == Balance(s[i..]) - inside
  }

  lemma UnbalancedByComment(s: string, i: nat, end: nat, r: string, rest: string, inside: int)
    requires i < end < |s| && s[i] == '{' && s[end] == '}'
    requires r == [' '] + rest && Unbalanced(s, end + 1, rest, inside)
    ensures Unbalanced(s, i, r, Balance(s[i + 1..end]) + inside)
  {
    GroupGoneBalance(s, i, end, r, rest, inside);
  }

  lemma UnbalancedAsBefore(s: string, i: nat, r: string, rest: string, inside: int)
    requires i < |s| && r == [s[i]] + rest && Unbalanced(s, i + 1, rest, inside)
    ensures Unbalanced(s, i, r, inside)
  {
    SameHeadBalance(s, i, r, rest, inside);
  }

  // Without nesting a right brace goes with each comment, and with it all left braces
  // inside.
  lemma {:induction false} StandardUnbalances(s: string, i: nat)
    requires i <= |s|
    ensures Unbalanced(s, i, Standard(s, i), Inside(s, i))
    decreases |s| - i
  {
    if i < |s| {
      var r := Standard(s, i);
      var end := if s[i] == '{' then NextClose(s, i + 1) else None;
      StandardShape(s, i, end);
      if end.Some? {
        StandardUnbalances(s, end.value + 1);
        UnbalancedByComment(s, i, end.value, r, Standard(s, end.value + 1), Inside(s, end.value + 1));
      } else {
        StandardUnbalances(s, i + 1);
        UnbalancedAsBefore(s, i, r, Standard(s, i + 1), Inside(s, i + 1));
      }
    }
  }

  // The code's reading drops braces in pairs.
  lemma {:induction false} PassKeepsBalance(s: string, i: nat)
    requires i <= |s|
    ensures Balance(Pass(s, i, '{', '}')) == Balance(s[i..])
    decreases |s| - i
  {
    if i < |s| {
      var r := Pass(s, i, '{', '}');
      var end := if s[i] == '{' then GroupEnd(s, i + 1, '{', '}') else None;
      PassShape(s, i, end);
      if end.Some? {
        PassKeepsBalance(s, end.value + 1);
        GroupGoneBalance(s, i, end.value, r, Pass(s, end.value + 1, '{', '}'), 0);
        BalanceOfLefts(s[i + 1..end.value]);
      } else {
        PassKeepsBalance(s, i + 1);
        SameHeadBalance(s, i, r, Pass(s, i + 1, '{', '}'), 0);
      }
    }
  }

  lemma {:induction false} MatchedKeepsBalance(s: string)
    ensures Balance(Matched(s, '{', '}')) == Balance(s)
    decreases |s|
  {
    var next := Pass(s, 0, '{', '}');
    assert s[0..] == s;
    PassKeepsBalance(s, 0);
    if |next| == |s| {
      UnchangedIsMatched(s, '{', '}');
    } else {
      PassKeepsRun([[]], s, 0, '{', '}');
      MatchedKeepsBalance(next);
    }
  }

  /* ---------- flat text ---------- */

  lemma GroupEndIsNextClose(s: string, i: nat)
    requires i <= |s|
    ensures GroupEnd(s, i, '{', '}').Some? ==> NextClose(s, i) == GroupEnd(s, i, '{', '}')
    ensures NextClose(s, i).Some? && '{' !in s[i..NextClose(s, i).value] ==> GroupEnd(s, i, '{', '}') == NextClose(s, i)
    decreases |s| - i
  {
    if i < |s| && s[i] != '}' {
      GroupEndIsNextClose(s, i + 1);
      if NextClose(s, i).Some? {
        assert s[i..NextClose(s, i).value] == [s[i]] + s[i + 1..NextClose(s, i).value];
      }
    }
  }

  lemma EmptyInside(s: string, i: nat)
    requires i < |s| && s[i] == '{' && Inside(s, i) == 0
    ensures GroupEnd(s, i + 1, '{', '}') == NextClose(s, i + 1)
    ensures Inside(s, if NextClose(s, i + 1).Some? then NextClose(s, i + 1).value + 1 else i + 1) == 0
  {
    GroupEndIsNextClose(s, i + 1);
    var end := NextClose(s, i + 1);
    if end.Some? {
      BalanceOfLefts(s[i + 1..end.value]);
    }
  }

  lemma SameFirstStep(s: string, i: nat, end: Option<nat>)
    requires i < |s| && Inside(s, i) == 0 && end == if s[i] == '{' then NextClose(s, i + 1) else None
    ensures end == if s[i] == '{' then GroupEnd(s, i + 1, '{', '}') else None
    ensures Inside(s, if end.Some? then end.value + 1 else i + 1) == 0
  {
    if s[i] == '{' {
      EmptyInside(s, i);
    }
  }

  // With nothing inside the comments one pass is the standard's reading.
  lemma {:induction false} NothingInside(s: string, i: nat)
    requires i <= |s| && Inside(s, i) == 0
    ensures Standard(s, i) == Pass(s, i, '{', '}')
    decreases |s| - i
  {
    if i < |s| {
      var end := if s[i] == '{' then NextClose(s, i + 1) else None;
      SameFirstStep(s, i, end);
      PassShape(s, i, end);
      StandardShape(s, i, end);
      NothingInside(s, if end.Some? then end.value + 1 else i + 1);
    }
  }

  // What the standard's reading leaves has no right brace after a left one.
  lemma {:induction false} StandardIsTidy(s: string, i: nat)
    requires i <= |s|
    ensures TidyFrom(s, i, Standard(s, i))
    decreases |s| - i
  {
    if i < |s| {
      var end := if s[i] == '{' then NextClose(s, i + 1) else None;
      StandardShape(s, i, end);
      if end.Some? {
        StandardIsTidy(s, end.value + 1);
        TidyAfterComment(s, i, end.value, Standard(s, end.value + 1));
      } else {
        StandardIsTidy(s, i + 1);
        TidyAfterOther(s, i, Standard(s, i + 1));
      }
    }
  }

  ghost predicate TidyFrom(s: string, i: nat, r: string)
    requires i <= |s|
  {
    Tidy(r, '{', '}') && ('}' in r ==> '}' in s[i..])
  }

  lemma TidyAfterComment(s: string, i: nat, end: nat, rest: string)
    requires i < end < |s| && s[end] == '}' && TidyFrom(s, end + 1, rest)
    ensures TidyFrom(s, i, [' '] + rest)
  {
    assert s[i..][end - i] == '}';
  }

  lemma TidyAfterOther(s: string, i: nat, rest: string)
    requires i < |s| && (s[i] == '{' ==> '}' !in s[i + 1..]) && TidyFrom(s, i + 1, rest)
    ensures TidyFrom(s, i, [s[i]] + rest)
  {
    SuffixHead(s, i);
  }

  // Flat text is the text with no left brace inside a comment.
  lemma {:induction false} FlatIsNothingInside(s: string, i: nat)
    requires i <= |s|
    ensures Flat(s, i) <==> Inside(s, i) == 0
    decreases |s| - i
  {
    if i < |s| {
      var end := if s[i] == '{' then NextClose(s, i + 1) else None;
      if end.Some? {
        FlatIsNothingInside(s, end.value + 1);
        BalanceOfLefts(s[i + 1..end.value]);
        FlatWithComment(s, i, end.value);
      } else {
        FlatIsNothingInside(s, i + 1);
        FlatWithoutComment(s, i);
      }
    }
  }

  lemma FlatWithoutComment(s: string, i: nat)
    requires i < |s| && (s[i] == '{' ==> '}' !in s[i + 1..])
    ensures Flat(s, i) <==> Flat(s, i + 1)
  {
    if s[i] == '{' {
      forall b | i < b < |s|
        ensures '}' !in s[b..]
      {
        assert s[b..] == s[i + 1..][b - i - 1..];
      }
    }
  }

  lemma FlatWithComment(s: string, i: nat, end: nat)
    requires i < end < |s| && s[i] == '{' && s[end] == '}' && '}' !in s[i + 1..end]
    ensures Flat(s, i) <==> '{' !in s[i + 1..end] && Flat(s, end + 1)
  {
    if '{' in s[i + 1..end] {
      var j :| 0 <= j < end - i - 1 && s[i + 1..end][j] == '{';
      var b := i + 1 + j;
      assert s[b..][end - b] == '}';
      assert s[i..b] == [s[i]] + s[i + 1..end][..j];
    } else {
      NotInSlice(s, i + 1, end);
      forall a, b | i <= a < b < |s| && s[a] == '{' && s[b] == '{' && a <= end
        ensures '}' in s[a..b]
      {
        assert s[a..b][end - a] == '}';
      }
    }
  }

  lemma NotInSlice(s: string, i: nat, end: nat)
    requires i <= end <= |s| && '{' !in s[i..end]
    ensures forall x | i <= x < end :: s[x] != '{'
  {
    forall x | i <= x < end
      ensures s[x] != '{'
    {
      assert s[i..end][x - i] == s[x];
    }
  }

  /* ---------- the two readings ---------- */

  // Removing braces with and without nesting is the same exactly in text where no left
  // brace stands between a left brace and the next right brace.
  lemma BracesAgreeOnFlatText(s: string)
    ensures Matched(s, '{', '}') == Standard(s, 0) <==> Flat(s, 0)
  {
    assert s[0..] == s;
    FlatIsNothingInside(s, 0);
    MatchedKeepsBalance(s);
    StandardUnbalances(s, 0);
    if Inside(s, 0) == 0 {
      NothingInside(s, 0);
      StandardIsTidy(s, 0);
      TidyIsKept(Standard(s, 0), '{', '}');
      PassKeepsRun([[]], s, 0, '{', '}');
    }
  }

  // For instance here they differ: the code drops the text after the comment too.
  lemma NestedBracesDropText()
    ensures Matched("{a{b}c}", '{', '}') == " " && Standard("{a{b}c}", 0) == " c}"
  {
    NestedBracesMatched();
    assert NextClose("{a{b}c}", 1) == Some(4);
    assert Standard("{a{b}c}", 5) == "c}";
  }

  lemma NestedBracesMatched()
    ensures Matched("{a{b}c}", '{', '}') == " "
  {
    GroupBecomesASpace([], "a{b}c", [], '{', '}');
    assert [] + ['{'] + "a{b}c" + ['}'] + [] == "{a{b}c}" && [] + [' '] + [] == " ";
    TidyIsKept(" ", '{', '}');
  }
}
