/**
 `_local_exchange_minimax` and `_local_exchange_hanging_candidates` of
 mcp_server/analysis/tactical_snapshot_extensions.py, against unbounded minimax.
 */
module ExchangeSolver {
  import opened ExchangeGame

  const MAX_LOCAL_EXCHANGE_PLIES := 8
  const MAX_LOCAL_EXCHANGE_NODES := 1024
  const PAWN := 100

  datatype Result = Result(gain: int, line: seq<Move>, complete: bool)

  type MemoKey = (Key, nat)
  type Memo = map<MemoKey, Result>

  /* ---------- choosing among branches ---------- */

  function BestGain(branches: seq<Result>, maximise: bool): int
    requires branches != []
  {
    if |branches| == 1 then branches[0].gain
    else Better(maximise, branches[0].gain, BestGain(branches[1..], maximise))
  }

  function Tied(branches: seq<Result>, gain: int): seq<Result> {
    if branches == [] then []
    else (if branches[0].gain == gain then [branches[0]] else []) + Tied(branches[1..], gain)
  }

  // The first of the branches with the greatest (length, moves).
  function Longest(branches: seq<Result>): Result
    requires branches != []
  {
    if |branches| == 1 then branches[0]
    else
      var rest := Longest(branches[1..]);
      if AtMost(rest.line, branches[0].line) then branches[0] else rest
  }

  function Choose(branches: seq<Result>, maximise: bool): Result
    requires branches != []
  {
    BestGainIsBest(branches, maximise);
    Longest(Tied(branches, BestGain(branches, maximise)))
  }

  lemma {:induction false} TiedAre(branches: seq<Result>, gain: int)
    ensures forall b :: b in Tied(branches, gain) <==> b in branches && b.gain == gain
  {
    if branches != [] {
      TiedAre(branches[1..], gain);
      assert branches == [branches[0]] + branches[1..];
    }
  }

  lemma {:induction false} BestGainIsBest(branches: seq<Result>, maximise: bool)
    requires branches != []
    ensures forall b | b in branches :: AtLeast(maximise, BestGain(branches, maximise), b.gain)
    ensures exists b :: b in branches && b.gain == BestGain(branches, maximise)
    ensures Tied(branches, BestGain(branches, maximise)) != []
  {
    if |branches| > 1 {
      BestGainIsBest(branches[1..], maximise);
      assert branches == [branches[0]] + branches[1..];
      var b :| b in branches[1..] && b.gain == BestGain(branches[1..], maximise);
      assert b in branches;
    }
    assert branches[0] in branches;
    TiedAre(branches, BestGain(branches, maximise));
  }

  lemma {:induction false} LongestIsLongest(branches: seq<Result>)
    requires branches != []
    ensures Longest(branches) in branches
    ensures forall b | b in branches :: AtMost(b.line, Longest(branches).line)
  {
    AtMostTotal(branches[0].line, branches[0].line);
    if |branches| > 1 {
      LongestIsLongest(branches[1..]);
      assert branches == [branches[0]] + branches[1..];
      var rest := Longest(branches[1..]);
      AtMostTotal(rest.line, branches[0].line);
      forall b | b in branches
        ensures AtMost(b.line, Longest(branches).line)
      {
        if b in branches[1..] && AtMost(rest.line, branches[0].line) {
          AtMostTransitive(b.line, rest.line, branches[0].line);
        }
      }
    }
  }

  lemma ChooseIsBest(branches: seq<Result>, maximise: bool)
    requires branches != []
    ensures var r := Choose(branches, maximise);
            && r in branches
            && (forall b | b in branches :: if maximise then r.gain >= b.gain else r.gain <= b.gain)
            && (forall b | b in branches && b.gain == r.gain :: |b.line| <= |r.line| && AtMost(b.line, r.line))
  {
    BestGainIsBest(branches, maximise);
    TiedAre(branches, BestGain(branches, maximise));
    LongestIsLongest(Tied(branches, BestGain(branches, maximise)));
  }

  /* ---------- what a result promises ---------- */

  // Complete or not: a legal line of at most `plies` captures whose end is worth
  // the gain, and no worse than stopping for a side that may stop.
  ghost predicate Sound(g: Game, goal: Goal, k: Key, plies: nat, r: Result)
    requires WellFormed(g) && k in g
  {
    && Legal(g, k, r.line) && |r.line| <= plies
    && r.gain == Gain(g, goal, End(g, k, r.line))
    && (!g[k].inCheck ==> AtLeast(Maximises(g, goal, k), r.gain, Gain(g, goal, k)))
  }

  // Soundness in plain numbers: the gain is the balance at the end of the line, as the
  // side whose gain is counted sees it, over its baseline; out of check that side gets
  // no less than by stopping, and the other concedes no more.
  lemma SoundInNumbers(g: Game, goal: Goal, k: Key, plies: nat, r: Result)
    requires WellFormed(g) && k in g && Sound(g, goal, k, plies, r)
    ensures Legal(g, k, r.line) && |r.line| <= plies
    ensures var sign := if goal.white then 1 else -1;
            && r.gain == sign * g[End(g, k, r.line)].balance - goal.baseline
            && (!g[k].inCheck && g[k].white == goal.white ==> r.gain >= sign * g[k].balance - goal.baseline)
            && (!g[k].inCheck && g[k].white != goal.white ==> r.gain <= sign * g[k].balance - goal.baseline)
  {
  }

  // Complete: the whole tree was searched, and the answer is that of unbounded
  // minimax with the one principal variation it prefers.
  ghost predicate Proven(g: Game, goal: Goal, k: Key, plies: nat, r: Result)
    requires WellFormed(g) && k in g
  {
    r.complete ==>
      && Closed(g, k) && Fits(g, k, plies)
      && r.gain == Value(g, goal, k) && TopPrincipal(g, goal, k, r.line)
  }

  ghost predicate Good(g: Game, goal: Goal, k: Key, plies: nat, r: Result)
    requires WellFormed(g) && k in g
  {
    Sound(g, goal, k, plies, r) && Proven(g, goal, k, plies, r)
  }

  ghost predicate Exact(g: Game, k: Key, plies: nat, r: Result)
    requires WellFormed(g) && k in g
  {
    r.complete <==> Closed(g, k) && Fits(g, k, plies)
  }

  ghost predicate GoodMemo(g: Game, goal: Goal, memo: Memo)
    requires WellFormed(g)
  {
    forall e | e in memo :: e.0 in g && Good(g, goal, e.0, e.1, memo[e])
  }

  ghost predicate ExactMemo(g: Game, memo: Memo)
    requires WellFormed(g)
  {
    forall e | e in memo :: e.0 in g && Exact(g, e.0, e.1, memo[e])
  }

  // The entries a call may add to the memo.
  ghost function Entries(g: Game, k: Key, plies: nat): set<MemoKey>
    requires WellFormed(g) && k in g
    decreases plies, 0
  {
    {(k, plies)} + (if plies == 0 then {} else KidEntries(g, k, plies - 1, |g[k].captures|))
  }

  ghost function KidEntries(g: Game, k: Key, plies: nat, n: nat): set<MemoKey>
    requires WellFormed(g) && k in g && n <= |g[k].captures|
    decreases plies, n + 1
  {
    if n == 0 then {} else KidEntries(g, k, plies, n - 1) + Entries(g, To(g, k, n - 1), plies)
  }

  lemma {:induction false} KidEntriesCover(g: Game, k: Key, plies: nat, n: nat, i: nat)
    requires WellFormed(g) && k in g && i < n <= |g[k].captures|
    ensures Entries(g, To(g, k, i), plies) <= KidEntries(g, k, plies, n)
    decreases n
  {
    if i < n - 1 {
      KidEntriesCover(g, k, plies, n - 1, i);
    }
  }

  /* ---------- putting a node together from its children ---------- */

  function Prefix(m: Move, r: Result): Result {
    Result(r.gain, [m] + r.line, r.complete)
  }

  // The branches of a node: stopping, if allowed, then the first n captures.
  function Branches(g: Game, goal: Goal, k: Key, kids: seq<Result>): seq<Result>
    requires k in g && |kids| <= |g[k].captures|
  {
    (if g[k].inCheck then [] else [Result(Gain(g, goal, k), [], true)])
    + seq(|kids|, i requires 0 <= i < |kids| => Prefix(g[k].captures[i].move, kids[i]))
  }

  predicate AllComplete(kids: seq<Result>) {
    forall i | 0 <= i < |kids| :: kids[i].complete
  }

  ghost predicate GoodKids(g: Game, goal: Goal, k: Key, plies: nat, kids: seq<Result>)
    requires WellFormed(g) && k in g && plies > 0 && |kids| <= |g[k].captures|
  {
    forall i | 0 <= i < |kids| :: Good(g, goal, To(g, k, i), plies - 1, kids[i])
  }

  lemma PrefixIsSound(g: Game, goal: Goal, k: Key, plies: nat, i: nat, r: Result)
    requires WellFormed(g) && k in g && plies > 0 && i < |g[k].captures|
    requires Sound(g, goal, To(g, k, i), plies - 1, r)
    ensures var b := Prefix(g[k].captures[i].move, r);
            && Legal(g, k, b.line) && |b.line| <= plies && b.gain == Gain(g, goal, End(g, k, b.line))
  {
    AfterIs(g, k, i);
    assert Prefix(g[k].captures[i].move, r).line[1..] == r.line;
  }

  lemma BranchCases(g: Game, goal: Goal, k: Key, kids: seq<Result>, b: Result)
    requires k in g && |kids| <= |g[k].captures| && b in Branches(g, goal, k, kids)
    ensures (!g[k].inCheck && b == Result(Gain(g, goal, k), [], true))
            || (exists i :: 0 <= i < |kids| && b == Prefix(g[k].captures[i].move, kids[i]))
  {
  }

  lemma BranchIn(g: Game, goal: Goal, k: Key, kids: seq<Result>, i: int)
    requires k in g && |kids| <= |g[k].captures| && 0 <= i < |kids|
    ensures Prefix(g[k].captures[i].move, kids[i]) in Branches(g, goal, k, kids)
  {
    var stop := if g[k].inCheck then [] else [Result(Gain(g, goal, k), [], true)];
    assert Branches(g, goal, k, kids)[|stop| + i] == Prefix(g[k].captures[i].move, kids[i]);
  }

  lemma StopIn(g: Game, goal: Goal, k: Key, kids: seq<Result>)
    requires k in g && |kids| <= |g[k].captures| && !g[k].inCheck
    ensures Result(Gain(g, goal, k), [], true) in Branches(g, goal, k, kids)
  {
    assert Branches(g, goal, k, kids)[0] == Result(Gain(g, goal, k), [], true);
  }

  lemma NodeIsSound(g: Game, goal: Goal, k: Key, plies: nat, kids: seq<Result>, r: Result)
    requires WellFormed(g) && k in g && plies > 0 && |kids| == |g[k].captures| > 0
    requires GoodKids(g, goal, k, plies, kids)
    requires r.gain == Choose(Branches(g, goal, k, kids), Maximises(g, goal, k)).gain
    requires r.line == Choose(Branches(g, goal, k, kids), Maximises(g, goal, k)).line
    ensures Sound(g, goal, k, plies, r)
  {
    var branches := Branches(g, goal, k, kids);
    ChooseIsBest(branches, Maximises(g, goal, k));
    BranchCases(g, goal, k, kids, Choose(branches, Maximises(g, goal, k)));
    if i :| 0 <= i < |kids| && Choose(branches, Maximises(g, goal, k)) == Prefix(g[k].captures[i].move, kids[i]) {
      PrefixIsSound(g, goal, k, plies, i, kids[i]);
    }
    if !g[k].inCheck {
      StopIn(g, goal, k, kids);
    }
  }

  // With every child proven, the chosen branch has the minimax value ...
  lemma NodeValue(g: Game, goal: Goal, k: Key, plies: nat, kids: seq<Result>)
    requires WellFormed(g) && k in g && plies > 0 && |kids| == |g[k].captures| > 0
    requires GoodKids(g, goal, k, plies, kids) && AllComplete(kids)
    ensures Choose(Branches(g, goal, k, kids), Maximises(g, goal, k)).gain == Value(g, goal, k)
  {
    var maximise := Maximises(g, goal, k);
    var branches := Branches(g, goal, k, kids);
    var r := Choose(branches, maximise);
    ChooseIsBest(branches, maximise);
    ValueIsMinimax(g, goal, k);
    BranchCases(g, goal, k, kids, r);
    assert AtLeast(maximise, r.gain, Value(g, goal, k)) by {
      if i :| 0 <= i < |g[k].captures| && Value(g, goal, k) == Value(g, goal, To(g, k, i)) {
        BranchIn(g, goal, k, kids, i);
        assert kids[i].complete;
      } else {
        StopIn(g, goal, k, kids);
      }
    }
    assert AtLeast(maximise, Value(g, goal, k), r.gain) by {
      if i :| 0 <= i < |kids| && r == Prefix(g[k].captures[i].move, kids[i]) {
        assert kids[i].complete;
      }
    }
  }

  // ... and its line is the top principal variation.
  lemma NodeLine(g: Game, goal: Goal, k: Key, plies: nat, kids: seq<Result>)
    requires WellFormed(g) && k in g && plies > 0 && |kids| == |g[k].captures| > 0
    requires GoodKids(g, goal, k, plies, kids) && AllComplete(kids)
    ensures TopPrincipal(g, goal, k, Choose(Branches(g, goal, k, kids), Maximises(g, goal, k)).line)
  {
    var branches := Branches(g, goal, k, kids);
    var r := Choose(branches, Maximises(g, goal, k));
    NodeValue(g, goal, k, plies, kids);
    ChooseIsBest(branches, Maximises(g, goal, k));
    BranchCases(g, goal, k, kids, r);
    if i :| 0 <= i < |kids| && r == Prefix(g[k].captures[i].move, kids[i]) {
      AfterIs(g, k, i);
      assert kids[i].complete && r.line[1..] == kids[i].line;
      assert Principal(g, goal, k, r.line);
    }
    forall other | Principal(g, goal, k, other)
      ensures AtMost(other, r.line)
    {
      OtherLine(g, goal, k, plies, kids, other);
    }
  }

  lemma OtherLine(g: Game, goal: Goal, k: Key, plies: nat, kids: seq<Result>, other: seq<Move>)
    requires WellFormed(g) && k in g && plies > 0 && |kids| == |g[k].captures| > 0
    requires GoodKids(g, goal, k, plies, kids) && AllComplete(kids) && Principal(g, goal, k, other)
    ensures AtMost(other, Choose(Branches(g, goal, k, kids), Maximises(g, goal, k)).line)
  {
    var branches := Branches(g, goal, k, kids);
    var r := Choose(branches, Maximises(g, goal, k));
    NodeValue(g, goal, k, plies, kids);
    ChooseIsBest(branches, Maximises(g, goal, k));
    if other == [] {
      StopIn(g, goal, k, kids);
    } else {
      var i := IndexOf(g[k].captures, other[0]);
      var b := Prefix(g[k].captures[i].move, kids[i]);
      BranchIn(g, goal, k, kids, i);
      assert kids[i].complete;
      assert AtMost(other[1..], kids[i].line);
      assert AtMost(other, b.line) by {
        assert b.line[1..] == kids[i].line;
      }
      AtMostTransitive(other, b.line, r.line);
    }
  }

  lemma NodeIsProven(g: Game, goal: Goal, k: Key, plies: nat, kids: seq<Result>)
    requires WellFormed(g) && k in g && plies > 0 && |kids| == |g[k].captures| > 0
    requires GoodKids(g, goal, k, plies, kids) && !(g[k].inCheck && g[k].others)
    ensures var r := Choose(Branches(g, goal, k, kids), Maximises(g, goal, k));
            Good(g, goal, k, plies, Result(r.gain, r.line, AllComplete(kids)))
  {
    var r := Choose(Branches(g, goal, k, kids), Maximises(g, goal, k));
    NodeIsSound(g, goal, k, plies, kids, Result(r.gain, r.line, AllComplete(kids)));
    if AllComplete(kids) {
      NodeValue(g, goal, k, plies, kids);
      NodeLine(g, goal, k, plies, kids);
    }
  }

  // A position where the search stops at once.
  lemma LeafIsGood(g: Game, goal: Goal, k: Key, plies: nat)
    requires WellFormed(g) && k in g
    ensures Good(g, goal, k, plies, Result(Gain(g, goal, k), [], false))
    ensures g[k].captures == [] && !(g[k].inCheck && g[k].others) ==>
              Good(g, goal, k, plies, Result(Gain(g, goal, k), [], true))
  {
  }

  /* ---------- the budget ---------- */

  lemma SmallerSet<T>(a: set<T>, b: set<T>)
    requires a <= b
    ensures |a| <= |b|
    ensures a != b ==> |a| < |b|
  {
    assert b == a + (b - a);
  }

  // As long as a set within the budget has room for the memo and for all states in
  // reach, a missing entry can be added.
  lemma BudgetHasRoom(g: Game, memo: Memo, k: Key, plies: nat, room: set<MemoKey>)
    requires WellFormed(g) && k in g && (k, plies) !in memo
    requires memo.Keys <= room && Entries(g, k, plies) <= room && |room| <= MAX_LOCAL_EXCHANGE_NODES
    ensures |memo| < MAX_LOCAL_EXCHANGE_NODES
  {
    assert (k, plies) in Entries(g, k, plies);
    SmallerSet(memo.Keys, room);
  }

  predicate Full(memo: Memo) {
    |memo| >= MAX_LOCAL_EXCHANGE_NODES
  }

  // The memo only grows, so once full it stays full.
  lemma StaysFull(before: Memo, after: Memo)
    requires before.Keys <= after.Keys
    ensures Full(before) ==> Full(after)
  {
    SmallerSet(before.Keys, after.Keys);
  }

  // A full memo does not grow, another one up to `most` entries.
  ghost predicate Within(before: Memo, after: Memo, most: int) {
    |after| <= if Full(before) then |before| else most
  }

  lemma StillWithin(start: Memo, before: Memo, after: Memo, most: int)
    requires start.Keys <= before.Keys && Within(start, before, most) && Within(before, after, most)
    ensures Within(start, after, most)
  {
    StaysFull(start, before);
  }

  lemma KidEntriesAreEntries(g: Game, k: Key, plies: nat, i: nat)
    requires WellFormed(g) && k in g && plies > 0 && i < |g[k].captures|
    ensures Entries(g, To(g, k, i), plies - 1) <= Entries(g, k, plies)
  {
    KidEntriesCover(g, k, plies - 1, |g[k].captures|, i);
  }

  lemma AddKid(g: Game, goal: Goal, k: Key, plies: nat, kids: seq<Result>, child: Result)
    requires WellFormed(g) && k in g && plies > 0 && |kids| < |g[k].captures|
    requires GoodKids(g, goal, k, plies, kids) && Good(g, goal, To(g, k, |kids|), plies - 1, child)
    ensures GoodKids(g, goal, k, plies, kids + [child])
    ensures Branches(g, goal, k, kids + [child])
            == Branches(g, goal, k, kids) + [Prefix(g[k].captures[|kids|].move, child)]
    ensures AllComplete(kids + [child]) == (AllComplete(kids) && child.complete)
  {
    assert forall i | 0 <= i < |kids| :: (kids + [child])[i] == kids[i];
    assert (kids + [child])[|kids|] == child;
  }

  // Which of the children have been marked complete exactly when they should be.
  ghost predicate ExactKids(g: Game, k: Key, plies: nat, kids: seq<Result>)
    requires WellFormed(g) && k in g && plies > 0 && |kids| <= |g[k].captures|
  {
    forall i | 0 <= i < |kids| :: Exact(g, To(g, k, i), plies - 1, kids[i])
  }

  lemma AddExactKid(g: Game, k: Key, plies: nat, kids: seq<Result>, child: Result)
    requires WellFormed(g) && k in g && plies > 0 && |kids| < |g[k].captures|
    ensures ExactKids(g, k, plies, kids) && Exact(g, To(g, k, |kids|), plies - 1, child) ==>
              ExactKids(g, k, plies, kids + [child])
  {
    if ExactKids(g, k, plies, kids) && Exact(g, To(g, k, |kids|), plies - 1, child) {
      forall i | 0 <= i < |kids| + 1
        ensures Exact(g, To(g, k, i), plies - 1, (kids + [child])[i])
      {
        if i < |kids| {
          assert (kids + [child])[i] == kids[i];
        }
      }
    }
  }

  lemma NodeIsExact(g: Game, k: Key, plies: nat, kids: seq<Result>, r: Result)
    requires WellFormed(g) && k in g && plies > 0 && |kids| == |g[k].captures| > 0
    requires ExactKids(g, k, plies, kids) && !(g[k].inCheck && g[k].others)
    requires r.complete == AllComplete(kids)
    ensures Exact(g, k, plies, r)
  {
    if AllComplete(kids) {
      assert forall i | 0 <= i < |kids| :: kids[i].complete;
    } else {
      var i :| 0 <= i < |kids| && !kids[i].complete;
      assert !(Closed(g, To(g, k, i)) && Fits(g, To(g, k, i), plies - 1));
    }
  }

  /* ---------- the solver ---------- */

  class Solver {
    const g: Game
    const goal: Goal
    var memo: Memo

    constructor (g: Game, goal: Goal)
      ensures this.g == g && this.goal == goal && memo == map[]
    {
      this.g, this.goal, memo := g, goal, map[];
    }

    method Remember(k: Key, plies: nat, r: Result)
      requires WellFormed(g) && k in g && GoodMemo(g, goal, memo) && Good(g, goal, k, plies, r)
      modifies this`memo
      ensures memo == old(memo)[(k, plies) := r] && GoodMemo(g, goal, memo)
      ensures old(ExactMemo(g, memo)) && Exact(g, k, plies, r) ==> ExactMemo(g, memo)
    {
      memo := memo[(k, plies) := r];
    }

    // Whatever the memo holds and however early the budget runs out, the result is
    // sound, and one marked complete is the answer of unbounded minimax.  Unless the
    // budget ran out it is marked so exactly when the tree fits the plies and no
    // checked position of it has an evasion off the square.  `cut` says whether it
    // ran out: only with a full memo, never on a result marked complete, and not at
    // all if `room`, a set with the memo and all states in reach, fits the budget.
    // The memo outgrows the budget by no more than the plies.
    method Minimax(k: Key, plies: nat, ghost room: set<MemoKey>) returns (r: Result, ghost cut: bool)
      requires WellFormed(g) && k in g && GoodMemo(g, goal, memo)
      requires memo.Keys <= room && Entries(g, k, plies) <= room
      modifies this`memo
      ensures GoodMemo(g, goal, memo) && Good(g, goal, k, plies, r)
      ensures old(memo.Keys) <= memo.Keys <= room
      ensures old(ExactMemo(g, memo)) && !cut ==> ExactMemo(g, memo) && Exact(g, k, plies, r)
      ensures Within(old(memo), memo, MAX_LOCAL_EXCHANGE_NODES + plies)
      ensures cut ==> Full(memo) && !r.complete
      ensures |room| <= MAX_LOCAL_EXCHANGE_NODES ==> !cut
      decreases plies, 0
    {
      cut := false;
      LeafIsGood(g, goal, k, plies);
      if (k, plies) in memo {
        return memo[(k, plies)], cut;
      }
      var currentGain := Gain(g, goal, k);
      if |memo| >= MAX_LOCAL_EXCHANGE_NODES {
        if |room| <= MAX_LOCAL_EXCHANGE_NODES {
          BudgetHasRoom(g, memo, k, plies, room);
        }
        return Result(currentGain, [], false), true;
      }
      var captures, inCheck := g[k].captures, g[k].inCheck;
      if captures == [] && !g[k].others {
        r := Result(currentGain, [], true);
        Remember(k, plies, r);
        return;
      }
      if inCheck && g[k].others {
        return Result(currentGain, [], false), cut;
      }
      if captures == [] {
        r := Result(currentGain, [], !inCheck);
        Remember(k, plies, r);
        return;
      }
      if plies == 0 {
        r := Result(currentGain, [], false);
        Remember(k, plies, r);
        return;
      }
      r, cut := SearchCaptures(k, plies, room);
      ghost var before := memo;
      Remember(k, plies, r);
      StaysFull(before, memo);
    }

    // The loop over the captures of a position that has some.
    method SearchCaptures(k: Key, plies: nat, ghost room: set<MemoKey>) returns (r: Result, ghost cut: bool)
      requires WellFormed(g) && k in g && GoodMemo(g, goal, memo)
      requires plies > 0 && g[k].captures != [] && !(g[k].inCheck && g[k].others)
      requires memo.Keys <= room && Entries(g, k, plies) <= room
      modifies this`memo
      ensures GoodMemo(g, goal, memo) && Good(g, goal, k, plies, r)
      ensures old(memo.Keys) <= memo.Keys <= room
      ensures old(ExactMemo(g, memo)) && !cut ==> ExactMemo(g, memo) && Exact(g, k, plies, r)
      ensures Within(old(memo), memo, MAX_LOCAL_EXCHANGE_NODES + plies - 1)
      ensures cut ==> Full(memo) && !r.complete
      ensures |room| <= MAX_LOCAL_EXCHANGE_NODES ==> !cut
      decreases plies - 1, 1
    {
      cut := false;
      ghost var exact := ExactMemo(g, memo);
      var branches := if g[k].inCheck then [] else [Result(Gain(g, goal, k), [], true)];
      ghost var kids: seq<Result> := [];
      var allComplete := true;
      assert branches == Branches(g, goal, k, kids);
      for i := 0 to |g[k].captures|
        invariant |kids| == i && branches == Branches(g, goal, k, kids)
        invariant GoodMemo(g, goal, memo) && old(memo.Keys) <= memo.Keys <= room
        invariant GoodKids(g, goal, k, plies, kids) && allComplete == AllComplete(kids)
        invariant Within(old(memo), memo, MAX_LOCAL_EXCHANGE_NODES + plies - 1)
        invariant exact && !cut ==> ExactMemo(g, memo) && ExactKids(g, k, plies, kids)
        invariant cut ==> Full(memo) && !allComplete
        invariant |room| <= MAX_LOCAL_EXCHANGE_NODES ==> !cut
      {
        KidEntriesAreEntries(g, k, plies, i);
        ghost var before := memo;
        var child;
        ghost var childCut;
        child, childCut := Minimax(g[k].captures[i].to, plies - 1, room);
        StaysFull(before, memo);
        StillWithin(old(memo), before, memo, MAX_LOCAL_EXCHANGE_NODES + plies - 1);
        AddKid(g, goal, k, plies, kids, child);
        AddExactKid(g, k, plies, kids, child);
        cut := cut || childCut;
        allComplete := allComplete && child.complete;
        branches := branches + [Prefix(g[k].captures[i].move, child)];
        kids := kids + [child];
      }
      r := Settle(k, plies, branches, allComplete, kids);
    }

    // The best branch of a position all of whose captures have been searched.
    method Settle(k: Key, plies: nat, branches: seq<Result>, allComplete: bool, ghost kids: seq<Result>)
      returns (r: Result)
      requires WellFormed(g) && k in g && plies > 0 && |kids| == |g[k].captures| > 0
      requires GoodKids(g, goal, k, plies, kids) && !(g[k].inCheck && g[k].others)
      requires branches == Branches(g, goal, k, kids) && allComplete == AllComplete(kids)
      ensures Good(g, goal, k, plies, r) && r.complete == allComplete
      ensures ExactKids(g, k, plies, kids) ==> Exact(g, k, plies, r)
    {
      NodeIsProven(g, goal, k, plies, kids);
      var chosen := Choose(branches, g[k].white == goal.white);
      r := Result(chosen.gain, chosen.line, allComplete);
      if ExactKids(g, k, plies, kids) {
        NodeIsExact(g, k, plies, kids, r);
      }
    }
  }
}
