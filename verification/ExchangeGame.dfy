/**
 The game behind `_local_exchange_minimax` in
 mcp_server/analysis/tactical_snapshot_extensions.py: captures on one square, with
 the right to stop for a side that is not in check.  A position is known here by
 its FEN and a move by the rank of its UCI text; what the rules of chess say of a
 position is a record of a finite game.
 */
module ExchangeGame {
  type Key = nat
  type Move = nat

  datatype Capture = Capture(move: Move, to: Key)

  // `captures` are the legal captures on the square, `others` tells whether there
  // are further legal moves, `balance` is White's material less Black's.
  datatype Node = Node(white: bool, inCheck: bool, balance: int, pieces: nat,
                       captures: seq<Capture>, others: bool)

  type Game = map<Key, Node>

  // A capture leaves fewer pieces and hands over the move; the captures of a
  // position are distinct and listed in the order of their text.
  ghost predicate WellFormed(g: Game) {
    forall k | k in g ::
      && (forall i | 0 <= i < |g[k].captures| ::
            && g[k].captures[i].to in g
            && g[g[k].captures[i].to].pieces < g[k].pieces
            && g[g[k].captures[i].to].white != g[k].white)
      && (forall i, j | 0 <= i < j < |g[k].captures| :: g[k].captures[i].move < g[k].captures[j].move)
  }

  // The side whose gain is counted and the balance it is counted from.
  datatype Goal = Goal(white: bool, baseline: int)

  function Material(n: Node, white: bool): int { if white then n.balance else -n.balance }

  function Gain(g: Game, goal: Goal, k: Key): int
    requires k in g
  {
    Material(g[k], goal.white) - goal.baseline
  }

  predicate Maximises(g: Game, goal: Goal, k: Key)
    requires k in g
  {
    g[k].white == goal.white
  }

  // x is at least as good as y for the side to move.
  predicate AtLeast(maximise: bool, x: int, y: int) {
    if maximise then x >= y else x <= y
  }

  function Better(maximise: bool, x: int, y: int): int {
    if AtLeast(maximise, x, y) then x else y
  }

  function To(g: Game, k: Key, i: nat): Key
    requires k in g && i < |g[k].captures|
  {
    g[k].captures[i].to
  }

  /* ---------- unbounded minimax ---------- */

  ghost function Value(g: Game, goal: Goal, k: Key): int
    requires WellFormed(g) && k in g
    decreases g[k].pieces, 1, 0
  {
    if g[k].captures == [] then Gain(g, goal, k)
    else if g[k].inCheck then BestCapture(g, goal, k, |g[k].captures|)
    else Better(Maximises(g, goal, k), BestCapture(g, goal, k, |g[k].captures|), Gain(g, goal, k))
  }

  // The best value among the first n captures.
  ghost function BestCapture(g: Game, goal: Goal, k: Key, n: nat): int
    requires WellFormed(g) && k in g && 0 < n <= |g[k].captures|
    decreases g[k].pieces, 0, n
  {
    var last := Value(g, goal, To(g, k, n - 1));
    if n == 1 then last else Better(Maximises(g, goal, k), BestCapture(g, goal, k, n - 1), last)
  }

  // No checked position of the tree has an evasion off the square.
  ghost predicate Closed(g: Game, k: Key)
    requires WellFormed(g) && k in g
    decreases g[k].pieces
  {
    !(g[k].inCheck && g[k].others) && forall i | 0 <= i < |g[k].captures| :: Closed(g, To(g, k, i))
  }

  // The tree has no line of captures longer than `plies`.
  ghost predicate Fits(g: Game, k: Key, plies: nat)
    requires WellFormed(g) && k in g
    decreases g[k].pieces
  {
    g[k].captures == [] || (plies > 0 && forall i | 0 <= i < |g[k].captures| :: Fits(g, To(g, k, i), plies - 1))
  }

  /* ---------- lines ---------- */

  function IndexOf(captures: seq<Capture>, m: Move): (i: nat)
    ensures i < |captures| ==> captures[i].move == m
  {
    if captures == [] then 0 else if captures[0].move == m then 0 else 1 + IndexOf(captures[1..], m)
  }

  predicate HasMove(g: Game, k: Key, m: Move)
    requires k in g
  {
    IndexOf(g[k].captures, m) < |g[k].captures|
  }

  function After(g: Game, k: Key, m: Move): Key
    requires k in g && HasMove(g, k, m)
  {
    To(g, k, IndexOf(g[k].captures, m))
  }

  // `line` is a legal sequence of captures on the square from position k ...
  ghost predicate Legal(g: Game, k: Key, line: seq<Move>)
    requires WellFormed(g) && k in g
    decreases |line|
  {
    line == [] || (HasMove(g, k, line[0]) && Legal(g, After(g, k, line[0]), line[1..]))
  }

  // ... and leads to this position.
  ghost function End(g: Game, k: Key, line: seq<Move>): Key
    requires WellFormed(g) && k in g && Legal(g, k, line)
    ensures End(g, k, line) in g
    decreases |line|
  {
    if line == [] then k else End(g, After(g, k, line[0]), line[1..])
  }

  // A principal variation: best play for both sides, down to a position where the
  // side to move may stop and does best by stopping.
  ghost predicate Principal(g: Game, goal: Goal, k: Key, line: seq<Move>)
    requires WellFormed(g) && k in g
    decreases |line|
  {
    if line == [] then
      Value(g, goal, k) == Gain(g, goal, k) && (g[k].captures == [] || !g[k].inCheck)
    else
      && HasMove(g, k, line[0])
      && Value(g, goal, After(g, k, line[0])) == Value(g, goal, k)
      && Principal(g, goal, After(g, k, line[0]), line[1..])
  }

  // Python's order on (length, moves).
  predicate LexAtMost(a: seq<Move>, b: seq<Move>)
    requires |a| == |b|
  {
    a == [] || a[0] < b[0] || (a[0] == b[0] && LexAtMost(a[1..], b[1..]))
  }

  predicate AtMost(a: seq<Move>, b: seq<Move>) {
    |a| < |b| || (|a| == |b| && LexAtMost(a, b))
  }

  ghost predicate TopPrincipal(g: Game, goal: Goal, k: Key, line: seq<Move>)
    requires WellFormed(g) && k in g
  {
    Principal(g, goal, k, line) && forall other :: Principal(g, goal, k, other) ==> AtMost(other, line)
  }

  /* ---------- lemmas ---------- */

  lemma {:induction false} IndexOfSorted(captures: seq<Capture>, i: nat)
    requires i < |captures|
    requires forall a, b | 0 <= a < b < |captures| :: captures[a].move < captures[b].move
    ensures IndexOf(captures, captures[i].move) == i
  {
    if i > 0 {
      IndexOfSorted(captures[1..], i - 1);
    }
  }

  lemma AfterIs(g: Game, k: Key, i: nat)
    requires WellFormed(g) && k in g && i < |g[k].captures|
    ensures HasMove(g, k, g[k].captures[i].move) && After(g, k, g[k].captures[i].move) == To(g, k, i)
  {
    IndexOfSorted(g[k].captures, i);
  }

  // The best capture is the value of some capture and no capture is better.
  lemma {:induction false} BestCaptureIsBest(g: Game, goal: Goal, k: Key, n: nat)
    requires WellFormed(g) && k in g && 0 < n <= |g[k].captures|
    ensures exists i :: 0 <= i < n && BestCapture(g, goal, k, n) == Value(g, goal, To(g, k, i))
    ensures forall i | 0 <= i < n :: AtLeast(Maximises(g, goal, k), BestCapture(g, goal, k, n), Value(g, goal, To(g, k, i)))
    decreases n
  {
    if n > 1 {
      BestCaptureIsBest(g, goal, k, n - 1);
      var j :| 0 <= j < n - 1 && BestCapture(g, goal, k, n - 1) == Value(g, goal, To(g, k, j));
    }
    assert BestCapture(g, goal, k, n) == Value(g, goal, To(g, k, n - 1))
           || (n > 1 && BestCapture(g, goal, k, n) == BestCapture(g, goal, k, n - 1));
  }

  // What minimax means: the value is reached by stopping or by a capture; the side
  // whose gain is counted gets no less than by anything it may do, and the other side
  // concedes no more.
  lemma ValueIsMinimax(g: Game, goal: Goal, k: Key)
    requires WellFormed(g) && k in g
    ensures var v := Value(g, goal, k);
            var stop := (if goal.white then g[k].balance else -g[k].balance) - goal.baseline;
            var mayStop := g[k].captures == [] || !g[k].inCheck;
            && (|| (mayStop && v == stop)
                || (exists i :: 0 <= i < |g[k].captures| && v == Value(g, goal, To(g, k, i))))
            && (if g[k].white == goal.white
                then (mayStop ==> v >= stop) && (forall i | 0 <= i < |g[k].captures| :: v >= Value(g, goal, To(g, k, i)))
                else (mayStop ==> v <= stop) && (forall i | 0 <= i < |g[k].captures| :: v <= Value(g, goal, To(g, k, i))))
  {
    if g[k].captures != [] {
      BestCaptureIsBest(g, goal, k, |g[k].captures|);
    }
  }

  lemma {:induction false} LexAntisymmetric(a: seq<Move>, b: seq<Move>)
    requires |a| == |b| && LexAtMost(a, b) && LexAtMost(b, a)
    ensures a == b
    decreases |a|
  {
    if a != [] {
      LexAntisymmetric(a[1..], b[1..]);
      assert a == [a[0]] + a[1..] && b == [b[0]] + b[1..];
    }
  }

  lemma {:induction false} LexTransitive(a: seq<Move>, b: seq<Move>, c: seq<Move>)
    requires |a| == |b| == |c| && LexAtMost(a, b) && LexAtMost(b, c)
    ensures LexAtMost(a, c)
    decreases |a|
  {
    if a != [] && a[0] == b[0] == c[0] {
      LexTransitive(a[1..], b[1..], c[1..]);
    }
  }

  lemma {:induction false} LexTotal(a: seq<Move>, b: seq<Move>)
    requires |a| == |b|
    ensures LexAtMost(a, b) || LexAtMost(b, a)
    decreases |a|
  {
    if a != [] {
      LexTotal(a[1..], b[1..]);
    }
  }

  lemma AtMostTransitive(a: seq<Move>, b: seq<Move>, c: seq<Move>)
    requires AtMost(a, b) && AtMost(b, c)
    ensures AtMost(a, c)
  {
    if |a| == |b| == |c| {
      LexTransitive(a, b, c);
    }
  }

  lemma AtMostTotal(a: seq<Move>, b: seq<Move>)
    ensures AtMost(a, b) || AtMost(b, a)
    ensures AtMost(a, a)
  {
    LexTotal(a, a);
    if |a| == |b| {
      LexTotal(a, b);
    }
  }

  lemma TopPrincipalIsUnique(g: Game, goal: Goal, k: Key, a: seq<Move>, b: seq<Move>)
    requires WellFormed(g) && k in g
    requires TopPrincipal(g, goal, k, a) && TopPrincipal(g, goal, k, b)
    ensures a == b
  {
    assert AtMost(a, b) && AtMost(b, a);
    LexAntisymmetric(a, b);
  }

  // A principal variation is a legal line and ends with exactly the value in hand.
  lemma {:induction false} PrincipalRealisesValue(g: Game, goal: Goal, k: Key, line: seq<Move>)
    requires WellFormed(g) && k in g && Principal(g, goal, k, line)
    ensures Legal(g, k, line) && Gain(g, goal, End(g, k, line)) == Value(g, goal, k)
    decreases |line|
  {
    if line != [] {
      PrincipalRealisesValue(g, goal, After(g, k, line[0]), line[1..]);
    }
  }

  /* ---------- the two colours ---------- */

  // What one side gains the other loses.
  lemma {:induction false} ColoursAreOpposite(g: Game, white: bool, baseline: int, k: Key)
    requires WellFormed(g) && k in g
    ensures Value(g, Goal(!white, -baseline), k) == -Value(g, Goal(white, baseline), k)
    decreases g[k].pieces, 1, 0
  {
    if g[k].captures != [] {
      BestCapturesAreOpposite(g, white, baseline, k, |g[k].captures|);
    }
  }

  lemma {:induction false} BestCapturesAreOpposite(g: Game, white: bool, baseline: int, k: Key, n: nat)
    requires WellFormed(g) && k in g && 0 < n <= |g[k].captures|
    ensures BestCapture(g, Goal(!white, -baseline), k, n) == -BestCapture(g, Goal(white, baseline), k, n)
    decreases g[k].pieces, 0, n
  {
    ColoursAreOpposite(g, white, baseline, To(g, k, n - 1));
    if n > 1 {
      BestCapturesAreOpposite(g, white, baseline, k, n - 1);
    }
  }

  /* ---------- what fits and what is closed, told by lines ---------- */

  // The tree fits the plies if and only if no line of captures is longer.
  lemma FitsMeansNoLongerLine(g: Game, k: Key, plies: nat)
    requires WellFormed(g) && k in g
    ensures Fits(g, k, plies) <==> forall line :: Legal(g, k, line) ==> |line| <= plies
  {
    if Fits(g, k, plies) {
      forall line | Legal(g, k, line)
        ensures |line| <= plies
      {
        FittingLine(g, k, plies, line);
      }
    } else {
      var line := LongerLine(g, k, plies);
    }
  }

  lemma {:induction false} FittingLine(g: Game, k: Key, plies: nat, line: seq<Move>)
    requires WellFormed(g) && k in g && Fits(g, k, plies) && Legal(g, k, line)
    ensures |line| <= plies
    decreases |line|
  {
    if line != [] {
      assert Fits(g, To(g, k, IndexOf(g[k].captures, line[0])), plies - 1);
      FittingLine(g, After(g, k, line[0]), plies - 1, line[1..]);
    }
  }

  lemma FirstMove(g: Game, k: Key, i: nat, rest: seq<Move>)
    requires WellFormed(g) && k in g && i < |g[k].captures| && Legal(g, To(g, k, i), rest)
    ensures Legal(g, k, [g[k].captures[i].move] + rest)
    ensures End(g, k, [g[k].captures[i].move] + rest) == End(g, To(g, k, i), rest)
  {
    AfterIs(g, k, i);
    assert ([g[k].captures[i].move] + rest)[1..] == rest;
  }

  lemma {:induction false} LongerLine(g: Game, k: Key, plies: nat) returns (line: seq<Move>)
    requires WellFormed(g) && k in g && !Fits(g, k, plies)
    ensures Legal(g, k, line) && |line| > plies
    decreases plies
  {
    if plies == 0 {
      FirstMove(g, k, 0, []);
      line := [g[k].captures[0].move] + [];
    } else {
      var i :| 0 <= i < |g[k].captures| && !Fits(g, To(g, k, i), plies - 1);
      var rest := LongerLine(g, To(g, k, i), plies - 1);
      FirstMove(g, k, i, rest);
      line := [g[k].captures[i].move] + rest;
    }
  }

  // The tree is closed if and only if no line of captures leads to a check that can be
  // answered off the square.
  lemma ClosedMeansNoEvasion(g: Game, k: Key)
    requires WellFormed(g) && k in g
    ensures Closed(g, k) <==> forall line :: NoEvasion(g, k, line)
  {
    if Closed(g, k) {
      forall line
        ensures NoEvasion(g, k, line)
      {
        if Legal(g, k, line) {
          ClosedLine(g, k, line);
        }
      }
    } else {
      var line := EvadingLine(g, k);
      assert !NoEvasion(g, k, line);
    }
  }

  ghost predicate NoEvasion(g: Game, k: Key, line: seq<Move>)
    requires WellFormed(g) && k in g
  {
    Legal(g, k, line) ==> !Evades(g[End(g, k, line)])
  }

  predicate Evades(n: Node) { n.inCheck && n.others }

  lemma {:induction false} ClosedLine(g: Game, k: Key, line: seq<Move>)
    requires WellFormed(g) && k in g && Closed(g, k) && Legal(g, k, line)
    ensures !Evades(g[End(g, k, line)])
    decreases |line|
  {
    if line != [] {
      assert Closed(g, To(g, k, IndexOf(g[k].captures, line[0])));
      ClosedLine(g, After(g, k, line[0]), line[1..]);
    }
  }

  lemma {:induction false} EvadingLine(g: Game, k: Key) returns (line: seq<Move>)
    requires WellFormed(g) && k in g && !Closed(g, k)
    ensures Legal(g, k, line) && Evades(g[End(g, k, line)])
    decreases g[k].pieces
  {
    if Evades(g[k]) {
      line := [];
    } else {
      var i :| 0 <= i < |g[k].captures| && !Closed(g, To(g, k, i));
      var rest := EvadingLine(g, To(g, k, i));
      FirstMove(g, k, i, rest);
      line := [g[k].captures[i].move] + rest;
    }
  }

  // A shorter line comes first, and of two of one length the one with the smaller move
  // where they first differ.
  lemma AtMostMeans(a: seq<Move>, b: seq<Move>)
    ensures AtMost(a, b) <==> |a| < |b| || (|a| == |b| && (a == b || exists i :: FirstLess(a, b, i)))
  {
    if |a| == |b| {
      if LexAtMost(a, b) && a != b {
        var i := FirstDifference(a, b);
      } else if i :| FirstLess(a, b, i) {
        LessAtDifference(a, b, i);
      } else if a == b {
        LexTotal(a, a);
      }
    }
  }

  // Equal up to i, and smaller there.
  predicate FirstLess(a: seq<Move>, b: seq<Move>, i: nat) {
    i < |a| && i < |b| && a[..i] == b[..i] && a[i] < b[i]
  }

  lemma {:induction false} FirstDifference(a: seq<Move>, b: seq<Move>) returns (i: nat)
    requires |a| == |b| && LexAtMost(a, b) && a != b
    ensures FirstLess(a, b, i)
    decreases |a|
  {
    i := 0;
    if a[0] == b[0] {
      assert a == [a[0]] + a[1..] && b == [b[0]] + b[1..];
      var j := FirstDifference(a[1..], b[1..]);
      i := j + 1;
      assert a[..i] == [a[0]] + a[1..][..j] && b[..i] == [b[0]] + b[1..][..j];
    }
  }

  lemma {:induction false} LessAtDifference(a: seq<Move>, b: seq<Move>, i: nat)
    requires |a| == |b| && FirstLess(a, b, i)
    ensures LexAtMost(a, b)
    decreases |a|
  {
    if i > 0 {
      assert a[0] == a[..i][0] && b[0] == b[..i][0];
      assert a[1..][..i - 1] == a[..i][1..] && b[1..][..i - 1] == b[..i][1..];
      LessAtDifference(a[1..], b[1..], i - 1);
    }
  }
}
