/**
 `_local_exchange_hanging_candidates`: which captures of a position are reported
 as winning at least a pawn in the exchange on their target square.
 */
module HangingCandidates {
  import opened Options
  import opened ExchangeGame
  import opened ExchangeSolver

  // Two complete results for one position are the same, whatever the plies, the
  // memo and the budget they were computed with.
  lemma CompleteResultsAgree(g: Game, goal: Goal, k: Key, p: nat, a: Result, q: nat, b: Result)
    requires WellFormed(g) && k in g
    requires Good(g, goal, k, p, a) && Good(g, goal, k, q, b) && a.complete && b.complete
    ensures a == b
  {
    TopPrincipalIsUnique(g, goal, k, a.line, b.line);
  }

  // More plies never lose completeness.
  lemma {:induction false} FitsMore(g: Game, k: Key, p: nat, q: nat)
    requires WellFormed(g) && k in g && Fits(g, k, p) && p <= q
    ensures Fits(g, k, q)
    decreases p
  {
    if g[k].captures != [] {
      forall i | 0 <= i < |g[k].captures|
        ensures Fits(g, To(g, k, i), q - 1)
      {
        FitsMore(g, To(g, k, i), p - 1, q - 1);
      }
    }
  }

  // A legal capture of the position: its target, the exchange game on the target
  // square and the position the capture leads to.
  datatype RootCapture = RootCapture(move: Move, enPassant: bool, ordinaryTarget: bool, defenders: nat,
                                     game: Game, post: Key)

  datatype Candidate = Candidate(index: nat, gain: int, line: seq<Move>)

  ghost predicate ValidRoot(captures: seq<RootCapture>) {
    forall i | 0 <= i < |captures| :: WellFormed(captures[i].game) && captures[i].post in captures[i].game
  }

  // An ordinary capture, not of a king, of a defended piece that can be taken back.
  predicate Contested(c: RootCapture)
    requires c.post in c.game
  {
    !c.enPassant && c.ordinaryTarget && c.defenders > 0 && c.game[c.post].captures != []
  }

  // The exchange, fully searched within the ply bound, wins at least a pawn.
  ghost predicate Wins(c: RootCapture, goal: Goal)
    requires WellFormed(c.game) && c.post in c.game
  {
    && Closed(c.game, c.post) && Fits(c.game, c.post, MAX_LOCAL_EXCHANGE_PLIES - 1)
    && Value(c.game, goal, c.post) >= PAWN
  }

  ghost predicate InBudget(c: RootCapture)
    requires WellFormed(c.game) && c.post in c.game
  {
    |Entries(c.game, c.post, MAX_LOCAL_EXCHANGE_PLIES - 1)| <= MAX_LOCAL_EXCHANGE_NODES
  }

  // What is reported of a capture holds of the unbounded exchange.
  ghost predicate Justified(c: RootCapture, goal: Goal, out: Candidate)
    requires WellFormed(c.game) && c.post in c.game
  {
    && Contested(c) && Wins(c, goal)
    && out.gain == Value(c.game, goal, c.post)
    && out.line != [] && out.line[0] == c.move && TopPrincipal(c.game, goal, c.post, out.line[1..])
  }

  // `cut` says whether the node budget ran out.
  method Solve(c: RootCapture, goal: Goal) returns (r: Result, ghost cut: bool)
    requires WellFormed(c.game) && c.post in c.game
    ensures Good(c.game, goal, c.post, MAX_LOCAL_EXCHANGE_PLIES - 1, r)
    ensures !cut ==> Exact(c.game, c.post, MAX_LOCAL_EXCHANGE_PLIES - 1, r)
    ensures cut ==> !r.complete
    ensures InBudget(c) ==> !cut
  {
    var solver := new Solver(c.game, goal);
    r, cut := solver.Minimax(c.post, MAX_LOCAL_EXCHANGE_PLIES - 1,
                             Entries(c.game, c.post, MAX_LOCAL_EXCHANGE_PLIES - 1));
  }

  method Consider(i: nat, c: RootCapture, goal: Goal) returns (found: Option<Candidate>, ghost cut: bool)
    requires WellFormed(c.game) && c.post in c.game
    ensures found.Some? ==> found.value.index == i && Justified(c, goal, found.value) && !cut
    ensures !cut ==> (found.Some? <==> Contested(c) && Wins(c, goal))
    ensures InBudget(c) ==> !cut
  {
    found, cut := None, false;
    if c.enPassant {
      return;
    }
    if !c.ordinaryTarget {
      return;
    }
    if c.defenders <= 0 {
      return;
    }
    if c.game[c.post].captures == [] {
      return;
    }
    var r;
    r, cut := Solve(c, goal);
    if !r.complete || r.gain < PAWN {
      return;
    }
    found := Some(Candidate(i, r.gain, [c.move] + r.line));
    assert found.value.line[1..] == r.line;
  }

  // Every report is justified; a capture whose search did not run out of its node
  // budget, as none within the budget does, is reported exactly when it is contested
  // and wins.  `cut` are the captures whose search ran out of it; none is reported.
  method LocalExchangeHangingCandidates(captures: seq<RootCapture>, goal: Goal)
    returns (out: seq<Candidate>, ghost cut: set<nat>)
    requires ValidRoot(captures)
    ensures forall j | 0 <= j < |out| ::
              out[j].index < |captures| && Justified(captures[out[j].index], goal, out[j])
    ensures forall j, l | 0 <= j < l < |out| :: out[j].index < out[l].index
    ensures forall i | 0 <= i < |captures| && i !in cut ::
              (exists j :: 0 <= j < |out| && out[j].index == i) <==> Contested(captures[i]) && Wins(captures[i], goal)
    ensures forall i | 0 <= i < |captures| && InBudget(captures[i]) :: i !in cut
    ensures forall j | 0 <= j < |out| :: out[j].index !in cut
  {
    out, cut := [], {};
    for i := 0 to |captures|
      invariant forall j | 0 <= j < |out| ::
                  out[j].index < i && Justified(captures[out[j].index], goal, out[j])
      invariant forall j, l | 0 <= j < l < |out| :: out[j].index < out[l].index
      invariant forall h | 0 <= h < i && h !in cut && Contested(captures[h]) && Wins(captures[h], goal) ::
                  exists j :: 0 <= j < |out| && out[j].index == h
      invariant forall h | h in cut :: h < i && !InBudget(captures[h])
      invariant forall j | 0 <= j < |out| :: out[j].index !in cut
    {
      ghost var before := out;
      var found;
      ghost var ranOut;
      found, ranOut := Consider(i, captures[i], goal);
      if ranOut {
        cut := cut + {i};
      }
      if found.Some? {
        out := out + [found.value];
        assert out[|before|].index == i;
      }
      assert forall j | 0 <= j < |before| :: out[j] == before[j];
    }
  }
}
