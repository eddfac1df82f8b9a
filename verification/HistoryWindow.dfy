/**
 `history_fingerprint` of mcp_server/cache/key.py: the part of a game's history
 that goes into a cache key, and why it is enough for the repetition rules.
 */
module HistoryWindow {
  import opened Options

  // The positions of a game, as transposition keys, and which of the moves between
  // them cannot be undone.
  datatype Game<K> = Game(positions: seq<K>, irreversible: seq<bool>)

  predicate Played<K>(game: Game<K>) {
    |game.positions| == |game.irreversible| + 1
  }

  // Where the window starts: after the last irreversible move.
  function Start(irreversible: seq<bool>): (start: nat)
    ensures start <= |irreversible| && (start > 0 ==> irreversible[start - 1])
    ensures forall i | start <= i < |irreversible| :: !irreversible[i]
  {
    if irreversible == [] then 0
    else if irreversible[|irreversible| - 1] then |irreversible|
    else Start(irreversible[..|irreversible| - 1])
  }

  function Window<K>(game: Game<K>): (w: seq<K>)
    requires Played(game)
    ensures w != []
  {
    game.positions[Start(game.irreversible)..]
  }

  function Reversed<T>(s: seq<T>): (r: seq<T>)
    ensures |r| == |s| && forall i | 0 <= i < |s| :: r[i] == s[|s| - 1 - i]
  {
    if s == [] then [] else [s[|s| - 1]] + Reversed(s[..|s| - 1])
  }

  // The part of a cache key that depends on the history, before hashing.
  function Keys<K>(game: Game<K>): Option<seq<K>>
    requires Played(game)
  {
    if game.irreversible == [] then None else Some(Reversed(Window(game)))
  }

  function Current<K>(game: Game<K>): K
    requires Played(game)
  {
    game.positions[|game.positions| - 1]
  }

  // The keys that are hashed: the window, latest position first. A game without
  // moves has no fingerprint.
  method HistoryKeys<K>(game: Game<K>) returns (keys: Option<seq<K>>)
    requires Played(game)
    ensures keys == Keys(game)
    ensures keys == None <==> game.irreversible == []
    ensures keys.Some? ==>
              && |keys.value| == |game.positions| - Start(game.irreversible)
              && forall i | 0 <= i < |keys.value| :: keys.value[i] == game.positions[|game.positions| - 1 - i]
  {
    var moves := game.irreversible;
    if moves == [] {
      return None;
    }
    var start := Start(game.irreversible);
    var collected := [game.positions[|moves|]];
    while moves != []
      invariant start <= |moves| <= |game.irreversible| && moves == game.irreversible[..|moves|]
      invariant |collected| == |game.positions| - |moves|
      invariant forall i | 0 <= i < |collected| :: collected[i] == game.positions[|game.positions| - 1 - i]
      decreases |moves|
    {
      var last := moves[|moves| - 1];
      moves := moves[..|moves| - 1];
      if last {
        assert collected == Reversed(Window(game));
        return Some(collected);
      }
      collected := collected + [game.positions[|moves|]];
    }
    assert collected == Reversed(Window(game));
    return Some(collected);
  }

  /* ---------- repetition ---------- */

  function Count<K(==)>(s: seq<K>, k: K): nat {
    if s == [] then 0 else Count(s[..|s| - 1], k) + (if s[|s| - 1] == k then 1 else 0)
  }

  // No position from before an irreversible move comes back after it.
  ghost predicate NoReturn<K>(game: Game<K>)
    requires Played(game)
  {
    forall i, m, j | 0 <= i <= m < j < |game.positions| && game.irreversible[m] ::
      game.positions[i] != game.positions[j]
  }

  function Continued<K>(game: Game<K>, more: Game<K>): Game<K> {
    Game(game.positions + more.positions, game.irreversible + more.irreversible)
  }

  // Moves and positions still to come.
  predicate Ahead<K>(more: Game<K>) {
    |more.positions| == |more.irreversible|
  }

  lemma {:induction false} CountJoin<K>(a: seq<K>, b: seq<K>, k: K)
    ensures Count(a + b, k) == Count(a, k) + Count(b, k)
    decreases |b|
  {
    if b == [] {
      assert a + b == a;
    } else {
      assert (a + b)[..|a + b| - 1] == a + b[..|b| - 1];
      CountJoin(a, b[..|b| - 1], k);
    }
  }

  lemma {:induction false} CountNone<K>(s: seq<K>, k: K)
    requires k !in s
    ensures Count(s, k) == 0
  {
    if s != [] {
      CountNone(s[..|s| - 1], k);
    }
  }

  // However the game goes on, a position of the window or of what follows has
  // occurred as often there as in the whole game; the current position is one.
  lemma WindowCountsAreEnough<K>(game: Game<K>, more: Game<K>, k: K)
    requires Played(game) && Ahead(more) && NoReturn(Continued(game, more))
    requires k in Window(game) + more.positions
    ensures Count(Continued(game, more).positions, k) == Count(Window(game) + more.positions, k)
  {
    var whole := Continued(game, more);
    var start := Start(game.irreversible);
    var early, late := game.positions[..start], Window(game) + more.positions;
    assert whole.positions == early + late;
    var j :| 0 <= j < |late| && late[j] == k;
    assert whole.positions[start + j] == k;
    assert start > 0 ==> whole.irreversible[start - 1];
    forall i | 0 <= i < |early|
      ensures early[i] != k
    {
      assert whole.positions[i] == early[i];
    }
    CountNone(early, k);
    CountJoin(early, late, k);
  }

  lemma ReversedIsInjective<T>(a: seq<T>, b: seq<T>)
    requires Reversed(a) == Reversed(b)
    ensures a == b
  {
    assert |a| == |b|;
    forall i | 0 <= i < |a|
      ensures a[i] == b[i]
    {
      assert Reversed(a)[|a| - 1 - i] == a[i];
    }
  }

  lemma EqualKeysEqualWindows<K>(game: Game<K>, other: Game<K>)
    requires Played(game) && Played(other) && Current(game) == Current(other) && Keys(game) == Keys(other)
    ensures Window(game) == Window(other)
  {
    if game.irreversible == [] {
      assert Window(game) == [Current(game)] && Window(other) == [Current(other)];
    } else {
      ReversedIsInjective(Window(game), Window(other));
    }
  }

  // Two games at the same position with equal keys before hashing, with moves or
  // without, cannot be told apart by counting repetitions, now or after any
  // continuation of both.
  lemma EqualWindowsRepeatAlike<K>(game: Game<K>, other: Game<K>, more: Game<K>, k: K)
    requires Played(game) && Played(other) && Ahead(more)
    requires Current(game) == Current(other) && Keys(game) == Keys(other)
    requires NoReturn(Continued(game, more)) && NoReturn(Continued(other, more))
    requires k in Window(game) + more.positions
    ensures Count(Continued(game, more).positions, k) == Count(Continued(other, more).positions, k)
  {
    EqualKeysEqualWindows(game, other);
    WindowCountsAreEnough(game, more, k);
    WindowCountsAreEnough(other, more, k);
  }
}
