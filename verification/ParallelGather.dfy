/**
 `gather_evaluate_positions_bounded` of mcp_server/engine/parallel_gather.py: a
 batch is cut into slices, one for each worker, and the results are put together.
 */
module ParallelGather {
  import opened Options

  function Max(a: int, b: int): int { if a >= b then a else b }
  function Min(a: int, b: int): int { if a <= b then a else b }

  // Workers for a batch of n positions on a pool of `target` engines.
  function Workers(target: int, n: nat): int {
    var most := if target >= 5 then Max(1, target - 2) else Max(1, target - 1);
    Max(1, Min(most, n))
  }

  function CeilDiv(n: nat, k: nat): (c: nat)
    requires k > 0
    ensures c * k >= n && (c > 0 ==> (c - 1) * k < n)
  {
    var c := (n + k - 1) / k;
    assert c * k + (n + k - 1) % k == n + k - 1;
    c
  }

  lemma TimesMonotone(a: int, b: int, c: int)
    requires a <= b && 0 <= c
    ensures a * c <= b * c
  {
  }

  lemma NoMorePieces(n: nat, k: nat, chunk: nat, pieces: nat)
    requires n <= chunk * k && (pieces > 0 ==> (pieces - 1) * chunk < n)
    ensures pieces <= k
  {
    if pieces > k {
      TimesMonotone(k, pieces - 1, chunk);
    }
  }

  // As many slices as there are workers are enough: cutting off the rest drops nothing.
  lemma NoMoreSlicesThanWorkers(n: nat, k: nat)
    requires n > 0 && k > 0
    ensures CeilDiv(n, k) > 0 && CeilDiv(n, CeilDiv(n, k)) <= k
  {
    NoMorePieces(n, k, CeilDiv(n, k), CeilDiv(n, CeilDiv(n, k)));
  }

  // A batch never takes the last engine of a pool of two or more, nor the last two
  // of five or more.
  lemma BatchLeavesAnEngine(target: int, n: nat)
    ensures target >= 2 ==> Workers(target, n) <= target - 1
    ensures target >= 5 ==> Workers(target, n) <= target - 2
    ensures 1 <= Workers(target, n) <= Max(1, n)
  {
  }

  // Within that, and one worker for a position at most, it takes all it can.
  lemma BatchTakesAllItMay(target: int, n: nat, w: int)
    requires 1 <= w <= n && w <= (if target >= 5 then target - 2 else target - 1)
    ensures w <= Workers(target, n)
  {
  }

  /* ---------- slicing ---------- */

  // The indices from `start` up to `end`.
  function Range(start: nat, end: nat): (r: seq<nat>)
    ensures |r| == if end <= start then 0 else end - start
    ensures forall i | 0 <= i < |r| :: r[i] == start + i
  {
    seq(if end <= start then 0 else end - start, i => start + i)
  }

  function Flat(slices: seq<seq<nat>>): seq<nat> {
    if slices == [] then [] else Flat(slices[..|slices| - 1]) + slices[|slices| - 1]
  }

  // Slices of a batch: in order, none empty or over the chunk size and all but the last
  // of that size, each a stretch of neighbouring indices, together every index once.
  ghost predicate Slicing(slices: seq<seq<nat>>, n: nat, chunk: nat) {
    && Flat(slices) == Range(0, n)
    && forall s | 0 <= s < |slices| ::
         && 0 < |slices[s]| <= chunk && (s < |slices| - 1 ==> |slices[s]| == chunk)
         && forall j | 0 < j < |slices[s]| :: slices[s][j] == slices[s][j - 1] + 1
  }

  lemma AddSlice(slices: seq<seq<nat>>, start: nat, end: nat, n: nat, chunk: nat)
    requires Slicing(slices, start, chunk) && start < end <= n && end <= start + chunk
    requires slices != [] ==> |slices[|slices| - 1]| == chunk
    ensures Slicing(slices + [Range(start, end)], end, chunk)
  {
    assert (slices + [Range(start, end)])[..|slices|] == slices;
    assert Range(0, start) + Range(start, end) == Range(0, end);
  }

  method Cut(n: nat, k: nat, chunk: nat) returns (slices: seq<seq<nat>>)
    requires n > 0 && chunk > 0 && n <= chunk * k
    ensures |slices| <= k && Slicing(slices, n, chunk)
  {
    slices := [];
    var start := 0;
    ghost var done := 0;
    while start < n
      invariant start == |slices| * chunk && done == Min(start, n) && Slicing(slices, done, chunk)
      invariant |slices| > 0 ==> (|slices| - 1) * chunk < n
      invariant start < n && slices != [] ==> |slices[|slices| - 1]| == chunk
      decreases n - start
    {
      var end := Min(start + chunk, n);
      AddSlice(slices, start, end, n, chunk);
      slices := slices + [Range(start, end)];
      start := start + chunk;
      done := end;
    }
    NoMorePieces(n, k, chunk, |slices|);
  }

  // The slice `s[:k]`.
  function FirstUpTo<T>(s: seq<T>, k: nat): seq<T> {
    if |s| <= k then s else s[..k]
  }

  method Slices(n: nat, k: nat) returns (slices: seq<seq<nat>>)
    requires n > 0 && k > 0
    ensures |slices| <= k && Slicing(slices, n, CeilDiv(n, k))
  {
    slices := Cut(n, k, CeilDiv(n, k));
    slices := FirstUpTo(slices, k);
  }

  /* ---------- putting the results together ---------- */

  // What is returned for a position: what the caller knows already, or else what the
  // cached evaluator says.
  function Results<R>(known: seq<Option<R>>, evaluated: seq<R>): (r: seq<R>)
    requires |known| == |evaluated|
  {
    seq(|known|, i requires 0 <= i < |known| => if known[i].Some? then known[i].value else evaluated[i])
  }

  method RunSlice<R>(slice: seq<nat>, known: seq<Option<R>>, evaluated: seq<R>) returns (answers: seq<(nat, R)>)
    requires |known| == |evaluated| && forall j | 0 <= j < |slice| :: slice[j] < |known|
    ensures |answers| == |slice|
    ensures forall j | 0 <= j < |slice| :: answers[j] == (slice[j], Results(known, evaluated)[slice[j]])
  {
    answers := [];
    for j := 0 to |slice|
      invariant |answers| == j
      invariant forall h | 0 <= h < j :: answers[h] == (slice[h], Results(known, evaluated)[slice[h]])
    {
      var i := slice[j];
      if known[i].Some? {
        answers := answers + [(i, known[i].value)];
        continue;
      }
      answers := answers + [(i, evaluated[i])];
    }
  }

  lemma {:induction false} FlatPlace(slices: seq<seq<nat>>, s: nat, j: nat)
    requires s < |slices| && j < |slices[s]|
    ensures |Flat(slices[..s])| + j < |Flat(slices)|
    ensures Flat(slices)[|Flat(slices[..s])| + j] == slices[s][j]
  {
    var last := |slices| - 1;
    if s < last {
      FlatPlace(slices[..last], s, j);
      assert slices[..last][..s] == slices[..s];
    }
  }

  // A slice's answers: each position's result with its index.
  predicate Answers<R(==)>(slice: seq<nat>, results: seq<R>, answers: seq<(nat, R)>) {
    && |answers| == |slice|
    && forall j | 0 <= j < |slice| :: slice[j] < |results| && answers[j] == (slice[j], results[slice[j]])
  }

  method WriteAnswers<R(==)>(out: array<Option<R>>, slice: seq<nat>, results: seq<R>, answers: seq<(nat, R)>)
    requires out.Length == |results| && Answers(slice, results, answers)
    modifies out
    ensures forall i | 0 <= i < out.Length :: out[i] == if i in slice then Some(results[i]) else old(out[i])
  {
    for j := 0 to |answers|
      invariant forall i | 0 <= i < out.Length :: out[i] == if i in slice[..j] then Some(results[i]) else old(out[i])
    {
      out[answers[j].0] := Some(answers[j].1);
      assert slice[..j + 1] == slice[..j] + [slice[j]];
    }
    assert slice[..|slice|] == slice;
  }

  // Every index of the batch is in a slice.
  lemma {:induction false} FlatSource(slices: seq<seq<nat>>, at: nat) returns (s: nat, j: nat)
    requires at < |Flat(slices)|
    ensures s < |slices| && j < |slices[s]| && Flat(slices)[at] == slices[s][j]
  {
    var last := |slices| - 1;
    var before := |Flat(slices[..last])|;
    if at >= before {
      return last, at - before;
    }
    s, j := FlatSource(slices[..last], at);
  }

  // Every answer goes to its own index, so the result is in the order of the batch
  // in whatever order the slices are written: `order` may be any list that names
  // each slice, `finished` the answers of the slices in that order.
  method Reassemble<R(==)>(n: nat, slices: seq<seq<nat>>, results: seq<R>, order: seq<nat>, finished: seq<seq<(nat, R)>>)
    returns (out: array<Option<R>>)
    requires Flat(slices) == Range(0, n) && |results| == n && |finished| == |order|
    requires forall o | 0 <= o < |order| :: order[o] < |slices| && Answers(slices[order[o]], results, finished[o])
    requires forall s | 0 <= s < |slices| :: s in order
    ensures fresh(out) && out.Length == n && forall i | 0 <= i < n :: out[i] == Some(results[i])
  {
    out := new Option<R>[n](_ => None);
    for o := 0 to |order|
      invariant forall p, j | 0 <= p < o && 0 <= j < |slices[order[p]]| ::
                  out[slices[order[p]][j]] == Some(results[slices[order[p]][j]])
    {
      WriteAnswers(out, slices[order[o]], results, finished[o]);
    }
    forall i | 0 <= i < n
      ensures out[i] == Some(results[i])
    {
      var s, j := FlatSource(slices, i);
      assert s in order;
      var p :| 0 <= p < |order| && order[p] == s;
      assert slices[order[p]][j] == i;
    }
  }

  // The workers finish in any order: `pending` is emptied in an arbitrary one, and the
  // answers may be written in that order or, as the source does, in the slices' own.
  method GatherEvaluatePositionsBounded<R(==)>(target: int, known: seq<Option<R>>, evaluated: seq<R>)
    returns (out: seq<R>)
    requires |known| == |evaluated|
    ensures out == Results(known, evaluated)
  {
    var n := |known|;
    if n == 0 {
      return [];
    }
    var slices := Slices(n, Workers(target, n));
    var results := Results(known, evaluated);
    var order: seq<nat> := [];
    var finished: seq<seq<(nat, R)>> := [];
    var all := Range(0, |slices|);
    var pending := set s | s in all;
    forall s | 0 <= s < |slices|
      ensures s in pending
    {
      assert all[s] == s;
    }
    while pending != {}
      invariant forall s | s in pending :: s < |slices|
      invariant forall s | 0 <= s < |slices| :: s in pending || s in order
      invariant |finished| == |order|
      invariant forall o | 0 <= o < |order| :: order[o] < |slices| && Answers(slices[order[o]], results, finished[o])
      decreases pending
    {
      var s :| s in pending;
      forall j | 0 <= j < |slices[s]|
        ensures slices[s][j] < n
      {
        FlatPlace(slices, s, j);
      }
      var answers := RunSlice(slices[s], known, evaluated);
      order := order + [s];
      finished := finished + [answers];
      pending := pending - {s};
    }
    var cells := Reassemble(n, slices, results, order, finished);
    out := seq(n, i requires 0 <= i < n reads cells => if cells[i].Some? then cells[i].value else evaluated[i]);
  }
}
