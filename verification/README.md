# A verified model of the chess analysis server's concurrent core

This project models the parts of the server in which many callers share engines,
caches and connections, and some of the algorithms that turn engine output into
evidence, and proves their properties with Dafny 4.11. `dafny verify dfyconfig.toml`
checks everything. Nothing of the server itself is executed.

A coroutine can only be interleaved at a suspension point, so each stretch between
two awaits is one atomic step of a transition system; a run is any sequence of steps.
Beside each transition system stands a class whose methods are those stretches in the
server's own imperative form, each proved to be the step it stands for; the table lists
those that keep the system's invariant or promise something of their own.

- **UCI broker** (`UciBroker`, `BrokerInvariant`, `BrokerSafety`, `BrokerRuns`,
  `BrokerHistory`, `BrokerScript`, `BrokerProgress`, `EngineBroker`): client sessions,
  their search tasks, the engine lock, both pipes to the engine and the engine.
  Assumed: writes to clients do not raise, reads do not time out, the engine does not
  die, and a serving coroutine is not cancelled. The engine behaves as UCI says: one `readyok` for each `isready`, one
  `bestmove` for each `go`, a `stop` ends the search under way and is ignored otherwise,
  and a search without a bound (`go infinite`) ends only after a `stop`; which `go` lines
  set no bound is a parameter.
- **Engine pool** (`EnginePool`, `PoolSafety`, `PoolTurns`, `PoolClass`): checkout,
  crash replacement with one retry, cancellation, the self-heal task and `close`.
- **Cache and coalescing** (`CacheFlight`, `CacheSafety`, `CacheAnswers`,
  `CachedEvaluator`, `LruCache`, `LruRecency`): two tiers, the second look at the
  first tier, and `SingleFlight`.
- **Local exchange solver** (`ExchangeGame`, `ExchangeSolver`, `HangingCandidates`): the
  memoised, bounded search against unbounded minimax on an abstract finite game in which
  each capture removes a piece.
- **Game segments** (`SegmentStates`, `GameSegments`): the debouncer and the segments.
- **TCP client** (`UciInfo`, `UciWire`, `TcpClient`): what the client believes about a
  remote engine, the `info` parser and the collector of variations. What happens at each
  suspension point is an arbitrary list of events fixed before the run.
- **Smaller ones**: `MovetextStripping`, `BraceComments`, `PgnComments`,
  `HistoryWindow`, `ParallelGather`, `PvWalks`.

What the proofs found out about the code:

- A stop, a disconnect or a preemption that is written while the search it is for still
  configures the engine is lost (`BrokerRuns.EarlyStopIsLost`); it counts exactly when
  the `go` has been written (`BrokerRuns.StopCountsOnlyAfterGo`). A search with a bound
  then ends by itself; an endless one keeps the engine, for ever if its interactive
  client has gone (`BrokerProgress.EarlyStoppedEndlessSearchKeepsTheLock`,
  `BrokerProgress.DisconnectedEndlessSearchKeepsTheEngine`), as long as its `info` lines
  keep the read from timing out.
- A `ucinewgame` that a client sends while its own search is writing one is dropped
  (`BrokerScript.NewGameAskedMeanwhileIsForgotten`).
- A pool recovery cancelled while it closes or respawns an engine strands its slot exactly
  if the healer has not been started (`PoolSafety.OnlyCancelledRecoveriesStrand`); the slot
  stays lost until some other failure starts the healer
  (`PoolSafety.StrandedUntilTheHealerStarts`, `PoolSafety.HealerStartsOnlyThere`), after
  which the pool fills up once nothing fails any more (`PoolSafety.HealingFillsThePool`).
- The second look at L1 is needed (`CacheSafety.WithoutRecheckALateReaderSearchesAgain`).
- A `configure` cancelled in the middle of a send neither records the option nor resets
  the connection (`UciWire.CutOffConfigureDrifts`); one that names MultiPV is not tracked
  (`UciWire.ConfiguredMultiPvIsForgotten`).
- Section 5 of the PGN standard says that brace comments do not nest and that a brace in
  a semicolon comment means nothing; the code matches all braces first. It finds the
  comments of the standard exactly if no left brace stands inside a brace comment and
  none inside a semicolon comment is matched beyond its line
  (`PgnComments.SameCommentsExactly`); inputs on which text or a move is lost are in
  `BraceComments.NestedBracesDropText` and `PgnComments.BraceInLineCommentDropsAMove`.

## Model

| member | source | states |
|---|---|---|
| BrokerSafety.StepKeeps | broker/server.py:120-246 | the invariant of the whole system (tables, lock owner, what is in both pipes, engine settings, history) survives every possible step of every client, task and the engine |
| BrokerSafety.ActiveExactlyWhileHolding | broker/server.py:202-225 | in every run `_active_session` is set exactly while some search task holds the lock, and it is that task's session |
| BrokerSafety.GoIsWrittenToIdleEngine | broker/server.py:202-213 | in every run, when a `go` is about to be written the engine is idle, no earlier `go` or option line is still under way and no line of an earlier search is left to be read |
| BrokerSafety.GoMeetsIdleEngine | broker/server.py:227-232 | a `go` the engine reads finds it idle, under exactly the settings the lock holder asked for |
| BrokerSafety.EveryLineIsAddressed | broker/server.py:214-218 | every engine line handed on goes to the session whose search produced it, and a search has handed on one `bestmove` exactly when it is finished or finishing, none before |
| BrokerSafety.OnlyChatterIsDiscarded | broker/server.py:255-262 | the lines thrown away while waiting for `readyok` belong to no search |
| BrokerSafety.StopEndsOnlyItsOwnSearch | broker/server.py:184-200 | a `stop` read during a search was written for that search, and no search was ever ended by another search's stop, through own stop, disconnect or preemption |
| BrokerSafety.WriteStopKeeps | broker/server.py:190-198 | each `stop` the broker writes is written on behalf of the search that holds the lock |
| BrokerSafety.PreemptIsTheBackgroundsOwnStop | broker/server.py:184-191 | preemption by a session is exactly the stop the background session would send for itself, and nothing for any other pair of priorities |
| BrokerSafety.GoPreemptsByTheBackgroundsOwnStop | broker/server.py:157-165 | a `go` adds its task and then preempts by that stop, in the middle of its stretch |
| BrokerRuns.StopCountsOnlyAfterGo | broker/server.py:184-213 | a stop, disconnect or preemption during a search not yet ended takes effect if and only if its `go` has already been written |
| BrokerRuns.EarlyStopIsLost | broker/server.py:184-213 | finding: a stop, disconnect or preemption while the search still configures the engine never ends it, in any run in which no further stop is sent for it, whatever else clients send |
| BrokerRuns.EarlyStopsOccur | broker/server.py:184-213 | a run after which all three kinds of such a step are possible |
| BrokerProgress.EverySearchCanFinish | broker/server.py:202-225 | from every reachable state in which the search that holds the lock has a bound, has ended or has been sent a stop that counts, it can run to its end without any client doing anything, handing on one `bestmove` and freeing the lock |
| BrokerProgress.CanFinishExactly | broker/server.py:202-225 | ... and in no other reachable state can it |
| BrokerProgress.EarlyStoppedSearchEndsByItself | broker/server.py:184-225 | after a stop, disconnect or preemption that came too early a search with a bound can still run to an end that no stop caused |
| BrokerProgress.EarlyStoppedEndlessSearchKeepsTheLock | broker/server.py:157-225 | finding: after such a stop an endless search keeps the lock, and no other search starts, in every run in which no further stop is sent for it, whatever else clients send |
| BrokerProgress.DisconnectedEndlessSearchKeepsTheEngine | broker/server.py:157-246 | finding: if an interactive client disconnects that early from its endless search nobody can stop it any more: in every run that follows it keeps the lock and no other search starts |
| BrokerProgress.EndlessSearchesOccur | broker/server.py:157-246 | a run after which that can happen |
| BrokerRuns.LockEndsInOneBestMove | broker/server.py:204-218 | a search that has the lock loses it in one way only: by having handed on exactly one `bestmove` |
| BrokerRuns.SearchStartsUnderItsOwnOptions | broker/server.py:227-232 | whatever other sessions do in between, a search starts with the defaults overridden by what its session had set when its turn came, and every other option as the engine had it then |
| BrokerRuns.SearchStartsAtItsOwnPosition | broker/server.py:209-213 | ... and at the position its session had when the position line was written |
| BrokerRuns.FirstSearchStartsAtItsOwnPosition | broker/server.py:209-213 | the same for a search that sends `ucinewgame` first |
| BrokerHistory.SessionIsWhatItsClientSent | broker/server.py:120-181 | in every run the position, options and priority the broker holds of a session, whether it has left and whether it wants a new game are what its client sent, read off the list of actions |
| BrokerScript.SearchRunsOnWhatItsClientSent | broker/server.py:151-232 | in every run a search starts at the last position its client had sent when the position line was written, and under the defaults overridden by the options its client had set when its turn came; the client had asked for just this search before |
| BrokerScript.SearchWritesItsLines | broker/server.py:202-232 | what is written to the engine for a search, stops aside, is exactly each option of that dictionary once, `isready`, `ucinewgame` if its client wanted a new game when the engine was ready, that position and the client's `go` |
| BrokerScript.SentUnlessItsClientHasLeft | broker/server.py:214-218 | in every run each engine line handed on is the next one the engine said and is sent exactly if the client had not disconnected before |
| BrokerScript.GoIsTakenUpExactly | broker/server.py:157-165 | in every run a `go` is taken up, as a search that waits for its turn, if and only if all earlier searches of its client are done |
| BrokerScript.StoppedBeforeItsTurn | broker/server.py:193-209 | a search stopped, or left by its client, before its turn never has the lock, writes nothing, never starts and can end at once, in every run that follows |
| BrokerScript.NewGameAskedMeanwhileIsForgotten | broker/server.py:210-212 | finding: a `ucinewgame` that arrives while the search writes its own is dropped |
| EngineBroker.Broker.constructor | broker/server.py:43-60 | a new broker is in the initial state of the system and keeps the invariant |
| EngineBroker.Broker.ServeClient | broker/server.py:125-126 | connecting a client is the connection step of the system and keeps the invariant |
| EngineBroker.Broker.StopSessionSearch | broker/server.py:193-200 | the stop step, in its three cases, keeping the invariant |
| EngineBroker.Broker.HandleCommand | broker/server.py:135-169 | every client command is the corresponding step of the system and keeps the invariant |
| EngineBroker.Broker.CreateTask | broker/server.py:163 | the new task waits for the lock and is the session's one live task; the invariant is kept |
| EngineBroker.Broker.Disconnect | broker/server.py:234-246 | the disconnect step, also in the middle of a search, keeps the invariant |
| EngineBroker.Broker.RunSearch | broker/server.py:202-232 | every stretch of a search task between two suspension points is the corresponding step of the system and keeps the invariant |
| PoolSafety.StepKeeps | core/engines/pool.py:83-205 | the pool invariant (places, capacity, recovery) survives every step of every caller, the healer and `close` |
| PoolSafety.EveryEngineIsInOnePlace | core/engines/pool.py:83-205 | in every run every engine ever made is in exactly one place and once: queued, held by one caller, or withdrawn |
| PoolSafety.NoPutFindsTheQueueFull | core/engines/pool.py:83-97 | in every run a returned or fresh engine finds room in the queue, and while the pool is open the count of live engines is exactly the queued plus the used ones, between zero and the target, so neither the clamp nor the `QueueFull` branch ever matters |
| PoolSafety.QuietPoolIsFullOrHealing | core/engines/pool.py:99-205 | with no call under way, an open pool is full or its healer runs if and only if no recovery was cut short or the healer was started after all; without it one slot is missing for each recovery cut short |
| PoolSafety.OnlyCancelledRecoveriesStrand | core/engines/pool.py:152-200 | in every step, a recovery cut short by a cancellation strands a slot if and only if the healer has not been started, and nothing else strands or frees one but the start of the healer |
| PoolSafety.HealerStartsOnlyThere | core/engines/pool.py:164-199 | the healer is started by a failed respawn or the close of an engine lost to a cancellation or in a retry, and by nothing else |
| PoolSafety.StrandedUntilTheHealerStarts | core/engines/pool.py:139-205 | in every run in which nothing starts the healer the stranded slots stay missing and each further cut-short recovery adds one |
| PoolSafety.CancelledRecoveryLosesTheSlot | core/engines/pool.py:152-165 | finding: a run of the pool in which a cancellation inside the recovery leaves a slot empty with no healer |
| PoolSafety.LostSlotOfOneIsNeverRefilled | core/engines/pool.py:152-165 | a pool of one engine in that state can do nothing but close |
| PoolSafety.HealingProgress | core/engines/pool.py:99-137 | self-heal never overshoots although it races with retries; without new crashes every round closes the gap by at least one |
| PoolSafety.HealingFillsThePool | core/engines/pool.py:99-137 | after as many rounds as slots were missing the pool is full |
| PoolTurns.EnginesTakeTurns | core/engines/pool.py:180-205 | in every run of an open pool engines are handed out in the order in which they became idle |
| PoolTurns.CrashIsMadeGood | core/engines/pool.py:139-178 | a caller whose engine crashes can finish on a fresh one, after which the pool has as many engines as before, the dead one withdrawn and the new one last in the queue |
| PoolTurns.OneRetryForEachCall | core/engines/pool.py:139-178 | a call is retried once: after a fresh engine has been made for it none is made for it again, in any run |
| PoolTurns.NoHealerAfterClose | core/engines/pool.py:70-81 | in every run nothing starts the healer again once the pool is closing |
| PoolClass.Pool.constructor | core/engines/pool.py:49-68 | a new pool is full and satisfies the invariant |
| PoolClass.Pool.Acquire | core/engines/pool.py:180-188 | checkout takes the head of the queue and keeps the invariant |
| PoolClass.Pool.ReturnEngine | core/engines/pool.py:201-205 | a return is the corresponding step and keeps the invariant |
| PoolClass.Pool.EngineLost | core/engines/pool.py:190-200 | a crash or a cancellation in use is the corresponding step and keeps the invariant |
| PoolClass.Pool.Respawned | core/engines/pool.py:156-165 | the end of the respawn, either way, is the corresponding step and keeps the invariant |
| PoolClass.Pool.RetryDone | core/engines/pool.py:167-178 | the end of the retry, either way, is the corresponding step and keeps the invariant |
| PoolClass.Pool.EngineClosed | core/engines/pool.py:196-200 | a cancelled caller has closed its engine and starts the healer; the invariant is kept |
| PoolClass.Pool.HealTop | core/engines/pool.py:101-104 | the healer's look at what is missing is the corresponding step and keeps the invariant |
| PoolClass.Pool.HealSpawned | core/engines/pool.py:105-123 | the healer's fresh engine is the corresponding step and keeps the invariant |
| ExchangeGame.ValueIsMinimax | mcp_server/analysis/tactical_snapshot_extensions.py:157-166 | the reference value is unbounded minimax, told in plain numbers: reached by stopping (if allowed) or by a capture; the side whose gain is counted gets no less than by anything it may do, the other concedes no more |
| ExchangeGame.ColoursAreOpposite | mcp_server/analysis/tactical_snapshot_extensions.py:126-134 | what one side gains the other loses |
| ExchangeGame.FitsMeansNoLongerLine | mcp_server/analysis/tactical_snapshot_extensions.py:199-202 | the tree fits the plies if and only if no line of captures is longer |
| ExchangeGame.ClosedMeansNoEvasion | mcp_server/analysis/tactical_snapshot_extensions.py:188-191 | the tree is closed if and only if no line of captures leads to a check that can be answered off the square |
| ExchangeGame.AtMostMeans | mcp_server/analysis/tactical_snapshot_extensions.py:229-230 | lines are compared by length first and by the first move that differs then |
| ExchangeGame.BestCaptureIsBest | mcp_server/analysis/tactical_snapshot_extensions.py:225-228 | the best capture has the value of some capture and no capture is better |
| ExchangeGame.TopPrincipalIsUnique | mcp_server/analysis/tactical_snapshot_extensions.py:229-230 | there is one principal variation that is longest and, among those, last in order |
| ExchangeGame.PrincipalRealisesValue | mcp_server/analysis/tactical_snapshot_extensions.py:157-166 | playing a principal variation ends with exactly the minimax value |
| ExchangeSolver.ChooseIsBest | mcp_server/analysis/tactical_snapshot_extensions.py:225-230 | the chosen branch is a branch, no branch has a better gain, and among equals none has a longer or later line |
| ExchangeSolver.NodeIsSound | mcp_server/analysis/tactical_snapshot_extensions.py:204-233 | with sound children the result is a legal line of captures within the plies that ends with exactly its gain, and out of check never worse than stopping |
| ExchangeSolver.SoundInNumbers | mcp_server/analysis/tactical_snapshot_extensions.py:126-134 | soundness in plain numbers: the gain is the balance at the end of the line as the counted side sees it, over its baseline; out of check that side gets no less than by stopping, the other concedes no more |
| ExchangeSolver.NodeValue | mcp_server/analysis/tactical_snapshot_extensions.py:204-228 | with proven children the gain is the minimax value |
| ExchangeSolver.NodeLine | mcp_server/analysis/tactical_snapshot_extensions.py:225-231 | with proven children the line is the one top principal variation |
| ExchangeSolver.NodeIsExact | mcp_server/analysis/tactical_snapshot_extensions.py:209-231 | `complete` is set exactly when the tree fits the plies and no checked position in it has an evasion off the square |
| ExchangeSolver.BudgetHasRoom | mcp_server/analysis/tactical_snapshot_extensions.py:173-174 | a budget that covers all states in reach never stops the search |
| ExchangeSolver.Solver.Remember | mcp_server/analysis/tactical_snapshot_extensions.py:231-233 | storing a good result keeps every memo entry good, and exact entries exact |
| ExchangeSolver.Solver.Minimax | mcp_server/analysis/tactical_snapshot_extensions.py:148-202 | whatever sound entries the memo holds and whenever the node budget runs out: the result is sound; if complete it is unbounded minimax with the top principal variation; unless the budget ran out it is complete exactly when the tree fits, and the budget runs out only with a full memo, never on a complete result; the memo outgrows the budget by no more than the plies |
| ExchangeSolver.Solver.SearchCaptures | mcp_server/analysis/tactical_snapshot_extensions.py:204-233 | the same for the loop over the captures of a position |
| HangingCandidates.CompleteResultsAgree | mcp_server/analysis/tactical_snapshot_extensions.py:163-165 | two complete results for one position are the same whatever plies, memo and budget they were computed with |
| HangingCandidates.FitsMore | mcp_server/analysis/tactical_snapshot_extensions.py:199-202 | more plies never lose completeness |
| HangingCandidates.Solve | mcp_server/analysis/tactical_snapshot_extensions.py:266-273 | one candidate solved with a fresh memo is sound, and exact unless the node budget ran out, which it does not within the budget |
| HangingCandidates.LocalExchangeHangingCandidates | mcp_server/analysis/tactical_snapshot_extensions.py:236-297 | every reported capture is contested, wins at least a pawn by minimax and is shown with the line that proves it; a capture whose search did not run out of its budget is reported exactly when that holds |
| LruCache.AsyncLRUCache.MoveToEnd | mcp_server/cache/memory.py:27-33 | the key becomes the latest, the others keep their order |
| LruCache.AsyncLRUCache.Get | mcp_server/cache/memory.py:23-28 | a hit returns the value and makes the key the latest, a miss changes nothing |
| LruCache.AsyncLRUCache.Set | mcp_server/cache/memory.py:30-36 | the key becomes the latest with the new value, and the oldest entry goes if there are too many |
| LruCache.AsyncLRUCache.Clear | mcp_server/cache/memory.py:38-40 | nothing is left |
| LruCache.NoSizeAnomaly | mcp_server/cache/memory.py:23-36 | on any trace the smaller of two caches stays a sub-list of the larger, in the same order with the same values, so each of its hits is a hit of the larger with the same value |
| LruRecency.HoldsTheMostRecent | mcp_server/cache/memory.py:23-40 | on every trace and at every capacity the cache holds just the keys used most recently, oldest first, each with the value last written, where writes and hits are uses and hits are read off the trace |
| LruRecency.HeldIsRecent | mcp_server/cache/memory.py:23-36 | a key is held if and only if fewer other keys than the capacity have been used since it was |
| LruRecency.JustWrittenIsHeld | mcp_server/cache/memory.py:30-36 | a key just written is found with its value, however full the cache was |
| LruCache.RoomyCacheIsADictionary | mcp_server/cache/memory.py:23-36 | while its capacity is not exceeded the cache answers as a plain dictionary |
| LruCache.LookupStored | mcp_server/cache/memory.py:30-36 | a write shows for its key and changes no other |
| LruCache.LookupTouched | mcp_server/cache/memory.py:27 | a reordering read changes no answer |
| CacheSafety.StepKeeps | mcp_server/engine/cached_evaluator.py:118-216 | the invariant about callers, futures, both tiers and computations of a key survives every step |
| CacheSafety.OneComputationPerKey | mcp_server/engine/cached_evaluator.py:118-216 | in every interleaving a key absent from both tiers is computed successfully at most once and every caller that gets an answer gets that value |
| CacheSafety.WaitersHaveAProducer | mcp_server/cache/single_flight.py:34-63 | at most one caller of a key is at the engine at any time, and nobody waits for a future that nobody is going to settle |
| CacheSafety.WithoutRecheckALateReaderSearchesAgain | mcp_server/cache/multi_tier.py:50-53 | without the second look at L1 a late reader makes the engine search the key again: the recheck is needed |
| CacheSafety.LateReadersOccur | mcp_server/cache/multi_tier.py:11-16 | such late readers occur |
| CacheAnswers.DiskHitIsAnswered | mcp_server/cache/multi_tier.py:43-53 | a key on disk whose read succeeds and whose text parses is answered with what the disk held, refills L1 and needs no engine, whatever others do meanwhile |
| CacheAnswers.ComputedValueIsFoundLater | mcp_server/cache/multi_tier.py:55-66 | in every run a value computed for a key that was nowhere can be written to disk, and a later evaluator answers it from there without the engine |
| CacheAnswers.ComputedKeyIsAnsweredAtOnce | mcp_server/cache/multi_tier.py:38-42 | in every run a key once computed is answered at once, by neither disk nor engine |
| CacheAnswers.NoFailureWithoutAFault | mcp_server/cache/single_flight.py:34-63 | in every run in which no computation fails and nobody is cancelled, nobody fails: a caller that is done has its answer |
| CachedEvaluator.Evaluator.FinishGet | mcp_server/cache/multi_tier.py:43-53 | a usable disk value refills L1 and is returned; otherwise the answer is what L1 holds by now |
| CachedEvaluator.Evaluator.AfterDisk | mcp_server/engine/cached_evaluator.py:124-140 | from the end of the disk read the second look at L1 and the registration are one step |
| CachedEvaluator.Evaluator.EngineAnswered | mcp_server/engine/cached_evaluator.py:154-205 | the answer reaches L1 before the key is deregistered |
| SegmentStates.ConfirmSegmentStates | mcp_server/analysis/game_coaching.py:180-240 | the loop that rewrites its own output computes the states confirmed with one ply of look-ahead, and its transition map holds exactly the plies where the confirmed state changes, each with the ply where that is known |
| SegmentStates.RewriteFrom | mcp_server/analysis/game_coaching.py:232-234 | everything from a ply on becomes one state, what came before is kept |
| SegmentStates.DiffersOnlyByFlicker | mcp_server/analysis/game_coaching.py:183-189 | where confirmed and raw state differ, the raw one is a neighbouring band, not decisive, does not last, and the confirmed state did not change |
| SegmentStates.LastingStatesAreConfirmed | mcp_server/analysis/game_coaching.py:185-186 | two equal raw states in a row are both confirmed |
| SegmentStates.DebouncingIsIdempotent | mcp_server/analysis/game_coaching.py:180-240 | a second pass confirms of every ply what the first one did |
| SegmentStates.SettledIsIdempotent | mcp_server/analysis/game_coaching.py:180-240 | a second pass over the confirmed states changes nothing |
| SegmentStates.ChangesAreKnownInTime | mcp_server/analysis/game_coaching.py:187-189 | a change is to the raw state of its ply and is known there or one ply later, in which case that ply repeats the state |
| SegmentStates.DecidedByTheNextPly | mcp_server/analysis/game_coaching.py:185-189 | what is confirmed of a ply does not depend on anything after the next one |
| SegmentStates.StateOfTheOtherSide | mcp_server/analysis/game_coaching.py:164-177 | the bands of the two players mirror each other, at the thresholds too |
| SegmentStates.RankCountsBounds | mcp_server/analysis/game_coaching.py:164-177 | a value is in as high a band as it reaches bounds |
| SegmentStates.ConfirmedFromTheOtherSide | mcp_server/analysis/game_coaching.py:180-240 | seen from the other side the confirmed states are the mirrored ones, ply by ply |
| GameSegments.BuildSegments | mcp_server/analysis/game_coaching.py:355-417 | no segments for a game without moves; otherwise segments that cut the confirmed states into their maximal runs, each with its first and last value, the largest and smallest on its plies, its cause and confirming ply, how often the raw state moves in it, and a rating by the share of plies that show its state |
| GameSegments.CutIntoPhases | mcp_server/analysis/game_coaching.py:369-416 | the loop cuts any states with a correct transition map into maximal runs |
| GameSegments.MaxOf | mcp_server/analysis/game_coaching.py:387 | an element that no element exceeds |
| GameSegments.MinOf | mcp_server/analysis/game_coaching.py:388 | an element that exceeds no element |
| GameSegments.PhasesExpandToConfirmed | mcp_server/analysis/game_coaching.py:369-416 | writing the segments out again gives back the confirmed states |
| GameSegments.PhaseAt | mcp_server/analysis/game_coaching.py:369-416 | every ply lies in a segment |
| GameSegments.PhasesAreOrdered | mcp_server/analysis/game_coaching.py:369-416 | an earlier segment ends before a later one starts, so a ply lies in one only |
| GameSegments.PhasesStartAtChanges | mcp_server/analysis/game_coaching.py:389-390 | segments start exactly at ply 1 and where the confirmed state changes |
| GameSegments.PhasesAreUnique | mcp_server/analysis/game_coaching.py:369-416 | there is only one list of segments with these properties |
| GameSegments.FlickerCostsAChange | mcp_server/analysis/game_coaching.py:243-255 | inside a segment the raw state changes at least as often as it differs from the confirmed one, and never if it never differs |
| GameSegments.HighStabilityMeansQuiet | mcp_server/analysis/game_coaching.py:243-255 | a segment is rated high exactly if the raw state never moved in it, or moved once in five plies or more |
| UciInfo.ParseInfo | mcp_server/tcp_client.py:229-263 | the index loop computes the recursive reading of a line, with None for a ValueError |
| UciInfo.ParseInvertsPrint | mcp_server/tcp_client.py:229-263 | any line of fields in any order and number with unknown words between them is read back, the last mention of a field counting, with and without a variation |
| UciInfo.RoundTrip | mcp_server/tcp_client.py:229-263 | printing a record and parsing the line gives the record back |
| UciInfo.UnknownWordsAreSkipped | mcp_server/tcp_client.py:261-262 | an unknown word anywhere between the fields makes no difference |
| UciInfo.Store | mcp_server/tcp_client.py:168-171 | padding and storing follow Python's index rules, with None for an IndexError |
| UciInfo.EachSlotHoldsItsLastLine | mcp_server/tcp_client.py:158-171 | for lines numbered from one, record i is the last variation heard for number i + 1 and the list is as long as the highest number heard |
| UciInfo.LastForIsTheLast | mcp_server/tcp_client.py:158-171 | the last line for a number is one with none for that number after it; without any the record is empty |
| UciWire.ConfigureMendsWhatItNames | mcp_server/tcp_client.py:74-80 | after sending and recording options, exactly the options that disagreed before and are not named still disagree, and options not named are untouched |
| UciWire.CutOffConfigureDrifts | mcp_server/tcp_client.py:76-78 | finding: a configuration cancelled in the middle of a send leaves the engine with another value than recorded for exactly that option, if it was recorded with another value, and for none otherwise |
| UciWire.SearchKeepsAgreement | mcp_server/tcp_client.py:148-156 | what an analysis writes keeps engine and record in agreement and sets MultiPV as tracked |
| UciWire.AskedIsWhatRuns | mcp_server/tcp_client.py:146-156 | what an analysis writes makes the engine search this position, to this depth, over these moves, in a new game unless the table is to be reused |
| UciWire.GoRunsWithRequestedMultiPv | mcp_server/tcp_client.py:148-156 | a search runs with the requested number of variations if and only if that differs from the tracked number or the engine has it already |
| UciWire.ConfiguredMultiPvIsForgotten | mcp_server/tcp_client.py:76-78 | finding: a configuration that names MultiPV is not tracked, so the next analysis asking for one line runs with three |
| TcpClient.TCPUCIClient.constructor | mcp_server/tcp_client.py:40-54 | a new client is not connected and records nothing |
| TcpClient.TCPUCIClient.ResetConnection | mcp_server/tcp_client.py:93-118 | the client forgets the connection, the tracked MultiPV and the recorded MultiPV, and keeps every other recorded option |
| TcpClient.TCPUCIClient.Send | mcp_server/tcp_client.py:188-196 | the command is written and its replies become owed, even if the caller is cancelled; a dropped connection resets the client |
| TcpClient.TCPUCIClient.ReadLine | mcp_server/tcp_client.py:205-216 | replies come in the order they are owed, lines about a search only while it is the oldest thing owed; only a dropped connection resets the client |
| TcpClient.TCPUCIClient.WaitFor | mcp_server/tcp_client.py:218-226 | success means that everything up to the first such reply has been read; on failure nothing but readiness stays owed if nothing else was |
| TcpClient.TCPUCIClient.ReapplyOptions | mcp_server/tcp_client.py:64-66 | a fresh engine ends up with every recorded option and its own defaults otherwise |
| TcpClient.TCPUCIClient.Connect | mcp_server/tcp_client.py:56-72 | success means a fresh engine in agreement with the whole record and nothing owed, failure or cancellation a reset client |
| TcpClient.TCPUCIClient.EnsureConnected | mcp_server/tcp_client.py:88-91 | a live connection is left alone, a dead one replaced with the record re-applied, without losing agreement or tracking |
| TcpClient.TCPUCIClient.Configure | mcp_server/tcp_client.py:74-80 | from agreement, engine and record still agree if and only if the call was not cancelled while sending a recorded option another value; no search becomes outstanding; tracking survives if MultiPV is not named |
| TcpClient.TCPUCIClient.Analyse | mcp_server/tcp_client.py:120-183 | success: nothing is owed, the last search on this connection ran at this position, to this depth, over these moves and in a new game unless reuse was asked for, the result is collected from lines said about it only, and it ran with the requested MultiPV; any failure or cancellation leaves a reset client |
| TcpClient.TCPUCIClient.HearSearch | mcp_server/tcp_client.py:158-180 | the records are collected from exactly the lines heard before this search's `bestmove`; the best move stands in if none had a variation |
| TcpClient.TCPUCIClient.StandIn | mcp_server/tcp_client.py:179-180 | the best move, unless it is none, stands in for the variations exactly if none was heard of |
| TcpClient.TCPUCIClient.AskForSearch | mcp_server/tcp_client.py:144-156 | everything written before the search, with exactly this search's `bestmove` owed last |
| TcpClient.TCPUCIClient.Close | mcp_server/tcp_client.py:185-186 | the client is reset |
| TcpClient.RunCalls | mcp_server/tcp_client.py:53-183 | over any run of calls, failures, cancellations and reconnects: no search outstanding between calls; every completed search ran on its own position, depth, moves and new game, with its requested MultiPV if no configuration named it, and under all recorded options if none was cut off harmfully |
| MovetextStripping.StripGroups | mcp_server/analysis/mainline_parser.py:161-165 | the loop of innermost substitutions ends and equals a single pass with a stack, for any pair of brackets and any text |
| MovetextStripping.PassKeepsRun | mcp_server/analysis/mainline_parser.py:163 | one substitution pass does not change what the stack pass computes |
| MovetextStripping.SameLengthSameText | mcp_server/analysis/mainline_parser.py:162-165 | a pass that changes anything shortens the text |
| MovetextStripping.GroupBecomesASpace | mcp_server/analysis/mainline_parser.py:159-172 | a properly nested group of any depth counts as one space wherever it stands |
| MovetextStripping.TidyIsKept | mcp_server/analysis/mainline_parser.py:159-172 | text in which no close follows an open is kept, unmatched brackets included |
| MovetextStripping.MatchedIsTidy | mcp_server/analysis/mainline_parser.py:159-172 | no close follows an open in the result, so stripping twice is stripping once |
| MovetextStripping.StripCommentsAndRavs | mcp_server/analysis/mainline_parser.py:159-172 | the function is the stack pass for braces, the removal of line comments and the stack pass for parentheses |
| MovetextStripping.StrippedIsClean | mcp_server/analysis/mainline_parser.py:159-172 | no semicolon, no closed brace comment and no closed side line is left, whatever the text |
| BraceComments.BracesAgreeOnFlatText | mcp_server/analysis/mainline_parser.py:161-165 | the substitution of braces alone, without the line comments: it is what the rule against nesting asks for if and only if no left brace stands between a left brace and the next right brace |
| BraceComments.NestedBracesDropText | mcp_server/analysis/mainline_parser.py:161-165 | a text for which they differ: `{a{b}c}` becomes one space, where the standard keeps what follows the first right brace |
| BraceComments.StandardUnbalances | mcp_server/analysis/mainline_parser.py:161-165 | removing braces without nesting drops, besides braces in pairs, exactly the left braces inside the groups |
| BraceComments.MatchedKeepsBalance | mcp_server/analysis/mainline_parser.py:161-165 | the stack pass drops braces in pairs only |
| PgnComments.CodeReads | mcp_server/analysis/mainline_parser.py:161-166 | matching all braces first and then removing line comments is one scan from left to right, in which a line comment ends at the first newline outside the matched groups |
| PgnComments.ResultIsBlankedText | mcp_server/analysis/mainline_parser.py:161-166 | the result is the text with exactly the comments of that scan replaced by spaces |
| PgnComments.SideLinesAreOutsideComments | mcp_server/analysis/mainline_parser.py:159-172 | a parenthesis inside a comment opens or closes no side line |
| PgnComments.SameCommentsExactly | mcp_server/analysis/mainline_parser.py:161-166 | finding: the code finds the comments of section 5 of the PGN standard, of both kinds, if and only if no left brace stands inside a brace comment, and none inside a semicolon comment is matched with a right brace beyond the line |
| PgnComments.SameCommentsSameResult | mcp_server/analysis/mainline_parser.py:161-166 | where it finds the same comments the result is the standard's |
| PgnComments.SameResultWithoutNesting | mcp_server/analysis/mainline_parser.py:161-166 | in text without a left brace inside a brace comment the result is the standard's if and only if no left brace inside a semicolon comment is matched beyond the line |
| PgnComments.SameResultWithoutSemicolons | mcp_server/analysis/mainline_parser.py:161-166 | in text without semicolons the result is the standard's if and only if no left brace stands between a left brace and the next right brace |
| PgnComments.BraceInLineCommentDropsAMove | mcp_server/analysis/mainline_parser.py:161-166 | a semicolon comment holding a left brace swallows the next line and the move on it |
| PgnComments.DifferentCommentsSameText | mcp_server/analysis/mainline_parser.py:161-166 | a text in which the comments differ and the result does not |
| HistoryWindow.Start | mcp_server/cache/key.py:70-76 | the window starts after the last irreversible move and contains none |
| HistoryWindow.HistoryKeys | mcp_server/cache/key.py:54-78 | the popping loop collects exactly the positions from the last irreversible move on, latest first; nothing for a game without moves |
| HistoryWindow.WindowCountsAreEnough | mcp_server/cache/key.py:63-64 | if no position returns after an irreversible move, every position from the window on has occurred as often in the window and any continuation as in the whole game |
| HistoryWindow.EqualKeysEqualWindows | mcp_server/cache/key.py:54-97 | the position and the history part of the key before hashing determine the window, also where a game without moves gives no history part |
| HistoryWindow.EqualWindowsRepeatAlike | mcp_server/cache/key.py:54-97 | two games at the same position with equal keys before hashing, with moves or without, cannot be told apart by counting repetitions, now or later |
| ParallelGather.NoMoreSlicesThanWorkers | mcp_server/engine/parallel_gather.py:60-67 | cutting off after k slices drops nothing, for every batch and number of workers |
| ParallelGather.BatchLeavesAnEngine | mcp_server/engine/parallel_gather.py:59-60 | a batch leaves at least one engine of two, two of five or more, and never uses more workers than positions |
| ParallelGather.BatchTakesAllItMay | mcp_server/engine/parallel_gather.py:59-60 | and within that, one worker for a position at most, it takes as many as it can |
| ParallelGather.Slices | mcp_server/engine/parallel_gather.py:62-67 | at most k slices, none empty, all but the last of the chunk size, each a stretch of neighbours, together every index once in order |
| ParallelGather.RunSlice | mcp_server/engine/parallel_gather.py:86-103 | each position of a slice is answered with its index: by the shortcut if it knows, else by the evaluator |
| ParallelGather.Reassemble | mcp_server/engine/parallel_gather.py:125-130 | cell i holds the result for position i and no cell stays empty, in whatever order the slices' answers are written |
| ParallelGather.GatherEvaluatePositionsBounded | mcp_server/engine/parallel_gather.py:31-130 | the results come back in the order of the positions, one each, for every pool size and every order in which the workers finish |
| PvWalks.MaterializationTrace | mcp_server/analysis/reply_materialization.py:59-126 | the trace is the line as far as it can be played, with the first loss of a pawn, its amount, the final change and why it ended |
| PvWalks.AdaptiveForcingResolution | mcp_server/analysis/forensic_extensions.py:110-196 | the walk is the line up to the first quiet point after forcing play or the end, with the first loss of a pawn and why it ended |
| PvWalks.WalkersAgree | mcp_server/analysis/reply_materialization.py:59-111 | the adaptive walk is the beginning of the trace and a first loss it finds is the trace's; unless it stopped at a quiet point both are the same |
| PvWalks.ChangesTelescope | mcp_server/analysis/forensic_extensions.py:139-142 | the changes of the single plies add up to the cumulative change |
| PvWalks.StepsOfTheLine | mcp_server/analysis/reply_materialization.py:74-101 | each step shows its ply and move, what the move is where it is played, and the balance after it against before it and against the start |
| PvWalks.FirstLossIsTheFirst | mcp_server/analysis/forensic_extensions.py:143-144 | the reported ply is the first with the balance a pawn or more down, and none is reported exactly if there is none |

## Left out

- Broker faults: dead engine, read timeouts, failing client writes and starting or stopping the process (broker/server.py:78-118, 219-222); the lock is then released without draining the engine, so the theorems about idle engines do not extend to them.
- What the broker itself answers to `uci`, `isready` and a second `go`.
- Client command text: how `setoption` lines are split and trimmed; a command is modelled as what it asks for, and option names are compared as the broker does, with case.
- `EngineBroker.Broker` keeps the sessions and tasks in maps instead of linked objects, so aliasing between session objects is not modelled.
- BrokerScript.SearchWritesItsLines: the order of the option lines among themselves is that of a dictionary and not modelled.
- `BrokerProgress.EverySearchCanFinish` gives a run to the end; that the scheduler and the engine take it is not modelled.
- Engine pool after `close`: an engine that was in use when `close` ran is put back and never closed (core/engines/pool.py:204-220); the counts are claimed for the open pool only.
- The healer's sleep intervals and logging; an acquire timeout is a caller that never checks out.
- CacheSafety.OneComputationPerKey: the first tier does not evict and is not cleared in this system, because the server promises the property only within capacity; eviction is the subject of `LruCache`.
- The second tier's disk store, JSON encoding, and the other two get/set pairs of the multi-tier cache, which have the same shape.
- The copies the cached evaluator returns with request fields overwritten, terminal positions, the zeroing-move overrides and ponder warming.
- Chess rules: positions are abstract keys with their captures, checks and material; SAN, move generation and rendering are not part of this model.
- The counted side and the material it is counted from, which the solver is given, are parameters of the exchange game.
- HangingCandidates.LocalExchangeHangingCandidates: lists the candidates in the order of the captures, because the final sort is by rendered text.
- How an evaluation becomes one player's centipawns; `GameSegments.BuildSegments` starts from those values.
- GameSegments.HighStabilityMeansQuiet: the shares 0.8 and 0.6 are exact fractions; floating-point division is not modelled.
- UciInfo.ParseInfo: a word is a keyword, a number or any other word; which spellings Python's `int` accepts is not modelled.
- UciInfo.EachSlotHoldsItsLastLine: for lines numbered from one, as engines do; what happens for zero or negative numbers is in the contract of `UciInfo.Store`.
- TcpClient.TCPUCIClient.Connect: re-applies the options in any order, because the record is a map; `id name` lines and the client's name are not modelled.
- TcpClient.RunCalls: calls do not overlap, as the client's lock and the pool's checkout arrange; a search that failed half-way leaves no entry, since its connection is gone.
- ParallelGather.GatherEvaluatePositionsBounded: the number of slices is exact integer arithmetic; exceptions of a worker, the semaphore and the reuse flag are not modelled.
- HistoryWindow.EqualWindowsRepeatAlike: about the keys before hashing; collisions of the truncated digest are not modelled.
- HistoryWindow.WindowCountsAreEnough: that no position returns after an irreversible move is a hypothesis, a fact of the rules of chess.
- PgnComments.SameCommentsExactly: about which comments are found; the resulting text can be the same although the comments are not, and for text it is exact where there is no nesting or no semicolon.
- The escape lines of the PGN standard that start with a percent sign, which the code does not treat either.
- The rest of the mainline parser, the win probability curve, evidence text, transport and configuration: no property of the kind proved here.
