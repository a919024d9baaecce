# Sentinel analysis core: a verified model

This project models the analysis core of the Sentinel order-flow monitor in Dafny and
proves properties of it for all inputs, all interleavings and all run lengths.

- **Ring buffer** (`Bits`, `SpscMachine`, `SpscProperties`, `SpscRingBuffer`). The lock-free
  queue is a machine of atomic steps, one producer inside `try_push` and one consumer inside
  `try_pop`, in any interleaving. An acquire load may return any value the other thread stored
  since the last one observed. Proved: FIFO order and the Capacity - 1 bound in every run,
  refinement of a bounded queue, freedom from data races on the slots, what a refused push or an
  empty pop means, wait-freedom. The class runs the same steps on an array.
- **Engine** (`RollingStats`, `WeightedPrice`, `Vwap`, `OrderFlow`, `Vacuum`, `Decay`, `Engine`,
  `AnalysisEngine`, `EngineHistory`, `SignalTheorems`, `SnapshotViews`, `Mirror`). Classes mutate
  windows, running sums and the published snapshot exactly as the C++ classes do; each method is
  tied to a function of the state, and lemmas show that the state after any history is the plain
  recomputation over that history. `SnapshotViews` says everything a concurrent reader can see
  between the three lock sections of a tick; `Mirror` proves that buyers and sellers are treated
  alike exactly when neither of two ties is present, and shows a run that reaches each.
- **Pipeline** (`Pipeline`, `Orchestrator`). Network thread, ring, analysis loop and publisher as one
  transition system: conservation of ticks, and every snapshot is determined by a prefix of the
  accepted ticks and agrees with itself.
- **Standalone engine** (`TickHistory`, `LiveReport`). The overwriting history, and the exact number
  of held ticks below which no market movement can raise the critical alarm.
- **Dashboard** (`Clusters`, `VolumeScore`, `Magnet`). Greedy level clustering, Welford's variance and
  the hysteresis-locked direction.
- **Reconnect chain** (`Reconnect`). Connect, read, back off and stop, with arbitrary outcomes.

`RealAlgebra`, `RealMath` and `Statistics` hold the shared mathematics (Cauchy-Schwarz, Samuelson's
inequality). Numbers are exact reals. `sqrt` and `tanh` are parameters constrained by laws
(`IsRoot`: non-negative and squares back; `IsSquash`: odd, monotone, within [-1, 1], positive on
positive numbers). Clock readings, and the latency they give, are inputs.

Where code and comments disagree the model follows the code:
the ring's header comment says the other thread's index is read relaxed, but it is read with
acquire and the own index is relaxed (`include/Sentinel_LockFreeRingBuffer.hpp:17-20`);
`vacuum_side` is documented as the side that was pulled, but pulled bids are reported as Sell and
pulled asks as Buy (`include/Sentinel_Types.hpp:77`); the target band is said to follow volume
volatility but follows the imbalance (`src/Sentinel_Analysis_Core.hpp:297-301`); `stop` is said to
shut down gracefully, and closing the socket does cut off what is in flight on it, but a lookup is
not on the socket: its handler opens the socket again without asking whether the client was stopped,
and the client then connects and streams on (`include/Sentinel_Network.hpp:63-65`,
`src/Sentinel_Network.hpp:57-68`).

## Model

| member | source | states |
|---|---|---|
| Bits.MaskIsModulo | include/Sentinel_LockFreeRingBuffer.hpp:101-103 | masking an index with Capacity - 1 is reduction modulo Capacity when Capacity is a power of two |
| Bits.PowerOfTwoTest | include/Sentinel_LockFreeRingBuffer.hpp:35-36 | of the positive numbers, the static_assert accepts the powers of two and nothing else |
| SpscMachine.InvPreserved | include/Sentinel_LockFreeRingBuffer.hpp:48-87 | no atomic step of either thread, with any staleness its acquire load may have, breaks the relation between indices, slots, accepted and popped values |
| SpscMachine.Fifo | include/Sentinel_LockFreeRingBuffer.hpp:48-87 | after every interleaving, popped values followed by what the slots between the indices hold are the accepted pushes in order; at most Capacity - 1 are held; accepted and refused pushes merge to the offered ones and dropped_ counts the refused |
| SpscProperties.StepRefinesFifo | include/Sentinel_LockFreeRingBuffer.hpp:57-59 | a step is invisible, or the tail store enqueues on a non-full bounded queue, or the head store dequeues its first item |
| SpscProperties.RunRefinesFifo | include/Sentinel_LockFreeRingBuffer.hpp:48-87 | the visible enqueues and dequeues of any run are a run of a FIFO bounded by Capacity - 1 |
| SpscProperties.PushVerdict | include/Sentinel_LockFreeRingBuffer.hpp:52-55 | a push is refused exactly when Capacity - 1 items lie between the loaded head and the tail; with an up-to-date load exactly when the queue is full; a stale load never admits a push that does not fit |
| SpscProperties.PopVerdict | include/Sentinel_LockFreeRingBuffer.hpp:80-82 | a pop finds nothing exactly when the loaded tail is the head; with an up-to-date load exactly when the queue is empty; a stale load never invents an item |
| SpscProperties.RaceFree | include/Sentinel_LockFreeRingBuffer.hpp:57-58 | every access to a slot is ordered after all earlier accesses to it by the other thread through an acquired release store, and the two threads are never at one slot together |
| SpscProperties.NeverBlocked | include/Sentinel_LockFreeRingBuffer.hpp:4-9 | a call in progress can always take its next step, whatever the other thread has done |
| SpscProperties.WaitFree | include/Sentinel_LockFreeRingBuffer.hpp:4-9 | each step of a call brings it nearer its end and steps of the other thread do not undo that: wait-free, not just lock-free |
| SpscProperties.SizeHintMeaning | include/Sentinel_LockFreeRingBuffer.hpp:89-95 | the hint is the distance between the two loaded counts modulo Capacity: right exactly when that distance is below Capacity, and the exact size when both loads are current |
| SpscRingBuffer.PushRun | include/Sentinel_LockFreeRingBuffer.hpp:48-60 | an uninterrupted try_push is a legal sequence of the machine's steps and amounts to the state change the class method makes |
| SpscRingBuffer.PushCall | include/Sentinel_LockFreeRingBuffer.hpp:62-74 | a whole push from rest to rest appends the value exactly when fewer than Capacity - 1 items are held |
| SpscRingBuffer.PopRun | include/Sentinel_LockFreeRingBuffer.hpp:77-87 | an uninterrupted try_pop is a legal sequence of the machine's steps and amounts to the state change the class method makes |
| SpscRingBuffer.PopCall | include/Sentinel_LockFreeRingBuffer.hpp:77-87 | a whole pop removes and yields the first item, or finds the queue empty |
| SpscRingBuffer.LockFreeRingBuffer.TryPush | include/Sentinel_LockFreeRingBuffer.hpp:48-60 | on the array: returns true and appends exactly when the value fits, otherwise bumps dropped_; steps as the machine does |
| SpscRingBuffer.LockFreeRingBuffer.TryPop | include/Sentinel_LockFreeRingBuffer.hpp:77-87 | on the array: returns the oldest unread value, or nothing when there is none |
| SpscRingBuffer.LockFreeRingBuffer.GetSizeHint | include/Sentinel_LockFreeRingBuffer.hpp:91-95 | between calls the hint is the number of unread items, below Capacity |
| Statistics.CauchySchwarz | src/Sentinel_Analysis_Core.hpp:48-50 | n times the sum of squares is at least the squared sum, so over reals the variance clamp never acts |
| Statistics.Samuelson | Sentinel_Analysis_Core.cpp:111-126 | the newest sample's squared distance from the mean of its own sample is at most (n - 1)/n of the total deviations |
| RollingStats.AfterIsWindow | src/Sentinel_Analysis_Core.hpp:25-34 | after any history the window is its last capacity samples and the running sums are those of the window |
| RollingStats.VarianceIsTwoPass | src/Sentinel_Analysis_Core.hpp:44-52 | the one-pass variance equals the two-pass variance, unclamped and clamped alike |
| RollingStats.ScoreIsNaive | include/Sentinel_Analysis_Core.hpp:34-38 | the score equals the two-pass score against the last capacity samples before this one |
| RollingStats.RollingStats.GetStddev | src/Sentinel_Analysis_Core.hpp:44-52 | on a consistent window, the root of the two-pass variance |
| RollingStats.RollingStats.PushAndScore | src/Sentinel_Analysis_Core.hpp:15-37 | scores against the window before insertion, then inserts and evicts the oldest sample |
| WeightedPrice.WeightedMeanBetween | src/Sentinel_Analysis_Core.hpp:78-84 | a volume-weighted mean lies within any bounds on the prices it averages |
| Vwap.AfterIsRecomputed | src/Sentinel_Analysis_Core.hpp:60-89 | after any run of trades and resets the window is the last N trades with their sums, and the session sums are those of the trades since the last reset |
| Vwap.SessionIsEvictedPlusWindow | src/Sentinel_Analysis_Core.hpp:63-75 | without resets the session sums are the evicted trades plus the window |
| Vwap.WindowVwapBetween | src/Sentinel_Analysis_Core.hpp:82-84 | when it is not the fallback 0, the window VWAP lies between the window's lowest and highest price |
| Vwap.VWAPCalculator.OnTrade | src/Sentinel_Analysis_Core.hpp:60-76 | the running sums and the window advance by one trade |
| Vwap.VWAPCalculator.ResetSession | src/Sentinel_Analysis_Core.hpp:86-89 | only the session sums are cleared |
| OrderFlow.InstantIsFormula | include/Sentinel_Analysis_Core.hpp:81-90 | the branching update equals the indicator formula of the header |
| OrderFlow.ReturnedIsFormula | src/Sentinel_Analysis_Core.hpp:96-133 | over any book history the returned values sum to the formula over consecutive books |
| OrderFlow.ReversalNegates | src/Sentinel_Analysis_Core.hpp:100-119 | running a book history backwards negates its total imbalance |
| OrderFlow.RetracedPathCancels | src/Sentinel_Analysis_Core.hpp:100-119 | a book that retraces its own path has total imbalance 0 |
| OrderFlow.ConstantPricesTelescope | src/Sentinel_Analysis_Core.hpp:104-116 | while best prices stand still the total is the bid-size change minus the ask-size change |
| OrderFlow.EmaClosedForm | src/Sentinel_Analysis_Core.hpp:125 | the decayed imbalance is 1 - decay times the aged sum of the formula's values |
| OrderFlow.ScaleClosedForm | src/Sentinel_Analysis_Core.hpp:121-124 | the scale is the 0.98-average of the mean best sizes, started at 1 |
| OrderFlow.NormalizedSign | src/Sentinel_Analysis_Core.hpp:135-138 | the normalised imbalance has the sign of the decayed one |
| OrderFlow.OFICalculator.OnDepthUpdate | src/Sentinel_Analysis_Core.hpp:96-133 | returns the indicator formula against the previous book, 0 on the first, and advances the averages |
| Vacuum.AfterIsWithdrawals | src/Sentinel_Analysis_Core.hpp:150-177 | each side's statistics are those of its own successive withdrawals |
| Vacuum.WindowsTelescope | src/Sentinel_Analysis_Core.hpp:157-161 | both windows hold min(updates - 1, window) withdrawals and each sums to an old depth minus the current one |
| Vacuum.AlarmIffMaxExceedsTrigger | src/Sentinel_Analysis_Core.hpp:163-171 | the alarm fires exactly when the larger recomputed score exceeds the trigger, reports that score, and names the bid side exactly when bids score at least as high |
| Vacuum.LiquidityVacuumDetector.OnDepthUpdate | src/Sentinel_Analysis_Core.hpp:150-177 | scores both withdrawals, decides, and remembers both depths |
| Decay.FlowClosedForm | src/Sentinel_Analysis_Core.hpp:215-224 | inflow and outflow are the sums of their own side's notionals, one i trades old counting 0.999^i; their total does not depend on the sides |
| Decay.FlowBound | include/Sentinel_Analysis_Core.hpp:187-189 | notionals in [0, M] leave both gauges non-negative and together at most 1000 M (1 - 0.999^n) |
| Decay.PeakIsLargestAged | src/Sentinel_Analysis_Core.hpp:205-208 | the latency readout is the largest latency so far, one i ticks old counting 0.995^i |
| AnalysisEngine.SumSizes | src/Sentinel_Analysis_Core.hpp:243-245 | the depth loop computes the sum of the listed sizes |
| AnalysisEngine.AnalysisEngine.ProcessTrade | src/Sentinel_Analysis_Core.hpp:211-231 | the trade calculators, the flows and the published volume score advance; nothing else changes |
| AnalysisEngine.AnalysisEngine.ProcessDepth | src/Sentinel_Analysis_Core.hpp:233-253 | a book with an empty side is ignored; otherwise imbalance, detector and the published vacuum group advance |
| AnalysisEngine.AnalysisEngine.RecomputeSignal | src/Sentinel_Analysis_Core.hpp:255-304 | the second lock section writes every derived field from the calculators and the two published groups |
| AnalysisEngine.AnalysisEngine.OnTick | src/Sentinel_Analysis_Core.hpp:189-209 | a tick is its process, recompute and latency sections in order |
| EngineHistory.RunIsHistory | src/Sentinel_Analysis_Core.hpp:189-209 | at rest the whole engine is a function of the tick history, and the latency readout of the latencies |
| EngineHistory.TradeSide | src/Sentinel_Analysis_Core.hpp:211-224 | after any mixed history the trade calculators are those of the trades alone, and the counter counts all ticks |
| EngineHistory.BookSide | src/Sentinel_Analysis_Core.hpp:233-247 | after any mixed history the book calculators are those of the usable books alone |
| EngineHistory.BookCountsIffTwoSided | src/Sentinel_Analysis_Core.hpp:233-241 | a book with an empty side only bumps the tick counter; any other becomes the previous book, best price and size of either side in their own places |
| SignalTheorems.RestIsRecomputed | src/Sentinel_Analysis_Core.hpp:255-266 | at rest every statistic of the snapshot is recomputed from the fields of the ticks: VWAPs, flows as 0.999-aged sums of price times quantity by side, imbalance as an aged sum of the indicator formula over consecutive books' best levels and its normalised form, two-pass volume score, two-pass vacuum verdict, last price, counter, latency peak |
| SignalTheorems.TwoBooksImbalance | src/Sentinel_Analysis_Core.hpp:236-241 | two books at standing best prices leave 1 - decay times what the best bid gained less what the best ask gained, whatever lies deeper and whatever trades surround them |
| SignalTheorems.SignalIsComposite | src/Sentinel_Analysis_Core.hpp:268-303 | after every history the direction is bullish exactly when the weighted sum of the published fields exceeds the threshold and bearish exactly when it is below its negative; confidence, targets and time follow from the published fields |
| SignalTheorems.RecomputedIsSelfConsistent | src/Sentinel_Analysis_Core.hpp:285-303 | with a threshold in [0, 1) a direction is called exactly when confidence exceeds 100 times it, and the targets are symmetric about the window VWAP |
| SignalTheorems.ScoreParts | src/Sentinel_Analysis_Core.hpp:268-283 | the score stays within 1.1; the volume term backs the imbalance exactly for positive volume scores; a vacuum pushes exactly towards the side it names |
| SignalTheorems.ScoreMonotoneIff | src/Sentinel_Analysis_Core.hpp:272-283 | a stronger imbalance always gives a higher score exactly when the volume score is not negative |
| SignalTheorems.TargetsNearPrices | src/Sentinel_Analysis_Core.hpp:297-303 | published targets lie in [0.9975 lowest, 1.0025 highest] of the window's prices, on either side of the VWAP |
| SnapshotViews.RestIsCoherent | src/Sentinel_Analysis_Core.hpp:306-309 | a snapshot between ticks shows one tick's values throughout, latency peak included |
| SnapshotViews.ProcessedIsCoherent | src/Sentinel_Analysis_Core.hpp:226-230 | a snapshot after the first section shows one tick's derived fields and the latency peak of the finished ticks, with at most the volume score or the vacuum group one tick ahead |
| SnapshotViews.RecomputedIsCoherent | src/Sentinel_Analysis_Core.hpp:255-304 | a snapshot after the second section shows the new tick's values throughout, but for the latency peak, which is that of the ticks before |
| SnapshotViews.CoherentIsSelfConsistent | src/Sentinel_Analysis_Core.hpp:285-303 | in every snapshot, mid-tick ones included, a direction is called exactly when confidence exceeds 100 times the threshold and the targets are symmetric |
| SnapshotViews.MixedIff | src/Sentinel_Analysis_Core.hpp:226-230 | between the first two sections direction and confidence stop following from the volume score and vacuum shown beside them exactly when the tick moves the score to a value that is not equal, not opposite within the threshold, and not beyond the same end of the scale |
| SnapshotViews.MixedSnapshotExists | src/Sentinel_Analysis_Core.hpp:306-309 | a concrete run where a reader sees a score of 8 beside the direction and confidence of a tick whose own score was 0, which 8 does not explain |
| Mirror.RunMirrored | src/Sentinel_Analysis_Core.hpp:211-253 | the mirrored run leaves the mirrored calculators: imbalance negated, sides of the detector and flows exchanged |
| Mirror.VacuumRunMirrored | src/Sentinel_Analysis_Core.hpp:163-171 | the alarm is mirrored exactly when the newest book was not a tie above the trigger |
| Mirror.ScoreMirrored | src/Sentinel_Analysis_Core.hpp:272-295 | direction is mirrored and confidence kept unless the imbalance is exactly 0, the volume score is not, and either a vacuum is flagged or the volume term alone exceeds the threshold |
| Mirror.ScoreMirroredIff | src/Sentinel_Analysis_Core.hpp:272-295 | that condition is exact for every verdict of positive magnitude |
| Mirror.BalancedFromThirty | src/Sentinel_Analysis_Core.hpp:272-274 | from a threshold of 0.3 on, the default among them, the volume term alone never matters |
| Mirror.ZeroImbalanceIff | src/Sentinel_Analysis_Core.hpp:272-281 | in that exceptional case confidence survives the mirror exactly when the volume score is 0 |
| Mirror.SignalMirrored | src/Sentinel_Analysis_Core.hpp:255-304 | over whole runs without those ties the mirrored market publishes the mirrored signal, whatever the trigger |
| Mirror.SignalMirroredIff | src/Sentinel_Analysis_Core.hpp:211-304 | over whole runs the mirrored market publishes the mirrored signal, volume score and vacuum group included, exactly when neither tie is present |
| Mirror.TiedRunExists | src/Sentinel_Analysis_Core.hpp:163-171 | four books falling alike on both sides: the run and its mirror image both report the bids as pulled |
| Mirror.UnbalancedRunExists | src/Sentinel_Analysis_Core.hpp:272-281 | a run with a standing best quote, pulled bids behind it and a volume score of 8, whose mirror image shows another confidence |
| Pipeline.ActionKeepsInv | src/Sentinel_Main.cpp:148-186 | every action of network, analysis and shutdown keeps the engine equal to its run over the popped ticks |
| Pipeline.Conservation | src/Sentinel_Main.cpp:148-186 | in every reachable state parsed ticks are dropped, queued, in flight in one thread or processed, and accepted and dropped ticks complement each other |
| Pipeline.EngineAtRest | src/Sentinel_Main.cpp:169-186 | between ticks and after the loop exits the engine is the sequential fold of on_tick over the consumed prefix of the accepted ticks |
| Pipeline.EverySnapshotIsAPrefix | src/Sentinel_Main.cpp:210-213 | whenever the publisher looks, the snapshot is coherent with a prefix of the accepted ticks and the latencies read so far, and its direction, confidence and targets agree |
| Orchestrator.Orchestrator.OnFrame | src/Sentinel_Main.cpp:148-155 | a parsed frame is pushed or dropped, an unparsed one ignored, and the engine is untouched |
| Orchestrator.Orchestrator.StepLoop | src/Sentinel_Main.cpp:172-184 | one turn analyses the next queued tick, or finds the queue empty |
| Orchestrator.Orchestrator.AnalyseWhileRunning | src/Sentinel_Main.cpp:169-186 | with `running` found set n times the loop analyses the next n queued ticks, or all there are, once and in order, and leaves the rest queued |
| Orchestrator.Orchestrator.PublishSnapshot | src/Sentinel_Main.cpp:210-213 | between ticks the publisher gets the signal of the popped history |
| TickHistory.HistoryRing.Push | Sentinel_Analysis_Core.cpp:63-70 | the item joins the history, overwriting the oldest entry when max_size - 1 are held |
| TickHistory.HistoryRing.GetSnapshot | Sentinel_Analysis_Core.cpp:72-82 | terminates and returns the last min(n, max_size - 1) items in order |
| TickHistory.HistoryRing.Size | Sentinel_Analysis_Core.cpp:84-88 | the snapshot's length |
| LiveReport.VwapBetween | Sentinel_Analysis_Core.cpp:98-108 | the reported VWAP lies within the held prices, also when it falls back to the last price |
| LiveReport.ImbalanceBetween | Sentinel_Analysis_Core.cpp:129-133 | the imbalance of non-negative liquidities lies in [-1, 1] |
| LiveReport.OwnSampleBound | Sentinel_Analysis_Core.cpp:111-126 | the squared score of the newest volume is at most the snapshot length minus 1 |
| LiveReport.SpikeAttainsBound | Sentinel_Analysis_Core.cpp:111-126 | a single spike among quiet ticks attains that bound |
| LiveReport.CriticalPossibleIff | Sentinel_Analysis_Core.cpp:161-197 | an n-tick snapshot that is reported critical exists exactly when n - 1 exceeds the squared threshold |
| LiveReport.AlertNeedsHistory | Sentinel_Analysis_Core.cpp:149-152 | no critical report below 11 ticks at threshold 3.0, nor below 14 at the default 3.5 |
| LiveReport.ReportDescribes | Sentinel_Analysis_Core.cpp:161-197 | every report in terms of its ticks: no data exactly when none are held; critical exactly for a whale volume whose distance from the mean exceeds the threshold in deviations; warning exactly for any other whale volume with a lopsided book; the sign and size of score and imbalance |
| LiveReport.LopsidedMeansFourTimes | Sentinel_Analysis_Core.cpp:129-133 | without negative liquidity the book is lopsided exactly when one side holds more than four times the other, and the imbalance is positive exactly when bids exceed asks |
| LiveReport.CalculateVWAP | Sentinel_Analysis_Core.cpp:98-108 | the loop computes the weighted mean, the last price when there is no volume, 0 on no ticks |
| LiveReport.CalculateZScore | Sentinel_Analysis_Core.cpp:111-126 | the two loops compute the score by two-pass mean and variance |
| LiveReport.MarketAnalysisEngine.GenerateLiveReport | Sentinel_Analysis_Core.cpp:161-197 | reports on the newest max_size - 1 ticks, with the risk, signs and sizes those ticks call for; critical only when their number exceeds the squared threshold plus 1 |
| Clusters.SortSorts | www/index.html:1255 | the sort orders by price and keeps every level |
| Clusters.SortIsStable | www/index.html:1255 | levels at the same price keep their order |
| Clusters.OnlyLastCanMatch | www/index.html:1259-1260 | although all clusters are scanned, no cluster before the last is ever within tolerance, whatever the prices |
| Clusters.GreedyIsClustered | www/index.html:1254-1271 | clusters are contiguous runs of the sorted levels, each priced at its mean with its timeframes, every later item at least 0.25% above every earlier price |
| Clusters.TightIffPositive | www/index.html:1259-1262 | no item is 0.25% above its own cluster's price exactly when all prices are positive |
| Clusters.ScanClusters | www/index.html:1257-1269 | the nested scan does exactly what joining only the last cluster does, on any prices |
| Clusters.PublishedPricesSpread | www/index.html:1270 | touches add up to the number of levels and prices rise by a factor of at least 1.0025 |
| Clusters.ClusterLevels | www/index.html:1254-1271 | the published summaries are those of the greedy clusters |
| VolumeScore.WelfordIsTwoPass | www/index.html:382-387 | volMean and volM2 are the mean and squared deviations of the whole history, and volM2 never decreases |
| VolumeScore.DisplayedScoreBound | www/index.html:388-390 | n times the squared displayed score is at most (n - 1)^2 |
| VolumeScore.DisplayedScoreMeans | www/index.html:388-390 | the displayed score is positive exactly when the newest volume exceeds the mean of the whole history, and its square is exact in sample deviations |
| VolumeScore.VolumeState.UpdateVolZ | www/index.html:382-391 | updates the running moments in place and shows the score of the newest volume |
| Magnet.BiasBounded | www/index.html:459-466 | the bias stays in [-1, 1], so capping the strength never acts |
| Magnet.HysteresisTheorem | www/index.html:463-474 | f flips of the side need a total bias movement of at least 0.24 f - 0.12, restarts of the average included |
| Magnet.FlipsTakeTime | www/index.html:449-451 | f flips take at least f recompute intervals |
| Magnet.FlipNeedsRawBias | www/index.html:463-474 | the side flips only while the unsmoothed bias is itself beyond the margin on the new side |
| Magnet.SideFollowsBias | www/index.html:468-474 | the side never contradicts a bias beyond the margin |
| Magnet.StepRecomputes | www/index.html:439-474 | what every call leaves, by its inputs: depths moved by 12%, and after at least a second the bias moved by 25% towards the pull of balance and rates, with the side beyond 0.12 on either side |
| Magnet.PointsAtHeavierSide | www/index.html:447-474 | on the first recomputation a balance on the bids' side that is not draining faster points up, and the reverse points down |
| Magnet.MagnetState.ComputeLiquidityMagnet | www/index.html:439-474 | leaves depths, balance, bias, side and time as the inputs call for; the strength is always the capped bias |
| Reconnect.PendingBoundedByRuns | src/Sentinel_Network.hpp:39-165 | never more operations in flight than calls of run(), whatever succeeds, fails or stops |
| Reconnect.SecondRunDoubles | include/Sentinel_Network.hpp:59-61 | calling run() twice does put two operations in flight |
| Reconnect.BackoffSchedule | src/Sentinel_Network.hpp:147-156 | the k-th wait in a row is min(initial 2^(k-1), max), the first being initial, counted since the last handshake |
| Reconnect.ReconnectIsAnnounced | src/Sentinel_Network.hpp:110-165 | between two Connected notices there is a Disconnected and later a Connecting |
| Reconnect.HandlersInOrder | src/Sentinel_Network.hpp:50-165 | without stop exactly one operation is pending at any time, and handlers run in the order lookup, connect, TLS, websocket, reads, with any failure leading to the timer and the timer to the lookup |
| Reconnect.NoticeLedger | src/Sentinel_Network.hpp:50-165 | without stop every Connecting, Connected and Disconnected is accounted for by a run, a fired timer, a handshake or a failure, a failed read counting twice |
| Reconnect.CanAlwaysConnect | src/Sentinel_Network.hpp:147-165 | while not stopped, whatever is pending can still lead to Connected without another run(), which restores the initial delay |
| Reconnect.TimerReconnects | src/Sentinel_Network.hpp:153-164 | from an armed timer Connecting and then Connected can follow |
| Reconnect.TimerCutsOff | src/Sentinel_Network.hpp:158-162 | a fired timer replaces the stream, so nothing started on the old one can succeed |
| Reconnect.StopIsFinal | src/Sentinel_Network.hpp:44-48 | after stop no timer is armed, no resolve starts, and only Connected can still be announced |
| Reconnect.ConnectsAfterStopIff | src/Sentinel_Network.hpp:44-68 | after stop a Connected can still come exactly when a lookup, or a websocket handshake that had already succeeded, was pending; connects and TLS handshakes are cut off by the closed socket |
| Reconnect.FramesAfterStopIff | src/Sentinel_Network.hpp:44-68 | after stop any number of frames can still come when a lookup was pending, one when a read had already succeeded, and otherwise none |
| Reconnect.WebSocketClient.OnHandshake | src/Sentinel_Network.hpp:110-120 | success resets the backoff, announces Connected and starts reading |
| Reconnect.WebSocketClient.OnRead | src/Sentinel_Network.hpp:127-145 | success hands over the frame and reads on; failure reconnects unless stopped |
| Reconnect.WebSocketClient.OnTimer | src/Sentinel_Network.hpp:153-164 | a fired timer doubles the backoff up to the maximum and resolves again, unless stopped |

## Left out

- Floating point: rounding, drift of the running sums, NaN and infinities; agreement of running and recomputed forms is over the reals, and sqrt and tanh are known only by their laws.
- Capacity 0 of the ring and size 0 of the history, which the code admits but which index an empty array; a ring of capacity 1 is included and holds nothing.
- Integer widths: indices stay below Capacity, and the 64-bit drop and tick counters are unbounded here.
- Memory orders weaker than release/acquire, and more than one producer or consumer.
- Clusters.ClusterLevels: timeframes are a set, so their display order is not modelled.
- Mirror.SignalMirroredIff: takes the threshold and the trigger to be at least 0, because with a negative threshold a score of 0 is called bullish in the market and in its mirror image alike, and with a negative trigger an alarm may have no magnitude; SignalMirrored does without the trigger's half.
- Reconnect.WebSocketClient.OnRead: counts the frames handed over and not their contents; the frame handler is taken to be set, as the main program sets it.
- Reconnect.HandlersInOrder: takes armed timers to run out, because nothing in the program cancels one.
- Reconnect: a closed or replaced socket fails its operations, and success can only be queued while it is open; what the network library does beyond that, timeouts included, is an arbitrary failure.
- JSON parsing and output, files, HTTP, TLS, DNS, signals, threads and clocks: a parsed tick, an operation's outcome and the time are inputs.
- CloudPublisher, the dashboard's rendering, charts and fetching.
- The magnet's choice among candidate clusters, swing pivots, the volume profile and the projections of the dashboard: separate computations that would add only easier members.
- Cache-line layout, spinning and back-off of the idle loop: performance only.
