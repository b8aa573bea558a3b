# Verification of the trading-alert engine

A Dafny 4.11 model of a trading-alert engine, with proofs about it. The engine merges market-signal
snapshots, lets a language model propose alerts, puts every proposal through a chain of server-side gates,
applies a policy to the remaining WATCH alerts, delivers what survives, and follows the stored alerts until they win,
lose or expire. `dafny verify dfyconfig.toml` checks the whole project.

The model keeps the program's form: objects whose methods update fields are classes, loops are loops, and each
such method is proved equal to a specification function or against a predicate that says what it computes. What the
engine is for is then proved about those specifications, over every candidate, every run and every history.

| file | models |
|---|---|
| `GateTypes`, `Regime`, `Reconciliation` | the shared data; signal surface, regime and gate overlays; evidence from snapshots |
| `CandidatePipeline`, `GateTheorems`, `Acceptance` | the 13 mutating stages, what the whole pipeline computes, and what each gate rests on |
| `RedisStore`, `RedisCircuit`, `SessionStats` | the shared store, its circuit breaker, the per-session statistics hash |
| `ValidateAndFilter`, `RejectionLaws`, `RunTheorems`, `DecisionEngine` | one decision run: its parts, its rejection rows, its accounting, the whole entry point |
| `SessionRuns`, `WatchHistory`, `DedupHistory` | histories of runs: the session hash, the watch cycles, the dedup keys |
| `Merger`, `MergeLaws` | snapshot grouping, sign-aware dedup, rewrites, ranking |
| `Notifier`, `Webhook` | delivery: dedup window, caps, persist-first order, retries, audit |
| `OutcomeTracker`, `OutcomeLaws` | the life of a stored alert |
| `SafeEval`, `EvalLaws`, `Template` | template expressions and their rendering |
| `McpCircuit`, `Workflow` | per-endpoint breaker, workflow runner |
| `Rsi`, `Interpolation` | two arithmetic kernels |

Floats are reals; the two places that branch on NaN or infinity (VIX, entry prices) have a non-finite case. Thresholds are
fields of a settings record; `DEFAULT_SETTINGS` holds the defaults. Redis is a map from keys to values with an expiry time,
read against one clock value per run. Whatever the outside world does (LLM items, prices, forecasts, HTTP replies, Discord,
Postgres) is a parameter that may answer anything.

## What the proofs found

- With Redis up, no gate-level dedup key of a trade ever survives the run that stored it, over any history
  (`WatchHistory.NoTradeKeySurvives`): the gate suppresses a trade exactly when an earlier item of the same run with its key
  was accepted, never because of an earlier run (`WatchHistory.TradeSuppression`; for every alert, trades and watches alike, `DedupHistory.SuppressionMeaning`). A WATCH that the policy drops does leave
  its key behind and stays suppressed although it was never emitted (`WatchHistory.DedupKeysLeftBehind`). Across runs only
  the notifier's own key spaces trades (`Notifier.DeliveriesAreSpaced`).
- A dry run of the execution webhook reports success without a POST, and the notifier then marks the row as dispatched
  (`Notifier.DryRunMarks`). Every mark has an acknowledged POST exactly when no otherwise markable delivery runs dry
  (`Notifier.MarksAreAcknowledged`).
- Merged signals are unique per source, type and sign except when the stale-price guard rewrites a bearish forecast to score
  zero beside a bullish one of the same source; the condition is exact (`Merger.UniqueAfterRewrites`) and met by a valid group
  (`Merger.ForecastsCollide`). The merger's comment speaks of a failure share of at least one half; the code abandons the
  merge above one half, and the model follows the code.
- Session counters prefixed `gate_dir_` add up to the directional rejections (`SessionStats.StoredSessionIsConserved`). Those
  prefixed `gate_watch_` exceed the watch rejections by one for every row of the three WATCH threshold gates, whose plain
  names they share, and so add up exactly when no run reported such a row (`SessionStats.StoredWatchFields`).
- Compared on the same evidence, the stressed overlay keeps every reason of the neutral one exactly unless the candidate is a
  LONG in a risk-off market that the soft VIX gate rejects, which the stressed regime exempts
  (`GateTheorems.StressedRegimeComparison`, with an input in `GateTheorems.StressedRegimeExempts`). The comparison is
  counterfactual: one VIX and risk state is never classified both ways, and under the default soft threshold a run classified
  neutral never trips that gate for a LONG (`GateTheorems.NeutralNeverTripsSoftVix`). In any regime it never decides alone for
  a LONG (`GateTheorems.SoftVixImpliesHardForLongs`).
- The tracker keeps one forecast verdict per symbol and cycle: the answer to the first row that asked, although the request
  also carries the row's direction and timeframe (`OutcomeTracker.CacheIsFirstAnswer`). A row is judged by its own forecast if
  and only if no earlier row of its symbol asked or the first that did got the same answer
  (`OutcomeTracker.OwnVerdictCounts`); a SHORT can be closed on the verdict given for a LONG
  (`OutcomeTracker.ShortClosedOnLongVerdict`), and a LONG on the verdict given for another timeframe
  (`OutcomeTracker.LongTimeframeClosedOnShortOne`).
- The notifier's key is held by admission alone: an alert that the cap then drops, or whose insert fails, blocks its symbol,
  direction and timeframe for a full window (`Notifier.AdmissionMeaning`, `Notifier.DroppedAlertBlocks`).
- A reflected price series has the complementary RSI except exactly when it is flat, where both are 100
  (`Rsi.ReflectionComplements`).

## Model

| member | source | states |
|---|---|---|
| `CandidatePipeline.ReasonTracker.Add` | gates/candidate_pipeline.py:36-39 | appends an unseen reason and ignores a seen one, keeping the list duplicate-free |
| `CandidatePipeline.CandidateContext.StageReconciliation` | gates/candidate_pipeline.py:100-160 | overwrites the claimed agreement with the server's count and caps the edge probability by the ceiling for the distinct types seen |
| `CandidatePipeline.CandidateContext.StageEntryMarketDrift` | gates/candidate_pipeline.py:195-222 | rejects exactly a trade whose entry is too far from a known reference price, unless its price order already failed |
| `CandidatePipeline.CandidateContext.StageThresholdGates` | gates/candidate_pipeline.py:266-335 | raises exactly the threshold reasons of the alert's direction, in order |
| `CandidatePipeline.CandidateContext.StageVolumeUnconfirmed` | gates/candidate_pipeline.py:448-473 | lowers the confidence of an unconfirmed trade and re-tests it against the gate |
| `CandidatePipeline.CandidateContext.Apply` | gates/candidate_pipeline.py:476-490 | one mutating stage takes the context to the stage function's alert and reasons |
| `CandidatePipeline.CandidateGatePipeline.Run` | gates/candidate_pipeline.py:499-517 | runs the stages in order and then claims the dedup key only for a candidate without reasons |
| `Acceptance.AcceptedIsBacked` | gates/candidate_pipeline.py:100-160 | an accepted alert has a set of families with means at or beyond the minimum on its side, macro context included, as many as it claims less one for a forecast bonus, at least as many as its gate asks for, and no larger set of that kind exists |
| `Acceptance.AgreementMeaning` | gates/candidate_pipeline.py:100-147 | the final agreement of any alert is the size of the largest set of families that lean its way, one more for a confirming forecast, never above seven; a WATCH takes the larger side and no bonus |
| `Acceptance.EdgeMeaning` | gates/candidate_pipeline.py:149-152 | the final edge is the smaller of the claimed one and the ceiling for the set of types reported for the symbol |
| `Acceptance.ConfidenceMeaning` | gates/candidate_pipeline.py:225-473 | the confidence after the session and volume penalties, and when the confidence, high-confidence and volume gates fail on it |
| `Acceptance.EvidenceGates` | gates/candidate_pipeline.py:88-335 | a symbol is unknown exactly when nothing is reported for it; a trade misses the edge and agreement gates exactly when its final numbers are below them |
| `Acceptance.WatchGates` | gates/candidate_pipeline.py:266-295 | when each of the three WATCH gates fails, and that no other gate ever rejects a known WATCH |
| `Acceptance.PriceGates` | gates/candidate_pipeline.py:163-372 | on the prices alone: when a trade's order, risk floor and reward ratio fail |
| `Acceptance.DriftGateMeaning` | gates/candidate_pipeline.py:195-222 | an ordered trade drifts if and only if its entry lies outside the limit for the VIX and session around a known positive market price |
| `Acceptance.MarketGates` | gates/candidate_pipeline.py:244-445 | when the session, hard VIX, macro veto, soft VIX and forecast gates fail, on the run's VIX, risk flag, regime and forecast scores |
| `Acceptance.FinalAlertKeeps` | gates/candidate_pipeline.py:100-473 | the stages change nothing of an alert but its agreement, edge and confidence |
| `GateTheorems.PipelineRefinesGates` | gates/candidate_pipeline.py:88-517 | the 13 stages compute the final alert and list exactly the failed gate predicates of the original candidate, each once, in order |
| `GateTheorems.ListsIsUnique` | gates/candidate_pipeline.py:29-47 | a duplicate-free ranked list of the failed gates is unique |
| `GateTheorems.VerdictMeaning` | gates/candidate_pipeline.py:505-517 | accepted if and only if every gate holds and the key is unclaimed; suppressed if and only if every gate holds and it is claimed; rejected with exactly the failed gates otherwise |
| `GateTheorems.AcceptedDirectionalIsSafe` | gates/candidate_pipeline.py:163-473 | an accepted trade still has, after both penalties, confidence above the gate, high confidence only with high agreement, edge between gate and ceiling, ordered positive prices, risk above the floor, the minimum reward ratio, a known symbol and VIX at most 30 |
| `GateTheorems.RegimeMonotonicity` | gates/regime.py:115-151 | for one candidate and evidence the reasons under trending are among those under neutral, and those among the choppy ones; acceptance goes the other way |
| `GateTheorems.StressedRegimeComparison` | gates/candidate_pipeline.py:424-445 | with a tightening stressed overlay, the neutral reasons are among the stressed ones if and only if the candidate is not a risk-off LONG that the soft VIX gate rejects under neutral |
| `GateTheorems.StressedRegimeExempts` | gates/candidate_pipeline.py:424-445 | an input with the default settings whose soft VIX rejection the stressed regime drops |
| `GateTheorems.NeutralNeverTripsSoftVix` | gate_config.py:51-71 | no VIX and risk state is classified both neutral and stressed, and with the default soft threshold a run classified neutral never trips the soft gate for a LONG |
| `GateTheorems.ClaimsDoNotInfluenceGates` | gates/candidate_pipeline.py:100-160 | candidates differing in the claimed agreement, or in edges at or above the ceiling, get the same verdict, reasons and final alert |
| `GateTheorems.HigherEdgeNeverHurts` | gates/candidate_pipeline.py:266-335 | raising the edge probability never adds a rejection |
| `GateTheorems.AcceptedNeedsBreadth` | gates/regime.py:19-31 | with the default tables an accepted trade has at least three distinct signal types and a WATCH two, in every regime, session and timeframe |
| `GateTheorems.SoftVixImpliesHardForLongs` | gates/candidate_pipeline.py:424-445 | with the default soft threshold a LONG tripping the soft VIX gate trips the hard one |
| `Regimes.SignalSurface` | gates/regime.py:72-112 | the loops count exactly the bullish and bearish signals and average their capped strengths |
| `Regimes.SurfaceMeaning` | gates/regime.py:72-112 | the running counters are the numbers of bullish and bearish signals and the list of their capped strengths |
| `Regimes.VotesMeaning` | gates/regime.py:72-112 | which types vote, and for which side by the sign of their score |
| `Regimes.RegimeMeaning` | gate_config.py:51-71 | the regime as an if and only if on VIX, risk flag, numbers of bulls and bears and strength, for each of the six |
| `Regimes.DynamicGates` | gates/regime.py:115-151 | the stepwise update equals the clamped sum of regime and timeframe shifts |
| `Regimes.GatesMeaning` | gates/regime.py:115-151 | how far each regime and timeframe moves each gate, and the bounds it stays within |
| `Regimes.SessionMeaning` | gates/session.py:94-117 | the session raises the gates of a 15m run before and after hours, when extended-hours alerts are off, and no others |
| `Regimes.GatesOrderedByRegime` | gates/session.py:94-117 | after clamps and the session overlay all three gates are still ordered trending, neutral, choppy |
| `Reconciliation.BuildSnapTypeIndex` | gates/reconciliation.py:49-63 | indexes for each symbol exactly the types its snapshots report |
| `Reconciliation.TypeIndexMeaning` | gates/reconciliation.py:49-63 | a type is indexed under a symbol if and only if some report of that symbol has it |
| `Reconciliation.BuildSymbolFamilyScores` | gates/reconciliation.py:80-105 | the loop's table holds exactly the mean directional score of each family a symbol reports |
| `Reconciliation.FamilyMeansMeaning` | gates/reconciliation.py:80-105 | the accumulated lists give the family means |
| `Reconciliation.SignalMeaning` | gates/reconciliation.py:10-77 | which family each signal type belongs to, and with which sign its score counts |
| `Reconciliation.SilentSignal` | gates/reconciliation.py:80-105 | a signal without readable score, family or symbol leaves no evidence |
| `Reconciliation.EvidenceIsOrderFree` | gates/reconciliation.py:49-105 | reordering the reports changes neither the types nor any family mean |
| `Reconciliation.AlignedCountLaws` | gates/reconciliation.py:108-115 | at most seven families vote, and negating every family score exchanges the LONG and SHORT counts |
| `Reconciliation.AlignedCountMeaning` | gates/reconciliation.py:108-115 | a LONG counts the largest set of families at or above the minimum, a SHORT the largest at or below its negative, a WATCH the larger of both |
| `Reconciliation.ExtractScores` | gates/rr_volume.py:69-89 | for each symbol that reports the kind, the first score that no other report beats; no other symbol |
| `Reconciliation.BestScoresMeaning` | gates/rr_volume.py:146-166 | the running best is that first maximum |
| `Reconciliation.KeptScores` | gates/rr_volume.py:69-166 | no forecast report of a symbol is larger in magnitude than the one kept, and no volume spike higher |
| `RedisStore.RedisClient.TryDedupSet` | gates/dedup.py:43-56 | claims a free key for its TTL, reports a live one, lets everything through when dedup or Redis is off, touches nothing else, and checks the breaker before and tells it of a failure after, once each |
| `RedisStore.ClaimMeaning` | gates/dedup.py:43-56 | a claim makes a free key live for the window of its direction, leaves a live one as it was, and touches no other |
| `RedisStore.RedisClient.ResetDedupKeys` | gates/dedup.py:30-40 | forgets the keys of all three directions of the symbols, and no others |
| `RedisStore.RedisClient.IncrWatchCycles` | gates/watch.py:55-70 | raises the live count by one, stores the last edge and confidence and renews the expiry |
| `RedisStore.RedisClient.GetWatchCycles` | gates/watch.py:43-52 | reads zero for a missing or expired hash or an open circuit |
| `RedisStore.RedisClient.ResetWatchCycles` | gates/watch.py:73-82 | deletes the hashes of the symbols and no others |
| `RedisCircuit.RedisCircuitBreaker.CheckNow` | gates/redis_circuit.py:26-42 | lazily resets after a quiet window and reports whether the circuit is open |
| `RedisCircuit.RedisCircuitBreaker.RecordFailureNow` | gates/redis_circuit.py:44-62 | continues or restarts the streak and opens at the threshold |
| `RedisCircuit.BreakerRefinesHistory` | gates/redis_circuit.py:26-62 | after any history the fields agree with the longest suffix of failures with gaps below the window |
| `RedisCircuit.CheckMeaning` | gates/redis_circuit.py:26-62 | the next check is open if and only if the history says so; open implies the threshold was reached, and no failure is recorded while open |
| `RedisCircuit.StreakNeverExceedsThreshold` | gates/redis_circuit.py:44-62 | the streak that opens the circuit is never longer than the threshold |
| `ValidateAndFilter.ScanItems` | validate_and_filter.py:257-305 | the candidate loop files every item as the specification does and leaves the store it specifies |
| `ValidateAndFilter.DropDecayed` | validate_and_filter.py:347-363 | splits the ranked queue into fresh watches and rows for decayed ones, each in order |
| `ValidateAndFilter.ApplyWatchPolicy` | validate_and_filter.py:314-378 | watches are dropped beside trades, otherwise ranked, decayed and cut to the regime's cap |
| `ValidateAndFilter.CountCycles` | validate_and_filter.py:380-393 | counts a cycle for each emitted watch in order and marks the strengthening ones |
| `ValidateAndFilter.BuildEnvironment` | validate_and_filter.py:218-247 | the run's evidence, regime and gates are those the snapshots determine; a non-finite VIX counts as 35 |
| `ValidateAndFilter.ParseMeaning` | models.py:117-206 | an item with readable numbers is accepted by the validators if and only if its direction is one of the three, its prices are finite and ordered, its agreement non-negative and its confidence in proportion to its edge |
| `ValidateAndFilter.WatchCapMeaning` | gates/watch.py:28-36 | the cap of each regime, and the smaller one while the circuit is open |
| `RejectionLaws.RowsAreFailures` | validate_and_filter.py:257-305 | every candidate is the final form of an item, and its rows name exactly the gates that item fails, or the one suppression |
| `RejectionLaws.TimeframeMeaning` | gates/candidate.py:92-104 | a readable item is refused for its timeframe alone if and only if that is none of the five |
| `RejectionLaws.DroppedBesideTrades` | validate_and_filter.py:314-320 | beside trades every watch is dropped under that gate, and no other row is added |
| `RejectionLaws.DroppedAlone` | validate_and_filter.py:347-373 | without trades a watch that is not kept is dropped as decayed if its count reached the limit and for the cap otherwise, and no other row is added |
| `DecisionEngine.ValidateAndFilter` | validate_and_filter.py:161-456 | one run returns the specified alerts and rows, leaves the specified store, and turns a session hash that accounts for the earlier runs into one that accounts for this one too |
| `RunTheorems.ScanIsAccounted` | validate_and_filter.py:257-305 | after the loop every item is counted, and every candidate position was accepted or owns a rejection row, never both |
| `RunTheorems.FinishIsAccounted` | validate_and_filter.py:307-378 | ranking, decay and cap move positions from accepted to rejected without losing or repeating one |
| `RunTheorems.RunIsAccounted` | validate_and_filter.py:249-378 | items are parse failures, timeframe rows and candidates; each candidate is emitted or rejected, never both; the rows are the timeframe, directional and watch rows as a multiset |
| `RunTheorems.OutputIsHomogeneous` | validate_and_filter.py:307-378 | a run emits only trades, or only watches and at most the cap |
| `RunTheorems.KeptWatchesAreBest` | validate_and_filter.py:322-373 | the kept watches are the best of those not decayed by boosted score, and as many as the cap allows |
| `RunTheorems.OmittedWatchIsWeaker` | validate_and_filter.py:322-373 | no fresh watch that is left out beats a kept one by edge times confidence, times the bonus for one that is improving |
| `RunTheorems.EmittedPassedTheGates` | validate_and_filter.py:257-399 | every emitted alert is the final form of some item that passed every gate, changed at most in a watch's thesis |
| `RunTheorems.StressedRunEmitsNoTrade` | validate_and_filter.py:229-234 | a VIX above 30 or not finite yields no trade |
| `RunTheorems.EmittedAlertsReparse` | models.py:130-206 | every emitted alert still passes the validators the notifier applies to it again, unchanged |
| `WatchHistory.ScanKeysUnique` | gates/dedup.py:43-56 | alerts accepted in one run have distinct, claimed keys |
| `WatchHistory.FinishCycles` | validate_and_filter.py:380-399 | a run's effect on one cycle hash: deleted by a trade, raised by one by an emission that was below the limit, otherwise untouched |
| `WatchHistory.CycleCountIsStreak` | gates/watch.py:43-82 | over any sequence of runs the stored count equals the emissions since the last trade or expiry and never exceeds the decay limit |
| `WatchHistory.PrevEdgeIsLastEmission` | gates/watch.py:55-100 | over any sequence of runs the previous edge of a key is the edge of its last emission as WATCH, until a trade or the expiry |
| `WatchHistory.ImprovingMeaning` | gates/watch.py:103-116 | the next run calls a watch improving if and only if its edge is above that of its last emission |
| `WatchHistory.EmittedWatchMeaning` | validate_and_filter.py:380-393 | every emitted watch is an accepted one whose thesis carries the mark with the length of its streak if and only if that is long enough and its edge rose |
| `WatchHistory.DigitsMeaning` | validate_and_filter.py:386 | the count in the mark is its decimal numeral without leading zeros |
| `WatchHistory.DedupKeysLeftBehind` | validate_and_filter.py:395-399 | a trade's key is gone after its run; a watch's key stays if and only if its symbol did not trade, emitted or not |
| `WatchHistory.NoTradeKeySurvives` | validate_and_filter.py:395-399 | after any sequence of runs only keys of watches are stored |
| `WatchHistory.LiveDuringScan` | gates/dedup.py:43-56 | during a run a key is live if and only if it was at the start or an earlier item with it was accepted |
| `WatchHistory.TradeSuppression` | gates/candidate_pipeline.py:511-517 | after any history a trade that passes the gates is suppressed if and only if an earlier item of its run with its key was accepted |
| `DedupHistory.HeldMeaning` | gates/dedup.py:30-56 | over any sequence of runs a dedup key is held if and only if some run accepted it less than its window before and no run since, itself included, traded its symbol |
| `DedupHistory.SuppressionMeaning` | gates/candidate_pipeline.py:511-517 | an item that passes the gates is suppressed if and only if an earlier item of its run with its key was accepted or the history still holds the key |
| `SessionStats.SessionStatsStore.Record` | gates/session.py:45-79 | one run adds its totals and one increment pair per rejected row to the hash, and other hashes stay |
| `SessionRuns.SessionHashMeaning` | validate_and_filter.py:429-438 | over any sequence of runs the hash counts the runs, their items, their emitted trades and watches, their rows about trades and about watches, and their suppressions; each directional gate field counts the rows about trades at its gate, each watch field those about watches and the rows whose plain field it shares |
| `SessionRuns.RecordKeepsAccounts` | gates/session.py:45-79 | recording one more run keeps a hash an account of the runs recorded |
| `SessionRuns.RunIsSorted` | validate_and_filter.py:257-378 | the rows filed under trades are about trades, those filed under watches about watches, and suppressions are the rows of that gate |
| `SessionStats.FieldNamesSeparate` | gates/session.py:71-75 | the 23 directional field names differ from each other and from every other field |
| `SessionStats.SessionIsConserved` | gates/session.py:45-79 | over any number of runs rejected and passed totals equal the sums of their parts and each directional field counts its rows |
| `SessionStats.StoredSessionIsConserved` | gates/session.py:57-75 | with the real names the directional fields over all gates add up to the directional rejections |
| `SessionStats.StoredWatchFields` | gates/session.py:73-75 | over any runs the watch-prefixed fields add up to the watch rejections plus the rows of the three WATCH threshold gates, hence to the watch rejections if and only if no run reported such a row |
| `SessionStats.WatchNamesSeparate` | gates/session.py:71-75 | a watch-prefixed name equals a plain name in exactly three pairs of gates and no other name of another gate |
| `SessionStats.WatchFieldsCollide` | gates/session.py:73-75 | one watch row counted twice under the watch prefix |
| `Merger.DedupSignals` | merger.py:151-160 | the in-place dictionary fold equals the dedup specification |
| `Merger.DedupOrder` | merger.py:151-160 | one signal per source, type and sign, in order of first occurrence |
| `Merger.DedupMeaning` | merger.py:151-160 | each kept signal is the first lexicographic maximum of its key, and every key of the input is kept |
| `Merger.ChampionIsFirstMaximum` | merger.py:151-160 | the running champion of a key is the first signal none of the others beats |
| `Merger.DedupIsIncremental` | merger.py:151-160 | dedup of a deduplicated prefix and more equals dedup of everything |
| `Merger.GroupsMeaning` | merger.py:132-135 | groups are distinct and hold exactly the snapshots of their symbol and timeframe, in order |
| `Merger.MergeOne` | merger.py:142-293 | one group becomes nothing when it lacks types, otherwise the rewritten snapshot with its strength |
| `Merger.StrengthIsDiscounted` | merger.py:193-206 | the diversity blend keeps the strength between zero and the raw strength, and leaves a weighted, non-zero one whole if and only if no two signals share a type |
| `Merger.RewritesPreserve` | merger.py:222-285 | both rewrites keep the number, source and type of signals and their validity |
| `Merger.UniqueAfterRewrites` | merger.py:256-264 | signals stay unique per source, type and sign if and only if no bearish forecast is suppressed beside a bullish one of its source |
| `Merger.ForecastsCollide` | merger.py:227-264 | a valid deduplicated group that loses uniqueness this way |
| `Merger.Merge` | merger.py:106-298 | the loops return the merge of the readable entries when at most half are unreadable, and nothing when more are |
| `Merger.MergeIsTop` | merger.py:295-298 | sorting and cutting keeps the strongest results, in order, none twice |
| `Merger.MergeMeaning` | merger.py:106-298 | with at most half of the entries unreadable a merge returns the strongest groups of real symbols with enough types, non-increasing, one per symbol and timeframe, none omitted that beats one returned; otherwise nothing |
| `Merger.MergedSnapshotsAreSound` | merger.py:129-293 | a returned snapshot has a real symbol, enough types, valid signals and the types of all its group's snapshots |
| `Merger.DegradedMeaning` | merger.py:116-127 | a queue is given up if and only if more than half of its entries are unreadable |
| `MergeLaws.CandidatesMeaning` | merger.py:129-135 | the groups hold exactly the readable snapshots of real symbols, each in the group of its symbol and timeframe |
| `MergeLaws.SurvivorMeaning` | merger.py:151-160 | of signals of one source, type and side survives one that none of the others beats, the first of equals, and only that one |
| `MergeLaws.GroupMeaning` | merger.py:142-293 | a group answers if and only if it has enough types for the timeframe, then with its rewritten survivors, the time of its first member and their strength at that age |
| `MergeLaws.StrengthByAge` | merger.py:179-206 | the exact strength in each of the three age bands, with and without the diversity blend |
| `MergeLaws.FresherGroupRanksNoLower` | merger.py:179-206 | a group with the same signals whose first member is newer never has less strength |
| `MergeLaws.RewriteMeaning` | merger.py:208-285 | signal by signal: the stale forecast gets score 0 and confidence 0.10, the confirmed trend gains 0.10 of confidence up to 1, and nothing else changes but their reasons |
| `Notifier.NotifierService.IsDuplicateAlert` | notifier_and_logger.py:80-98 | claims a free key for the window, reports a live one, allows everything when Redis is down |
| `Notifier.NotifierService.DeliverOne` | notifier_and_logger.py:188-251 | the events of one delivery, failures included, and what it adds to the webhook client's POSTs, pauses and audit rows |
| `Notifier.NotifierService.Notify` | notifier_and_logger.py:101-254 | admits, caps and delivers as specified, webhook traffic included, and returns the number of successful sends |
| `Notifier.QueueIsCapped` | notifier_and_logger.py:134-160 | as many trades as the cap allows and at most one watch, none omitted that beats one kept of its kind |
| `Notifier.QueueKeepsBest` | notifier_and_logger.py:134-160 | no alert left out beats a queued one of its kind by edge times confidence |
| `Notifier.PersistFirst` | notifier_and_logger.py:215-248 | every send and dispatch comes after the insert of that alert, and a mark after a webhook delivery of a trade with that row that returned true |
| `Notifier.MarkedMeaning` | notifier_and_logger.py:220-240 | a row is marked if and only if a delivery inserted it with execution enabled, was a trade and due, raised nothing, and ran dry or had its last POST acknowledged |
| `Notifier.MarksAreAcknowledged` | execution_webhook.py:144-170 | every mark directly follows a dispatch with an acknowledged last POST if and only if no otherwise markable delivery runs dry |
| `Notifier.MarkTakesOrder` | notifier_and_logger.py:220-240 | outside a dry run every mark belongs to a queued trade whose webhook was answered, within the limit of tries, by a 200 with the accepted flag true and an execution id |
| `Notifier.DryRunMarks` | execution_webhook.py:144-170 | a dry run marks a row with nothing sent |
| `Notifier.SentIsSuccesses` | notifier_and_logger.py:241-254 | the count returned is the number of deliveries that succeeded |
| `Notifier.AdmissionHolds` | notifier_and_logger.py:121-132 | an admitted key was free and is held for a full window; no hold shrinks; admitted keys are distinct |
| `Notifier.DeliveriesAreSpaced` | notifier_and_logger.py:80-98 | over any sequence of calls two calls that queue the same symbol, direction and timeframe are a window apart |
| `Notifier.LiveMeaning` | notifier_and_logger.py:88-95 | over any sequence of calls a key is live if and only if some call so far admitted an alert with it less than one window before |
| `Notifier.AdmissionMeaning` | notifier_and_logger.py:121-132 | a call lets a key through if and only if one of its items has it and no earlier call admitted it less than one window before |
| `Notifier.DroppedAlertBlocks` | notifier_and_logger.py:121-160 | an admitted alert that was never queued blocks its key for a full window |
| `Webhook.WebhookClient.PostWithRetries` | execution_webhook.py:185-302 | the retry loop makes the specified POSTs and pauses and writes exactly one audit row with the number of POSTs and the last status |
| `Webhook.WebhookClient.Deliver` | execution_webhook.py:130-302 | disabled, dry-run and unconfigured deliveries make no POST, the others follow the loop; success is disabled, dry-run or an acknowledged last POST |
| `Webhook.AttemptsMeaning` | execution_webhook.py:190-278 | at most the limit of POSTs, none after an acknowledgement or a permanent refusal, and none fewer without one |
| `Webhook.AckMeaning` | execution_webhook.py:82-97 | a reply is an acknowledgement if and only if it is a 200 with the accepted flag true and a non-empty execution id, and permanent if and only if it is a 4xx other than 429 |
| `Webhook.LastStatusMeaning` | execution_webhook.py:185-302 | the audited status is that of the last reply received, and none if none was |
| `Webhook.TotalBackoff` | execution_webhook.py:240-278 | n pauses add up to the base times 2^n - 1 |
| `Webhook.BackoffIsBounded` | execution_webhook.py:240-278 | a delivery waits at most the limit's total, with equality if and only if every POST before the limit was transient |
| `OutcomeTracker.ResolutionMeaning` | outcome_tracker.py:193-249 | a WIN has profit, a stop LOSS a loss, and a row its own levels leave open is closed by the tightened stop exactly when the forecast disagrees and the profit is positive and within the cushion |
| `OutcomeLaws.StepMeaning` | outcome_tracker.py:282-308 | on prices alone: an open trade becomes a WIN if and only if it reached its target, a stop LOSS if it reached its stop, EXPIRED if and only if neither and its age reached its timeframe's hours, a tightened LOSS if and only if the forecast disagrees and the profit is within the cushion, and otherwise stays |
| `OutcomeLaws.OtherRowsWait` | outcome_tracker.py:271-280 | a WATCH, a row without market price and one without positive prices are left alone |
| `OutcomeLaws.AskingMeaning` | outcome_tracker.py:193-217 | the forecast is asked about exactly the trades in profit short of their target and younger than their lifetime |
| `OutcomeLaws.CycleMeaning` | outcome_tracker.py:252-324 | one cycle judges every fetched row that can be judged at its price and on the first verdict for its symbol, and touches no other row |
| `OutcomeLaws.SweepMeaning` | outcome_queries.py:149-173 | the sweep expires a fetched row if and only if it has been open for the limit of days, and changes no other |
| `OutcomeTracker.TightenedStopClears` | outcome_tracker.py:224-240 | the tightened stop reaches the price if and only if the profit is within the cushion |
| `OutcomeTracker.ShortIsReflectedLong` | outcome_queries.py:82-130 | evaluation, tightening and profit of a SHORT are those of the LONG reflected about the entry |
| `OutcomeTracker.StepIsSound` | outcome_tracker.py:271-318 | whatever the market and forecast answer, a processed row is left alone or resolved soundly |
| `OutcomeTracker.CacheIsFirstAnswer` | outcome_tracker.py:165-190 | a symbol has a cached verdict if and only if an earlier row of it asked, and it is the answer to the first that did |
| `OutcomeTracker.OwnVerdictCounts` | outcome_tracker.py:157-190 | a row is judged by the forecast for its own symbol, direction and timeframe if and only if no earlier row of its symbol asked or the first that did got the same answer |
| `OutcomeTracker.ShortClosedOnLongVerdict` | outcome_tracker.py:193-249 | a SHORT closed on the verdict given for a LONG, which alone would stay open |
| `OutcomeTracker.LongTimeframeClosedOnShortOne` | outcome_tracker.py:157-190 | two LONGs of one symbol, the 4h one closed on the verdict given for the 15m one, which alone would stay open |
| `OutcomeTracker.Tracker.FetchOpen` | outcome_queries.py:133-135 | unresolved rows, newest first, as many as the limit allows, none newer left out |
| `OutcomeTracker.Tracker.EvaluateRow` | outcome_tracker.py:282-291 | the outcome is that of the own levels or else of the tightened stop, asking the forecast only when needed |
| `OutcomeTracker.Tracker.RunCycle` | outcome_tracker.py:252-324 | every fetched row becomes what its step says under the verdicts cached so far, no other row changes, and the count is that of new outcomes |
| `OutcomeTracker.Tracker.ExpireStale` | outcome_queries.py:149-173 | exactly the fetched open rows past the limit expire, with zero profit |
| `OutcomeTracker.Tracker.RunLoop` | outcome_tracker.py:357-371 | every iteration is one cycle and one sweep, and between any two tables of the whole history a row is resolved at most once, soundly, and never changes otherwise |
| `OutcomeTracker.NewestMeaning` | outcome_queries.py:133-135 | the newest rows up to the limit, in order, none repeated |
| `McpCircuit.CircuitBreakerRegistry.IsOpen` | resilience/circuit_breaker.py:38-41 | answers the open test on the state the reported history leads to |
| `McpCircuit.CircuitBreakerRegistry.RecordSuccess` | resilience/circuit_breaker.py:43-47 | extends the history by the success, resetting its key and no other |
| `McpCircuit.CircuitBreakerRegistry.RecordFailure` | resilience/circuit_breaker.py:49-57 | extends the history by the failure: one more for its key, a new deadline at the threshold, other keys untouched |
| `McpCircuit.OpenMeaning` | resilience/circuit_breaker.py:38-57 | a key is open if and only if the failures since its last success reached the threshold and the last is recent; below the threshold no deadline is set |
| `McpCircuit.EndpointsAreIndependent` | resilience/circuit_breaker.py:32-57 | removing all events of other keys changes nothing for a key |
| `Workflow.Runner.RunStep` | pipeline_runner.py:299-339 | one step makes the specified tries, all against the results before it, and records its value or None |
| `Workflow.Runner.RunMain` | pipeline_runner.py:285-339 | the main loop runs the steps up to the cut and reports whether one was exhausted |
| `Workflow.Runner.RunWorkflow` | pipeline_runner.py:285-365 | the run's trace and results are the main part followed, after a failure, by the handlers |
| `Workflow.RetryMeaning` | pipeline_runner.py:299-339 | between one and the limit of consecutive tries, only the last possibly successful; exhausted if and only if all allowed tries failed |
| `Workflow.MainIsOrdered` | pipeline_runner.py:286-322 | main events come in step order, tries in number order, and a try followed by another of its step failed |
| `Workflow.EveryStepIsTried` | pipeline_runner.py:286-339 | every main step before the cut contributes exactly its own tries, in place, and a handler nothing |
| `Workflow.AbortCutsAtFirstFailure` | pipeline_runner.py:286-339 | without abort every main step runs; with it the run stops right after its first exhausted step |
| `Workflow.HandlersRunOnceIffFailed` | pipeline_runner.py:341-365 | each failure handler runs exactly once if a main step was exhausted, and otherwise never |
| `Workflow.TraceShape` | pipeline_runner.py:285-365 | handlers never run inline: the main events are a prefix of the trace |
| `Workflow.FinalValue` | pipeline_runner.py:285-365 | after a run a name holds the value of the last handler of that name that ran, else of the last try of the last main step of that name, else nothing |
| `Template.SpansAreMatches` | workflow_template.py:150 | the placeholders found are in order, disjoint and inside the text, and each is a shortest match |
| `Template.SpansAreComplete` | workflow_template.py:150 | every position where the pattern matches lies in a placeholder found |
| `Template.WholeMeaning` | workflow_template.py:158-159 | the raw value is returned if and only if a placeholder opens the text and only whitespace follows it |
| `Template.PlaceholderMeaning` | workflow_template.py:150 | a placeholder is two opening braces, the evaluated text and two closing ones, and no earlier pair of closing braces ends it |
| `Template.RenderTemplate` | workflow_template.py:145-165 | no placeholder leaves the text, a whole one keeps its value's type, a failing one fails the template with the error of the last failing expression, otherwise gaps and values are concatenated from left to right |
| `Template.SpliceValues` | workflow_template.py:161-165 | the reverse in-place splice with the original offsets equals that concatenation |
| `Template.ValueInPlace` | workflow_template.py:161-165 | each value appears verbatim between a prefix and the rendering of the rest |
| `Template.SpliceLength` | workflow_template.py:161-165 | the length changes by exactly what the values add over their placeholders |
| `Template.SelfSplice` | workflow_template.py:161-165 | values that show as their own placeholders give the template back |
| `Template.InsertedTextIsInert` | workflow_template.py:161-165 | evaluators that agree on the template's own expressions render it alike, so inserted text is never evaluated |
| `SafeEval.EvalIsSettled` | workflow_template.py:62-142 | any outcome but the depth error is the same under every larger limit, and under every host that differs only in what the evaluator forbids |
| `EvalLaws.NameMeaning` | workflow_template.py:74-81 | a name is a literal, else the variable, else the function of that name, else refused |
| `EvalLaws.ChoiceMeaning` | workflow_template.py:126-129 | a conditional has the value of its body when its test is true and of its alternative when false, whatever the other branch is |
| `EvalLaws.AllMeaning` | workflow_template.py:99-102 | a conjunction is true if and only if every operand is; the first that is not decides |
| `EvalLaws.AnyMeaning` | workflow_template.py:99-102 | a disjunction is true if and only if some operand is; the first that is decides |
| `EvalLaws.RestIsIgnored` | workflow_template.py:99-102 | operands after the deciding one may be anything |
| `EvalLaws.CompareMeaning` | workflow_template.py:108-118 | a chain is true if and only if every link holds between neighbouring values; the first that fails makes it false and ends it |
| `EvalLaws.ChainIsConjunction` | workflow_template.py:108-118 | a chain equals the conjunction of its parts cut at any comparator, which both share |
| `EvalLaws.BinaryMeaning` | workflow_template.py:103-107 | the host gets both values in source order, for the six allowed operators only; a failing left side decides |
| `EvalLaws.UnaryMeaning` | workflow_template.py:94-98 | the host gets the operand's value, for the three allowed operators only |
| `EvalLaws.SubscriptMeaning` | workflow_template.py:82-83 | the index is looked up in the target |
| `EvalLaws.SliceMeaning` | workflow_template.py:84-89 | a slice takes lower bound, upper bound and step in that order, none for a missing one |
| `EvalLaws.AttributeMeaning` | workflow_template.py:90-93 | an attribute is read off its target's value, and never one that starts with two underscores |
| `EvalLaws.ListMeaning` | workflow_template.py:130-133 | a list or tuple display has its elements' values in order |
| `EvalLaws.FirstFailure` | workflow_template.py:130-133 | a display fails as its first element without a value does |
| `EvalLaws.CallMeaning` | workflow_template.py:119-125 | a call hands one of the listed functions its positional and named arguments in source order; unnamed keywords are dropped, anything else is refused |
| `EvalLaws.EarlierPartsFailFirst` | workflow_template.py:108-125 | a failing positional argument decides a call and a failing left side a comparison |
| `EvalLaws.DictMeaning` | workflow_template.py:134-139 | a dict display puts its keyed entries in from left to right |
| `EvalLaws.ValueBeforeKey` | workflow_template.py:134-139 | an entry's failing value decides even beside a failing key |
| `EvalLaws.DepthLimit` | workflow_template.py:62-71 | 39 nested brackets are evaluated and 40 refused |
| `Rsi.ComputeRsi` | scripts/mcp_servers/tradingview.py:46-70 | the loops compute the index of Wilder's averages, and nothing below one more close than the period |
| `Rsi.RsiMeaning` | scripts/mcp_servers/tradingview.py:46-70 | within 0 and 100, the gains' share of all movement unless flat, and 100 when flat |
| `Rsi.WilderIsZero` | scripts/mcp_servers/tradingview.py:58-65 | a smoothed average is zero if and only if every movement is |
| `Rsi.SmoothingWeight` | scripts/mcp_servers/tradingview.py:58-65 | period times the new average is period minus one times the old one plus the new movement, starting from the plain mean |
| `Rsi.ReflectionComplements` | scripts/mcp_servers/tradingview.py:46-70 | reflected closes give 100 minus the index if and only if the series is not flat |
| `Rsi.ScaleInvariant` | scripts/mcp_servers/tradingview.py:46-70 | multiplying all closes by a positive factor changes nothing |
| `Rsi.RisesWithLastClose` | scripts/mcp_servers/tradingview.py:46-70 | a higher last close never lowers the index |
| `Interpolation.InterpolationMeaning` | normalizers/__init__.py:22-61 | no value below the lowest threshold, otherwise that of the one segment around the input; the scan's fallback is never reached in between |
| `Interpolation.OutputIsLinear` | normalizers/__init__.py:42-58 | the output is collinear with the two breakpoints around the input, and the last breakpoint's from there on |
| `Interpolation.OutputRises` | normalizers/__init__.py:49-58 | with breakpoints rising in the score or the confidence, a stronger input never lowers it, across segments as within one |
| `Interpolation.OutputIsBounded` | normalizers/__init__.py:42-61 | a rising score or confidence lies between its values at the lowest and highest breakpoint |

## Left out

- Floating-point rounding, the RSI's final rounding to two digits, and NaN where the code does not branch on it: arithmetic is over reals.
- The square root in the merger's diversity factor is a function parameter, and the text of the stale-forecast reason is shortened; non-numeric raw payload prices are treated as absent.
- LLM output repair and parsing, field coercion and Unicode whitespace: a run starts from raw items or from nothing, and the whitespace test of `strip` is a parameter.
- Reference prices (`_get_reference_prices`) are an input of the run.
- Candidate objects shared by several Python lists: an alert is a value with its position as identity, so aliasing between lists is not captured; the context and the reason tracker do mutate their fields in place.
- Redis keys are data, not strings (the session field names excepted); the expiry of the session hash and a Redis that fails in the middle of a run are not modelled.
- Failing audit writes, charts, threads, embeds, telemetry, metrics, logging, HMAC signatures and HTTP itself: effects are parameters or trace events.
- Steps and sub-workflows are opaque tries that see the results recorded so far; parallel steps, timings and the dispatch by step type are not modelled.
- `render_params`, token-budget trimming, thesis heuristics, prompt text, collectors, dashboards and the other threshold tables would add only easy members.
- Webhook.BackoffIsBounded: stated for at least one retry and a positive base, the only settings with a pause to bound.
- Rsi.ComputeRsi: requires a period of at least one, because the mean of an empty slice raises.
- WatchHistory.CycleCountIsStreak: assumes Redis up, dedup enabled and non-decreasing clocks, as the in-run uniqueness it rests on does.
- WatchHistory.TradeSuppression: assumes Redis up for the whole history and dedup enabled with positive windows; a Redis that fails between the claim and the end of a run would leave the key behind.
- GateTheorems.RegimeMonotonicity: assumes the overlay signs the settings are designed for (`Tightening`), which every default satisfies.
- RunTheorems.EmittedAlertsReparse: assumes penalties that lower confidence, ceilings in [0, 1] and a confidence gate of at least 0.15, as with the default settings in every regime (`RunTheorems.DefaultsKeepAlertsValid`).
- MergeLaws.FresherGroupRanksNoLower: takes the square root as given on [0, 1] and assumes a diversity weight in [0, 1].
- DedupHistory.SuppressionMeaning: assumes Redis up for the whole history and dedup enabled with positive windows.
- WatchHistory.EmittedWatchMeaning: assumes Redis up, dedup enabled and non-decreasing clocks, as the counts it rests on do.
- Workflow.FinalValue: assumes at least one try per step; without any a step runs nothing and keeps no result (`Workflow.NoTries`).
- Merger.StrengthIsDiscounted: takes the square root as given at the one argument it is used on.
- GateTheorems.StressedRegimeComparison: assumes non-negative stressed bumps and a choppy volume penalty at least the plain one, which every default satisfies.
- OutcomeLaws.StepMeaning: assumes a tightening ratio in [0, 1) and a non-negative cushion, the ranges the settings are meant for; so does `OutcomeLaws.CycleMeaning`.
- OutcomeTracker.ResolutionMeaning: assumes ordered levels, a tightening ratio in [0, 1) and a non-negative cushion, the ranges the settings are meant for.
