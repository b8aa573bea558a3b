/** The entry point of a decision run: environment, gates, WATCH policy and session metrics
    (validate_and_filter.py). */
module DecisionEngine {
  import opened Prelude
  import opened GateTypes
  import opened CandidatePipeline
  import opened RedisStore
  import opened SessionStats
  import opened SessionRuns
  import opened Decision = ValidateAndFilter

  /** The run as the session sees it. */
  function RunOf(env: GateEnv, items: seq<RawItem>, db: Keyspace, now: real, on: bool, open: bool): SessionRun {
    SessionRun(env, items, db, now, on, EffectiveCap(env.settings, env.regime, open))
  }

  /** If the hash was an account of the past runs, it is now one of them and this one. */
  ghost predicate AccountsForOneMore(before: Hash, after: Hash, past: seq<SessionRun>, d: SessionRun) {
    Accounts(before, past) ==> Accounts(after, past + [d])
  }

  lemma RecordedAccounts(n: Fields, before: Hash, past: seq<SessionRun>, d: SessionRun)
    requires n == FieldNames()
    ensures AccountsForOneMore(before, Recorded(n, before, Summary(d.items, ResultOf(d))), past, d)
  {
    if Accounts(before, past) { RecordKeepsAccounts(before, past, d); }
  }

  /** The run, and its record in the session. */
  method RunAndRecord(env: GateEnv, items: seq<RawItem>, pipeline: CandidateGatePipeline, client: RedisClient,
                      stats: SessionStatsStore, statsKey: string, ghost past: seq<SessionRun>)
    returns (r: RunResult, open: bool)
    requires pipeline.stages == DEFAULT_STAGES
    modifies client`db, client.breaker, stats`hashes
    ensures r == ResultOf(RunOf(env, items, old(client.db), client.now, old(client.On()), open)) && client.db == r.db
    ensures stats.hashes == if stats.up
              then old(stats.hashes)[statsKey := Recorded(stats.fields, old(stats.HashAt(statsKey)), Summary(items, r))]
              else old(stats.hashes)
    ensures stats.up && stats.fields == FieldNames() ==>
      AccountsForOneMore(old(stats.HashAt(statsKey)), stats.HashAt(statsKey), past,
                         RunOf(env, items, old(client.db), client.now, old(client.On()), open))
    ensures old(client.On()) ==> !open
    ensures client.On() == old(client.On())
  {
    r, open := RunDecision(env, items, pipeline, client);
    ghost var run := RunOf(env, items, old(client.db), client.now, old(client.On()), open);
    if stats.fields == FieldNames() { RecordedAccounts(stats.fields, stats.HashAt(statsKey), past, run); }
    stats.Record(statsKey, Summary(items, r));
  }

  /** The whole entry point. An unreadable answer (None) stops the run before it touches anything
      but the circuit; otherwise the run's result is `Run` in the environment its inputs determine,
      and its summary is recorded for the session, whose hash stays an account of the runs recorded so
      far (`past`) if it was one. */
  method ValidateAndFilter(raw: Option<seq<RawItem>>, s: Settings, snaps: seq<Snapshot>, refPrices: map<string, real>,
                           riskOff: bool, vix: Num, timeframe: string, session: Session,
                           pipeline: CandidateGatePipeline, client: RedisClient,
                           stats: SessionStatsStore, statsKey: string, ghost past: seq<SessionRun>)
    returns (alerts: seq<Alert>, ghost env: GateEnv, ghost r: RunResult, open: bool)
    requires pipeline.stages == DEFAULT_STAGES
    modifies client`db, client.breaker, stats`hashes
    ensures raw.None? ==> alerts == [] && client.db == old(client.db) && stats.hashes == old(stats.hashes)
    ensures raw.Some? ==>
      && IsEnvironment(env, s, snaps, refPrices, riskOff, vix, timeframe, session)
      && r == ResultOf(RunOf(env, raw.value, old(client.db), client.now, old(client.On()), open))
      && client.db == r.db
      && alerts == AlertsOf(r.alerts)
      && stats.hashes == (if stats.up
           then old(stats.hashes)[statsKey := Recorded(stats.fields, old(stats.HashAt(statsKey)),
                                                       Summary(raw.value, r))]
           else old(stats.hashes))
    ensures raw.Some? && stats.up && stats.fields == FieldNames() ==>
      AccountsForOneMore(old(stats.HashAt(statsKey)), stats.HashAt(statsKey), past,
                         RunOf(env, raw.value, old(client.db), client.now, old(client.On()), open))
    ensures old(client.On()) ==> !open
    ensures client.On() == old(client.On())
  {
    open := client.breaker.CheckNow(client.now);
    if raw.None? {
      return [], GateEnv(s, timeframe, Neutral, 0.0, riskOff, 0.0, 0, 0.0, session, map[], map[], map[], map[], map[]),
             RunResult(client.db, Scan(client.db, [], [], [], [], [], 0), [], [], [], 0, 0), open;
    }
    var environment := BuildEnvironment(s, snaps, refPrices, riskOff, vix, timeframe, session);
    var result, circuitOpen := RunAndRecord(environment, raw.value, pipeline, client, stats, statsKey, past);
    return AlertsOf(result.alerts), environment, result, circuitOpen;
  }
}
