/** What the session hash says about the runs that were recorded in it: every total and every per-gate
    counter is a number of items, emitted alerts or rejection rows of those runs
    (validate_and_filter.py, gates/session.py). */
module SessionRuns {
  import opened Prelude
  import opened GateTypes
  import opened CandidatePipeline
  import opened GateTheorems
  import opened RedisStore
  import opened SessionStats
  import opened ValidateAndFilter
  import opened RunTheorems

  // ---------------------------------------------------------------- whose row is whose

  /** The row is about a candidate of one of these directions. */
  predicate IsAbout(cs: seq<Candidate>, row: Row, dirs: set<Direction>) {
    row.about.Some? && row.about.value < |cs| && cs[row.about.value].alert.direction in dirs
  }

  const TRADES: set<Direction> := {LONG, SHORT}

  const WATCHES: set<Direction> := {WATCH}

  function AboutDirs(cs: seq<Candidate>, dirs: set<Direction>): Row -> bool { (row: Row) => IsAbout(cs, row, dirs) }

  function AboutDirsAt(cs: seq<Candidate>, dirs: set<Direction>, g: GateRejection): Row -> bool {
    (row: Row) => IsAbout(cs, row, dirs) && row.gate == g
  }

  function AtGate(g: GateRejection): Row -> bool { (row: Row) => row.gate == g }

  function InDirs(dirs: set<Direction>): Candidate -> bool { (c: Candidate) => c.alert.direction in dirs }

  ghost predicate AllAbout(cs: seq<Candidate>, rows: seq<Row>, dirs: set<Direction>) {
    forall row :: row in rows ==> IsAbout(cs, row, dirs)
  }

  function Suppressions(rows: seq<Row>): nat { |Keep(rows, AtGate(DEDUP_SUPPRESSED))| }

  ghost predicate InPlace(cs: seq<Candidate>, alerts: seq<Candidate>) {
    forall c :: c in alerts ==> c.id < |cs| && cs[c.id] == c
  }

  /** The rows filed under trades are about trades, those filed under watches about watches; accepted
      alerts are the candidates they claim to be; and the suppressions are counted. */
  ghost predicate Filed(st: Scan) {
    && InPlace(st.candidates, st.alerts)
    && AllAbout(st.candidates, st.directionalRejections, TRADES)
    && AllAbout(st.candidates, st.watchRejections, WATCHES)
    && Suppressions(st.directionalRejections) + Suppressions(st.watchRejections) == st.dedupSuppressed
  }

  lemma MoreAbout(cs: seq<Candidate>, c: Candidate, rows: seq<Row>, more: seq<Row>, dirs: set<Direction>)
    requires AllAbout(cs, rows, dirs)
    requires forall row :: row in more ==> row.about == Some(|cs|) && c.alert.direction in dirs
    ensures AllAbout(cs + [c], rows + more, dirs)
  {
    var cs' := cs + [c];
    forall row | row in rows + more ensures IsAbout(cs', row, dirs) {
      if row in rows { assert IsAbout(cs, row, dirs); } else { assert row in more && cs'[|cs|] == c; }
    }
  }

  lemma MoreSuppressions(rows: seq<Row>, more: seq<Row>)
    ensures Suppressions(rows + more) == Suppressions(rows) + Suppressions(more)
    ensures Suppressions([]) == 0
  {
    KeepConcat(rows, more, AtGate(DEDUP_SUPPRESSED));
  }

  lemma RowsFiled(st: Scan, c: Candidate, rows: seq<Row>)
    requires Filed(st) && c.id == |st.candidates|
    requires forall row :: row in rows ==> row.about == Some(c.id)
    ensures Filed(AddRows(st, c, rows).(dedupSuppressed := st.dedupSuppressed + Suppressions(rows)))
  {
    var dir, watch := st.directionalRejections, st.watchRejections;
    if Directional(c.alert) {
      MoreAbout(st.candidates, c, dir, rows, TRADES);
      MoreAbout(st.candidates, c, watch, [], WATCHES);
      MoreSuppressions(dir, rows);
      assert watch + [] == watch;
    } else {
      MoreAbout(st.candidates, c, dir, [], TRADES);
      MoreAbout(st.candidates, c, watch, rows, WATCHES);
      MoreSuppressions(watch, rows);
      assert dir + [] == dir;
    }
  }

  lemma AlertFiled(st: Scan, c: Candidate)
    requires Filed(st) && c.id == |st.candidates|
    ensures Filed(st.(candidates := st.candidates + [c], alerts := st.alerts + [c]))
  {
    MoreAbout(st.candidates, c, st.directionalRejections, [], TRADES);
    MoreAbout(st.candidates, c, st.watchRejections, [], WATCHES);
    assert st.directionalRejections + [] == st.directionalRejections;
    assert st.watchRejections + [] == st.watchRejections;
  }

  lemma OutcomeFiled(st: Scan, db: Keyspace, o: Outcome)
    requires Filed(st) && (o.Rejected? ==> DEDUP_SUPPRESSED !in o.reasons)
    ensures Filed(Absorb(st, db, o))
  {
    var id, st' := |st.candidates|, st.(db := db);
    match o
    case Rejected(a, reasons) =>
      var rows := Rows(Candidate(id, a), reasons);
      KeepNone(rows, AtGate(DEDUP_SUPPRESSED));
      RowsFiled(st', Candidate(id, a), rows);
    case DedupSuppressed(a) =>
      var rows := [Row(a.symbol, DEDUP_SUPPRESSED, Some(id))];
      KeepAll(rows, AtGate(DEDUP_SUPPRESSED));
      RowsFiled(st', Candidate(id, a), rows);
    case Accepted(a) =>
      AlertFiled(st', Candidate(id, a));
    case _ =>
  }

  lemma NeverDedupReason(env: GateEnv, item: RawItem, db: Keyspace, now: real, on: bool)
    ensures var o := Evaluate(env, item, db, now, on); o.Rejected? ==> DEDUP_SUPPRESSED !in o.reasons
  {
    match ParseAlert(item)
    case None =>
    case Some(a) => PipelineRefinesGates(env, a);
  }

  lemma {:induction false} ScanIsFiled(env: GateEnv, items: seq<RawItem>, db: Keyspace, now: real, on: bool)
    ensures Filed(ScanAll(env, items, db, now, on))
  {
    if items != [] {
      var last := items[|items| - 1];
      var st := ScanAll(env, items[..|items| - 1], db, now, on);
      ScanIsFiled(env, items[..|items| - 1], db, now, on);
      NeverDedupReason(env, last, st.db, now, on);
      OutcomeFiled(st, DbAfter(env, last, st.db, now, on), Evaluate(env, last, st.db, now, on));
    }
  }

  // ---------------------------------------------------------------- the rows of a whole run

  lemma RowsForAbout(cs: seq<Candidate>, all: seq<Candidate>, gate: GateRejection)
    requires forall c :: c in cs ==> c.id < |all| && all[c.id] == c && c.alert.direction == WATCH
    requires gate != DEDUP_SUPPRESSED
    ensures forall row :: row in RowsFor(cs, gate) ==> IsAbout(all, row, WATCHES) && row.gate != DEDUP_SUPPRESSED
  {
    forall row | row in RowsFor(cs, gate) ensures IsAbout(all, row, WATCHES) && row.gate != DEDUP_SUPPRESSED {
      var i :| 0 <= i < |cs| && RowsFor(cs, gate)[i] == row;
      assert cs[i] in cs;
    }
  }

  /** The rows the WATCH policy adds are about watches, and none of them is a suppression. */
  lemma DroppedAbout(s: Settings, db: Keyspace, watches: seq<Candidate>, any: bool, prev: PrevStates, tf: string,
                     cap: nat, now: real, on: bool, all: seq<Candidate>)
    requires forall c :: c in watches ==> c.id < |all| && all[c.id] == c && c.alert.direction == WATCH
    ensures forall row :: row in SelectWatches(s, db, watches, any, prev, tf, cap, now, on).dropped ==>
      IsAbout(all, row, WATCHES) && row.gate != DEDUP_SUPPRESSED
  {
    if any {
      RowsForAbout(watches, all, WATCH_DROPPED_DIRECTIONAL_PRESENT);
    } else {
      var ranked := RankedWatches(s, watches, prev);
      SameElements(ranked, watches);
      var current := Keep(ranked, StillFresh(s, db, tf, now, on));
      RowsForAbout(Keep(ranked, Decayed(s, db, tf, now, on)), all, WATCH_DECAY);
      RowsForAbout(Overflow(current, cap), all, WATCH_CAP);
    }
  }

  /** The rows of one run: those of the items whose timeframe was refused, those about trades and those
      about watches. */
  ghost predicate Sorted(r: RunResult, tf: seq<Row>) {
    && multiset(r.rejections) == multiset(tf + r.scan.directionalRejections + r.watchRejections)
    && (forall row :: row in tf ==> row.about.None? && row.gate == TIMEFRAME_INVALID)
    && AllAbout(r.scan.candidates, r.scan.directionalRejections, TRADES)
    && AllAbout(r.scan.candidates, r.watchRejections, WATCHES)
    && r.scan.dedupSuppressed == Suppressions(r.scan.directionalRejections) + Suppressions(r.watchRejections)
  }

  lemma {:induction false} TimeframeRowsShape(items: seq<RawItem>)
    ensures forall row :: row in TimeframeRows(items) ==> row.about.None? && row.gate == TIMEFRAME_INVALID
  {
    if items != [] { TimeframeRowsShape(items[..|items| - 1]); }
  }

  lemma RunIsSorted(env: GateEnv, items: seq<RawItem>, db: Keyspace, now: real, on: bool, cap: nat)
    ensures Sorted(Run(env, items, db, now, on, cap), TimeframeRows(items))
  {
    var st := ScanAll(env, items, db, now, on);
    var directional, watches := Keep(st.alerts, IsDirectional()), Keep(st.alerts, IsWatch());
    var prev := PrevStatesOf(st.db, watches, env.timeframe, now, on);
    var dropped := SelectWatches(env.settings, st.db, watches, directional != [], prev, env.timeframe, cap, now,
                                 on).dropped;
    ScanIsFiled(env, items, db, now, on);
    RunIsAccounted(env, items, db, now, on, cap);
    TimeframeRowsShape(items);
    DroppedAbout(env.settings, st.db, watches, directional != [], prev, env.timeframe, cap, now, on, st.candidates);
    MoreSuppressions(st.watchRejections, dropped);
    KeepNone(dropped, AtGate(DEDUP_SUPPRESSED));
  }

  // ---------------------------------------------------------------- counting rows

  /** How many of the rows of a run have a property, group by group. */
  lemma CountByGroup(r: RunResult, tf: seq<Row>, p: Row -> bool)
    requires Sorted(r, tf)
    ensures |Keep(r.rejections, p)|
         == |Keep(tf, p)| + |Keep(r.scan.directionalRejections, p)| + |Keep(r.watchRejections, p)|
  {
    var dir, watch := r.scan.directionalRejections, r.watchRejections;
    KeepPermutes(r.rejections, tf + dir + watch, p);
    KeepConcat(tf + dir, watch, p);
    KeepConcat(tf, dir, p);
  }

  lemma {:induction false} SameKept(rows: seq<Row>, p: Row -> bool, q: Row -> bool)
    requires forall row :: row in rows ==> (p(row) <==> q(row))
    ensures Keep(rows, p) == Keep(rows, q)
  {
    if rows != [] { SameKept(rows[1..], p, q); }
  }

  lemma {:induction false} GateCount(rows: seq<Row>, g: GateRejection)
    ensures Count(GatesOf(rows), g) == |Keep(rows, AtGate(g))|
  {
    if rows != [] {
      GateCount(rows[1..], g);
      assert GatesOf(rows) == [rows[0].gate] + GatesOf(rows[1..]);
    }
  }

  /** Rows about one kind of candidate are all of that kind's, and none of another's. */
  lemma AboutOneKind(cs: seq<Candidate>, rows: seq<Row>, dirs: set<Direction>, other: set<Direction>, g: GateRejection)
    requires AllAbout(cs, rows, dirs) && dirs !! other
    ensures Keep(rows, AboutDirs(cs, dirs)) == rows && Keep(rows, AboutDirs(cs, other)) == []
    ensures Keep(rows, AboutDirsAt(cs, dirs, g)) == Keep(rows, AtGate(g)) && Keep(rows, AboutDirsAt(cs, other, g)) == []
  {
    forall row | row in rows
      ensures IsAbout(cs, row, dirs) && !IsAbout(cs, row, other)
    {}
    KeepAll(rows, AboutDirs(cs, dirs));
    KeepNone(rows, AboutDirs(cs, other));
    SameKept(rows, AboutDirsAt(cs, dirs, g), AtGate(g));
    KeepNone(rows, AboutDirsAt(cs, other, g));
  }

  lemma AboutNobody(cs: seq<Candidate>, rows: seq<Row>, dirs: set<Direction>, g: GateRejection)
    requires forall row :: row in rows ==> row.about.None?
    ensures Keep(rows, AboutDirs(cs, dirs)) == [] && Keep(rows, AboutDirsAt(cs, dirs, g)) == []
  {
    KeepNone(rows, AboutDirs(cs, dirs));
    KeepNone(rows, AboutDirsAt(cs, dirs, g));
  }

  lemma RowsAboutTrades(r: RunResult, tf: seq<Row>, g: GateRejection)
    requires Sorted(r, tf)
    ensures |Keep(r.rejections, AboutDirs(r.scan.candidates, TRADES))| == |r.scan.directionalRejections|
    ensures |Keep(r.rejections, AboutDirsAt(r.scan.candidates, TRADES, g))|
         == Count(GatesOf(r.scan.directionalRejections), g)
  {
    var cs := r.scan.candidates;
    CountByGroup(r, tf, AboutDirs(cs, TRADES));
    CountByGroup(r, tf, AboutDirsAt(cs, TRADES, g));
    AboutNobody(cs, tf, TRADES, g);
    AboutOneKind(cs, r.scan.directionalRejections, TRADES, WATCHES, g);
    AboutOneKind(cs, r.watchRejections, WATCHES, TRADES, g);
    GateCount(r.scan.directionalRejections, g);
  }

  lemma RowsAboutWatches(r: RunResult, tf: seq<Row>, g: GateRejection)
    requires Sorted(r, tf)
    ensures |Keep(r.rejections, AboutDirs(r.scan.candidates, WATCHES))| == |r.watchRejections|
    ensures |Keep(r.rejections, AboutDirsAt(r.scan.candidates, WATCHES, g))| == Count(GatesOf(r.watchRejections), g)
  {
    var cs := r.scan.candidates;
    CountByGroup(r, tf, AboutDirs(cs, WATCHES));
    CountByGroup(r, tf, AboutDirsAt(cs, WATCHES, g));
    AboutNobody(cs, tf, WATCHES, g);
    AboutOneKind(cs, r.scan.directionalRejections, TRADES, WATCHES, g);
    AboutOneKind(cs, r.watchRejections, WATCHES, TRADES, g);
    GateCount(r.watchRejections, g);
  }

  lemma SuppressionRows(r: RunResult, tf: seq<Row>)
    requires Sorted(r, tf)
    ensures |Keep(r.rejections, AtGate(DEDUP_SUPPRESSED))| == r.scan.dedupSuppressed
  {
    CountByGroup(r, tf, AtGate(DEDUP_SUPPRESSED));
    KeepNone(tf, AtGate(DEDUP_SUPPRESSED));
  }

  // ---------------------------------------------------------------- counting alerts

  lemma OneDirection(cs: seq<Candidate>, dirs: set<Direction>, other: set<Direction>)
    requires dirs !! other && forall c :: c in cs ==> c.alert.direction in dirs
    ensures Keep(cs, InDirs(dirs)) == cs && Keep(cs, InDirs(other)) == []
  {
    KeepAll(cs, InDirs(dirs));
    KeepNone(cs, InDirs(other));
  }

  lemma SplitByDirection(trades: seq<Candidate>, watches: seq<Candidate>)
    requires forall c :: c in trades ==> Directional(c.alert)
    requires forall c :: c in watches ==> !Directional(c.alert)
    ensures |Keep(trades + watches, InDirs(TRADES))| == |trades|
    ensures |Keep(trades + watches, InDirs(WATCHES))| == |watches|
  {
    KeepConcat(trades, watches, InDirs(TRADES));
    KeepConcat(trades, watches, InDirs(WATCHES));
    forall c | c in trades ensures c.alert.direction in TRADES {}
    OneDirection(trades, TRADES, WATCHES);
    OneDirection(watches, WATCHES, TRADES);
  }

  lemma EmittedAreWatches(s: Settings, db: Keyspace, watches: seq<Candidate>, any: bool, prev: PrevStates, tf: string,
                          cap: nat, now: real, on: bool)
    requires forall c :: c in watches ==> !Directional(c.alert)
    ensures var kept := SelectWatches(s, db, watches, any, prev, tf, cap, now, on).kept;
      forall c :: c in CommitWatches(s, db, kept, prev, tf, now, on).emitted ==> !Directional(c.alert)
  {
    var kept := SelectWatches(s, db, watches, any, prev, tf, cap, now, on).kept;
    CommitKeepsIds(s, db, kept, prev, tf, now, on);
    if !any { KeptWatches(s, db, watches, prev, tf, cap, now, on); }
    SameDirections(CommitWatches(s, db, kept, prev, tf, now, on).emitted, kept);
  }

  /** The trades of a run come first and are counted, and so are the watches that follow. */
  lemma EmittedCounts(env: GateEnv, st: Scan, now: real, on: bool, cap: nat)
    ensures var r := Finish(env, st, now, on, cap);
      && |Keep(r.alerts, InDirs(TRADES))| == r.directionalPassed
      && |Keep(r.alerts, InDirs(WATCHES))| == r.watchKept
  {
    var s := env.settings;
    var directional, watches := Keep(st.alerts, IsDirectional()), Keep(st.alerts, IsWatch());
    var prev := PrevStatesOf(st.db, watches, env.timeframe, now, on);
    var sel := SelectWatches(s, st.db, watches, directional != [], prev, env.timeframe, cap, now, on);
    var done := CommitWatches(s, st.db, sel.kept, prev, env.timeframe, now, on).emitted;
    EmittedAreWatches(s, st.db, watches, directional != [], prev, env.timeframe, cap, now, on);
    SplitByDirection(directional, done);
  }

  // ---------------------------------------------------------------- over any number of runs

  /** One recorded run: everything it was given. */
  datatype SessionRun = SessionRun(env: GateEnv, items: seq<RawItem>, db: Keyspace, now: real, on: bool, cap: nat)

  function ResultOf(d: SessionRun): RunResult { Run(d.env, d.items, d.db, d.now, d.on, d.cap) }

  function SumOver(ds: seq<SessionRun>, f: SessionRun -> int): int {
    if ds == [] then 0 else SumOver(ds[..|ds| - 1], f) + f(ds[|ds| - 1])
  }

  lemma SumSnoc(ds: seq<SessionRun>, d: SessionRun, f: SessionRun -> int)
    ensures SumOver(ds + [d], f) == SumOver(ds, f) + f(d)
  {
    assert (ds + [d])[..|ds|] == ds;
  }

  /** What a run is asked, emits and refuses, as numbers. */
  function Proposed(): SessionRun -> int { (d: SessionRun) => |d.items| }

  function Emitted(dirs: set<Direction>): SessionRun -> int {
    (d: SessionRun) => |Keep(ResultOf(d).alerts, InDirs(dirs))|
  }

  function Refused(dirs: set<Direction>): SessionRun -> int {
    (d: SessionRun) => |Keep(ResultOf(d).rejections, AboutDirs(ResultOf(d).scan.candidates, dirs))|
  }

  function RefusedAt(dirs: set<Direction>, g: GateRejection): SessionRun -> int {
    (d: SessionRun) => |Keep(ResultOf(d).rejections, AboutDirsAt(ResultOf(d).scan.candidates, dirs, g))|
  }

  function SuppressedIn(): SessionRun -> int {
    (d: SessionRun) => |Keep(ResultOf(d).rejections, AtGate(DEDUP_SUPPRESSED))|
  }

  /** The rows about watches at an optional gate. */
  function WatchesAt(ds: seq<SessionRun>, g: Option<GateRejection>): int {
    if g.Some? then SumOver(ds, RefusedAt(WATCHES, g.value)) else 0
  }

  function TradesAt(ds: seq<SessionRun>, g: Option<GateRejection>): int {
    if g.Some? then SumOver(ds, RefusedAt(TRADES, g.value)) else 0
  }

  /** The totals of a hash as numbers of runs, items, emitted alerts and rejection rows. */
  ghost predicate TotalsAre(h: Hash, runs: int, items: int, trades: int, watches: int, refusedTrades: int,
                            refusedWatches: int, suppressed: int)
  {
    && Get(h, "decision_runs") == runs
    && Get(h, "llm_candidates") == items
    && Get(h, "alerts_passed") == Get(h, "alerts_passed_directional") == trades
    && Get(h, "watch_kept") == watches
    && Get(h, "alerts_passed_total") == trades + watches
    && Get(h, "alerts_rejected") == refusedTrades + refusedWatches
    && Get(h, "alerts_rejected_directional") == refusedTrades
    && Get(h, "alerts_rejected_watch") == refusedWatches
    && Get(h, "alerts_dedup_suppressed") == suppressed
  }

  ghost predicate TotalsCount(h: Hash, ds: seq<SessionRun>) {
    TotalsAre(h, |ds|, SumOver(ds, Proposed()), SumOver(ds, Emitted(TRADES)), SumOver(ds, Emitted(WATCHES)),
              SumOver(ds, Refused(TRADES)), SumOver(ds, Refused(WATCHES)), SumOver(ds, SuppressedIn()))
  }

  /** The fields of one gate: its rows about trades; its rows about watches, and the rows whose plain
      field has the same name; its rows of both kinds, and the watch rows filed under its name. */
  ghost predicate GateCounts(n: Fields, h: Hash, ds: seq<SessionRun>, g: GateRejection) {
    && Get(h, n.dir(g)) == SumOver(ds, RefusedAt(TRADES, g))
    && Get(h, n.watch(g)) == SumOver(ds, RefusedAt(WATCHES, g)) + TradesAt(ds, Shadower(g)) + WatchesAt(ds, Shadower(g))
    && Get(h, n.any(g)) == SumOver(ds, RefusedAt(TRADES, g)) + SumOver(ds, RefusedAt(WATCHES, g))
                           + WatchesAt(ds, Shadowed(g))
  }

  ghost predicate Accounts(h: Hash, ds: seq<SessionRun>) {
    TotalsCount(h, ds) && forall g :: GateCounts(FieldNames(), h, ds, g)
  }

  /** What a run reports is what it did. */
  lemma SummaryIsTrue(d: SessionRun)
    ensures var r, s := ResultOf(d), Summary(d.items, ResultOf(d));
      && s.llmCandidates == Proposed()(d)
      && s.directionalPassed == Emitted(TRADES)(d) && s.watchKept == Emitted(WATCHES)(d)
      && |s.directional| == Refused(TRADES)(d) && |s.watch| == Refused(WATCHES)(d)
      && s.dedupSuppressed == SuppressedIn()(d)
  {
    var tf := TimeframeRows(d.items);
    RunIsSorted(d.env, d.items, d.db, d.now, d.on, d.cap);
    EmittedCounts(d.env, ScanAll(d.env, d.items, d.db, d.now, d.on), d.now, d.on, d.cap);
    RowsAboutTrades(ResultOf(d), tf, DEDUP_SUPPRESSED);
    RowsAboutWatches(ResultOf(d), tf, DEDUP_SUPPRESSED);
    SuppressionRows(ResultOf(d), tf);
  }

  lemma SummaryGates(d: SessionRun, g: GateRejection)
    ensures var s := Summary(d.items, ResultOf(d));
      Count(s.directional, g) == RefusedAt(TRADES, g)(d) && Count(s.watch, g) == RefusedAt(WATCHES, g)(d)
  {
    RunIsSorted(d.env, d.items, d.db, d.now, d.on, d.cap);
    RowsAboutTrades(ResultOf(d), TimeframeRows(d.items), g);
    RowsAboutWatches(ResultOf(d), TimeframeRows(d.items), g);
  }

  /** The totals that one summary adds. */
  ghost predicate Adds(h: Hash, h': Hash, s: RunSummary) {
    && Get(h', "decision_runs") == Get(h, "decision_runs") + 1
    && Get(h', "llm_candidates") == Get(h, "llm_candidates") + s.llmCandidates
    && Get(h', "alerts_passed") == Get(h, "alerts_passed") + s.directionalPassed
    && Get(h', "alerts_passed_directional") == Get(h, "alerts_passed_directional") + s.directionalPassed
    && Get(h', "watch_kept") == Get(h, "watch_kept") + s.watchKept
    && Get(h', "alerts_passed_total") == Get(h, "alerts_passed_total") + s.directionalPassed + s.watchKept
    && Get(h', "alerts_rejected") == Get(h, "alerts_rejected") + |s.directional| + |s.watch|
    && Get(h', "alerts_rejected_directional") == Get(h, "alerts_rejected_directional") + |s.directional|
    && Get(h', "alerts_rejected_watch") == Get(h, "alerts_rejected_watch") + |s.watch|
    && Get(h', "alerts_dedup_suppressed") == Get(h, "alerts_dedup_suppressed") + s.dedupSuppressed
  }

  lemma RecordAdds(n: Fields, h: Hash, s: RunSummary)
    requires Separate(n)
    ensures Adds(h, Recorded(n, h, s), s)
  {
    PassedTotals(h, s);
    RejectedTotals(h, s);
    SameTotals(Totals(h, s), Recorded(n, h, s), h, s) by {
      forall f | TotalField(f) ensures Get(Recorded(n, h, s), f) == Get(Totals(h, s), f) { RunTotal(n, h, s, f); }
    }
  }

  lemma SameTotals(h1: Hash, h2: Hash, h: Hash, s: RunSummary)
    requires Adds(h, h1, s) && forall f :: TotalField(f) ==> Get(h2, f) == Get(h1, f)
    ensures Adds(h, h2, s)
  {}

  /** The totals over one more run, whatever is being totalled. */
  lemma TotalsGrow(h: Hash, h': Hash, s: RunSummary, ds: seq<SessionRun>, d: SessionRun, items: SessionRun -> int,
                   trades: SessionRun -> int, watches: SessionRun -> int, refusedTrades: SessionRun -> int,
                   refusedWatches: SessionRun -> int, suppressed: SessionRun -> int)
    requires Adds(h, h', s)
    requires TotalsAre(h, |ds|, SumOver(ds, items), SumOver(ds, trades), SumOver(ds, watches),
                       SumOver(ds, refusedTrades), SumOver(ds, refusedWatches), SumOver(ds, suppressed))
    requires s.llmCandidates == items(d) && s.directionalPassed == trades(d) && s.watchKept == watches(d)
    requires |s.directional| == refusedTrades(d) && |s.watch| == refusedWatches(d)
    requires s.dedupSuppressed == suppressed(d)
    ensures TotalsAre(h', |ds + [d]|, SumOver(ds + [d], items), SumOver(ds + [d], trades), SumOver(ds + [d], watches),
                      SumOver(ds + [d], refusedTrades), SumOver(ds + [d], refusedWatches),
                      SumOver(ds + [d], suppressed))
  {
    SumSnoc(ds, d, items);
    SumSnoc(ds, d, trades);
    SumSnoc(ds, d, watches);
    SumSnoc(ds, d, refusedTrades);
    SumSnoc(ds, d, refusedWatches);
    SumSnoc(ds, d, suppressed);
  }

  lemma TotalsNext(h: Hash, h': Hash, s: RunSummary, ds: seq<SessionRun>, d: SessionRun)
    requires TotalsCount(h, ds) && Adds(h, h', s) && s == Summary(d.items, ResultOf(d))
    ensures TotalsCount(h', ds + [d])
  {
    SummaryIsTrue(d);
    TotalsGrow(h, h', s, ds, d, Proposed(), Emitted(TRADES), Emitted(WATCHES), Refused(TRADES), Refused(WATCHES),
               SuppressedIn());
  }

  lemma CountsSnoc(s: RunSummary, ds: seq<SessionRun>, d: SessionRun, g: Option<GateRejection>)
    requires s == Summary(d.items, ResultOf(d))
    ensures
      && TradesAt(ds + [d], g) == TradesAt(ds, g) + CountSome(s.directional, g)
      && WatchesAt(ds + [d], g) == WatchesAt(ds, g) + CountSome(s.watch, g)
  {
    if g.Some? {
      SummaryGates(d, g.value);
      SumSnoc(ds, d, RefusedAt(TRADES, g.value));
      SumSnoc(ds, d, RefusedAt(WATCHES, g.value));
    }
  }

  /** What one summary adds to the fields of one gate. */
  ghost predicate AddsAt(n: Fields, h: Hash, h': Hash, s: RunSummary, g: GateRejection) {
    && Get(h', n.dir(g)) == Get(h, n.dir(g)) + Count(s.directional, g)
    && Get(h', n.watch(g)) == Get(h, n.watch(g)) + Count(s.watch, g) + CountSome(s.directional, Shadower(g))
                              + CountSome(s.watch, Shadower(g))
    && Get(h', n.any(g)) == Get(h, n.any(g)) + Count(s.directional, g) + Count(s.watch, g)
                            + CountSome(s.watch, Shadowed(g))
  }

  lemma RecordAddsAt(n: Fields, h: Hash, s: RunSummary, g: GateRejection)
    requires Separate(n) && WatchSeparate(n) && PlainSeparate(n)
    ensures AddsAt(n, h, Recorded(n, h, s), s, g)
  {
    RunCounts(n, h, s, g);
    RunWatchCounts(n, h, s, g);
    RunPlainCounts(n, h, s, g);
    ShadowsCounted(s.directional, g);
    ShadowsCounted(s.watch, g);
  }

  lemma GateNext(n: Fields, h: Hash, h': Hash, s: RunSummary, ds: seq<SessionRun>, d: SessionRun, g: GateRejection)
    requires GateCounts(n, h, ds, g) && AddsAt(n, h, h', s, g) && s == Summary(d.items, ResultOf(d))
    ensures GateCounts(n, h', ds + [d], g)
  {
    CountsSnoc(s, ds, d, Some(g));
    CountsSnoc(s, ds, d, Shadower(g));
    CountsSnoc(s, ds, d, Shadowed(g));
  }

  /** Recording a run keeps the hash an account of what was recorded. */
  lemma RecordKeepsAccounts(h: Hash, ds: seq<SessionRun>, d: SessionRun)
    requires Accounts(h, ds)
    ensures Accounts(Recorded(FieldNames(), h, Summary(d.items, ResultOf(d))), ds + [d])
  {
    FieldNamesSeparate();
    WatchNamesSeparate();
    PlainNamesSeparate();
    SummaryKeepsAccounts(FieldNames(), h, Summary(d.items, ResultOf(d)), ds, d);
  }

  lemma SummaryKeepsAccounts(n: Fields, h: Hash, s: RunSummary, ds: seq<SessionRun>, d: SessionRun)
    requires n == FieldNames() && Separate(n) && WatchSeparate(n) && PlainSeparate(n)
    requires Accounts(h, ds) && s == Summary(d.items, ResultOf(d))
    ensures Accounts(Recorded(n, h, s), ds + [d])
  {
    RecordAdds(n, h, s);
    TotalsNext(h, Recorded(n, h, s), s, ds, d);
    forall g ensures GateCounts(n, Recorded(n, h, s), ds + [d], g) {
      RecordAddsAt(n, h, s, g);
      GateNext(n, h, Recorded(n, h, s), s, ds, d, g);
    }
  }

  /** The hash of a session. */
  function SessionHash(ds: seq<SessionRun>): Hash {
    if ds == [] then map[]
    else
      var d := ds[|ds| - 1];
      Recorded(FieldNames(), SessionHash(ds[..|ds| - 1]), Summary(d.items, ResultOf(d)))
  }

  lemma SumOfNone(ds: seq<SessionRun>, f: SessionRun -> int)
    requires |ds| == 0
    ensures SumOver(ds, f) == 0
  {}

  lemma NoTotals(h: Hash)
    requires h == map[]
    ensures TotalsAre(h, 0, 0, 0, 0, 0, 0, 0)
  {}

  lemma NoTotalsYet(h: Hash, ds: seq<SessionRun>)
    requires h == map[] && |ds| == 0
    ensures TotalsCount(h, ds)
  {
    NoTotals(h);
    SumOfNone(ds, Proposed());
    SumOfNone(ds, Emitted(TRADES));
    SumOfNone(ds, Emitted(WATCHES));
    SumOfNone(ds, Refused(TRADES));
    SumOfNone(ds, Refused(WATCHES));
    SumOfNone(ds, SuppressedIn());
  }

  lemma NoRowsYet(ds: seq<SessionRun>, g: GateRejection)
    requires |ds| == 0
    ensures SumOver(ds, RefusedAt(TRADES, g)) == SumOver(ds, RefusedAt(WATCHES, g)) == 0
  {
    SumOfNone(ds, RefusedAt(TRADES, g));
    SumOfNone(ds, RefusedAt(WATCHES, g));
  }

  lemma NoGatesYet(n: Fields, h: Hash, ds: seq<SessionRun>, g: GateRejection)
    requires h == map[] && |ds| == 0
    ensures GateCounts(n, h, ds, g)
  {
    NoRowsYet(ds, g);
    if Shadower(g).Some? { NoRowsYet(ds, Shadower(g).value); }
    if Shadowed(g).Some? { NoRowsYet(ds, Shadowed(g).value); }
  }

  lemma NothingRecorded(h: Hash, ds: seq<SessionRun>)
    requires h == map[] && |ds| == 0
    ensures Accounts(h, ds)
  {
    NoTotalsYet(h, ds);
    forall g ensures GateCounts(FieldNames(), h, ds, g) { NoGatesYet(FieldNames(), h, ds, g); }
  }

  lemma AccountsNext(ds: seq<SessionRun>, init: seq<SessionRun>, d: SessionRun)
    requires ds == init + [d] && Accounts(SessionHash(init), init)
    ensures Accounts(SessionHash(ds), ds)
  {
    assert ds[..|ds| - 1] == init;
    RecordKeepsAccounts(SessionHash(init), init, d);
  }

  /** A property of a fold that holds at the start and survives one more element always holds. */
  lemma {:induction false} Survives<D>(holds: seq<D> -> bool, ds: seq<D>)
    requires holds([])
    requires forall init: seq<D>, d: D :: holds(init) ==> holds(init + [d])
    ensures holds(ds)
  {
    if ds != [] {
      Survives(holds, ds[..|ds| - 1]);
      assert ds == ds[..|ds| - 1] + [ds[|ds| - 1]];
    }
  }

  /** Over any sequence of runs the session hash is an account of exactly those runs. */
  lemma SessionHashMeaning(ds: seq<SessionRun>)
    ensures Accounts(SessionHash(ds), ds)
  {
    var holds := (xs: seq<SessionRun>) => Accounts(SessionHash(xs), xs);
    NothingRecorded(SessionHash([]), []);
    forall init: seq<SessionRun>, d: SessionRun | holds(init) ensures holds(init + [d]) {
      AccountsNext(init + [d], init, d);
    }
    Survives(holds, ds);
    assert holds(ds);
  }
}
