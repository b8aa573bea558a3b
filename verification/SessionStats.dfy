/** Per-session counters in a Redis hash (gates/session.py). Fields are strings, as stored, because
    the field names overlap. */
module SessionStats {
  import opened Prelude
  import opened GateTypes

  function Value(g: GateRejection): string {
    match g
    case VIX_HARD => "vix_hard"
    case SOURCE_HALLUCINATION => "source_hallucination"
    case EP_THRESHOLD => "ep_threshold"
    case SA_THRESHOLD => "sa_threshold"
    case HIGH_CONFIDENCE_ALIGNMENT => "high_confidence_alignment"
    case CONF_THRESHOLD => "conf_threshold"
    case RR_MINIMUM => "rr_minimum"
    case RR_ZERO_RISK => "rr_zero_risk"
    case ENTRY_ORDER_INVALID => "entry_order_invalid"
    case MACRO_VETO => "macro_veto"
    case VIX_SOFT => "vix_soft"
    case FORECAST_CONTRADICTS => "forecast_contradicts"
    case TIMEFRAME_INVALID => "timeframe_invalid"
    case ENTRY_MARKET_DRIFT => "entry_market_drift"
    case VOLUME_UNCONFIRMED => "volume_unconfirmed"
    case WATCH_EP_THRESHOLD => "watch_ep_threshold"
    case WATCH_SA_THRESHOLD => "watch_sa_threshold"
    case WATCH_CONF_THRESHOLD => "watch_conf_threshold"
    case WATCH_CAP => "watch_cap"
    case WATCH_DROPPED_DIRECTIONAL_PRESENT => "watch_dropped_directional_present"
    case WATCH_DECAY => "watch_decay"
    case MARKET_SESSION_CLOSED => "market_session_closed"
    case DEDUP_SUPPRESSED => "dedup_suppressed"
  }

  function AnyField(g: GateRejection): string { "gate_" + Value(g) }

  function DirField(g: GateRejection): string { "gate_dir_" + Value(g) }

  function WatchField(g: GateRejection): string { "gate_watch_" + Value(g) }

  /** The three per-gate field names, as functions of the gate. */
  datatype Fields = Fields(any: GateRejection -> string, dir: GateRejection -> string, watch: GateRejection -> string)

  /** The names the code uses. */
  function FieldNames(): Fields {
    Fields((g: GateRejection) => AnyField(g), (g: GateRejection) => DirField(g), (g: GateRejection) => WatchField(g))
  }

  type Hash = map<string, int>

  function Get(h: Hash, f: string): int { if f in h then h[f] else 0 }

  function Incr(h: Hash, f: string, n: int): Hash { h[f := Get(h, f) + n] }

  /** What one run reports. */
  datatype RunSummary = RunSummary(llmCandidates: nat, directionalPassed: nat, watchKept: nat,
                                   directional: seq<GateRejection>, watch: seq<GateRejection>, dedupSuppressed: nat)

  function Totals(h: Hash, r: RunSummary): Hash {
    var h1 := Incr(Incr(h, "decision_runs", 1), "llm_candidates", r.llmCandidates);
    var h2 := Incr(Incr(h1, "alerts_passed", r.directionalPassed), "alerts_passed_directional", r.directionalPassed);
    var h3 := Incr(Incr(h2, "alerts_passed_total", r.directionalPassed + r.watchKept), "watch_kept", r.watchKept);
    var h4 := Incr(h3, "alerts_rejected", |r.directional| + |r.watch|);
    var h5 := Incr(Incr(h4, "alerts_rejected_directional", |r.directional|), "alerts_rejected_watch", |r.watch|);
    if r.dedupSuppressed != 0 then Incr(h5, "alerts_dedup_suppressed", r.dedupSuppressed) else h5
  }

  function AddDirectional(n: Fields, h: Hash, gates: seq<GateRejection>): Hash {
    if gates == [] then h
    else
      var g := gates[|gates| - 1];
      Incr(Incr(AddDirectional(n, h, gates[..|gates| - 1]), n.dir(g), 1), n.any(g), 1)
  }

  function AddWatch(n: Fields, h: Hash, gates: seq<GateRejection>): Hash {
    if gates == [] then h
    else
      var g := gates[|gates| - 1];
      Incr(Incr(AddWatch(n, h, gates[..|gates| - 1]), n.watch(g), 1), n.any(g), 1)
  }

  function Recorded(n: Fields, h: Hash, r: RunSummary): Hash {
    AddWatch(n, AddDirectional(n, Totals(h, r), r.directional), r.watch)
  }

  class SessionStatsStore {
    var hashes: map<string, Hash>
    var up: bool
    const fields: Fields

    constructor ()
      ensures hashes == map[] && fields == FieldNames()
    {
      hashes, up, fields := map[], true, FieldNames();
    }

    function HashAt(key: string): Hash
      reads this
    {
      if key in hashes then hashes[key] else map[]
    }

    /** One pipelined update of the session hash; a Redis failure loses the whole update. */
    method Record(key: string, r: RunSummary)
      modifies this`hashes
      ensures hashes == if up then old(hashes)[key := Recorded(fields, old(HashAt(key)), r)] else old(hashes)
    {
      if !up { return; }
      var h := RecordTotals(HashAt(key), r);
      h := RecordDirectional(h, r.directional);
      h := RecordWatch(h, r.watch);
      hashes := hashes[key := h];
    }

    method RecordTotals(start: Hash, r: RunSummary) returns (h: Hash)
      ensures h == Totals(start, r)
    {
      h := Incr(start, "decision_runs", 1);
      h := Incr(h, "llm_candidates", r.llmCandidates);
      h := Incr(h, "alerts_passed", r.directionalPassed);
      h := Incr(h, "alerts_passed_directional", r.directionalPassed);
      h := Incr(h, "alerts_passed_total", r.directionalPassed + r.watchKept);
      h := Incr(h, "watch_kept", r.watchKept);
      var totalRejections := |r.directional| + |r.watch|;
      h := Incr(h, "alerts_rejected", totalRejections);
      h := Incr(h, "alerts_rejected_directional", |r.directional|);
      h := Incr(h, "alerts_rejected_watch", |r.watch|);
      if r.dedupSuppressed != 0 {
        h := Incr(h, "alerts_dedup_suppressed", r.dedupSuppressed);
      }
    }

    method RecordDirectional(start: Hash, gates: seq<GateRejection>) returns (h: Hash)
      ensures h == AddDirectional(fields, start, gates)
    {
      h := start;
      for i := 0 to |gates|
        invariant h == AddDirectional(fields, start, gates[..i])
      {
        h := Incr(h, fields.dir(gates[i]), 1);
        h := Incr(h, fields.any(gates[i]), 1);
        assert gates[..i + 1][..i] == gates[..i];
      }
      assert gates[..|gates|] == gates;
    }

    method RecordWatch(start: Hash, gates: seq<GateRejection>) returns (h: Hash)
      ensures h == AddWatch(fields, start, gates)
    {
      h := start;
      for i := 0 to |gates|
        invariant h == AddWatch(fields, start, gates[..i])
      {
        h := Incr(h, fields.watch(gates[i]), 1);
        h := Incr(h, fields.any(gates[i]), 1);
        assert gates[..i + 1][..i] == gates[..i];
      }
      assert gates[..|gates|] == gates;
    }
  }

  // ---------------------------------------------------------------- field names

  /** Length and two characters tell the 23 names apart. */
  function Fingerprint(g: GateRejection): (nat, char, char) {
    match g
    case VIX_HARD => (8, 'v', 'r') case SOURCE_HALLUCINATION => (20, 's', '_')
    case EP_THRESHOLD => (12, 'e', 'e') case SA_THRESHOLD => (12, 's', 'e')
    case HIGH_CONFIDENCE_ALIGNMENT => (25, 'h', 'o') case CONF_THRESHOLD => (14, 'c', 'h')
    case RR_MINIMUM => (10, 'r', 'i') case RR_ZERO_RISK => (12, 'r', 'o')
    case ENTRY_ORDER_INVALID => (19, 'e', 'o') case MACRO_VETO => (10, 'm', 'v')
    case VIX_SOFT => (8, 'v', 'f') case FORECAST_CONTRADICTS => (20, 'f', 's')
    case TIMEFRAME_INVALID => (17, 't', 'a') case ENTRY_MARKET_DRIFT => (18, 'e', 'm')
    case VOLUME_UNCONFIRMED => (18, 'v', '_') case WATCH_EP_THRESHOLD => (18, 'w', 'e')
    case WATCH_SA_THRESHOLD => (18, 'w', 's') case WATCH_CONF_THRESHOLD => (20, 'w', 'c')
    case WATCH_CAP => (9, 'w', 'c') case WATCH_DROPPED_DIRECTIONAL_PRESENT => (33, 'w', 'd')
    case WATCH_DECAY => (11, 'w', 'd') case MARKET_SESSION_CLOSED => (21, 'm', '_')
    case DEDUP_SUPPRESSED => (16, 'd', 's')
  }

  function Print(v: string): (nat, char, char)
    requires |v| > 6
  {
    (|v|, v[0], v[6])
  }

  lemma FingerprintOf(g: GateRejection)
    ensures var v := Value(g);
      |v| > 6 && Fingerprint(g) == Print(v) && !(v[0] == 'd' && v[1] == 'i')
  {
  }

  lemma PrintsDiffer(g: GateRejection, h: GateRejection)
    requires Fingerprint(g) == Fingerprint(h)
    ensures g == h
  {
  }

  lemma ValuesDiffer(g: GateRejection, h: GateRejection)
    requires Value(g) == Value(h)
    ensures g == h
  {
    FingerprintOf(g);
    FingerprintOf(h);
    PrintsDiffer(g, h);
  }

  /** The directional per-gate fields are told apart from one another and from every other field. */
  lemma DirFieldIsOwn(g: GateRejection, h: GateRejection)
    ensures DirField(g) == DirField(h) ==> g == h
    ensures DirField(g) != AnyField(h) && DirField(g) != WatchField(h)
    ensures DirField(g)[0] == AnyField(g)[0] == WatchField(g)[0] == 'g'
  {
    FingerprintOf(g);
    FingerprintOf(h);
    assert DirField(g)[9..] == Value(g) && DirField(h)[9..] == Value(h);
    if DirField(g) == DirField(h) { ValuesDiffer(g, h); }
    assert DirField(g)[5] == 'd' && DirField(g)[6] == 'i' && WatchField(h)[5] == 'w';
    assert AnyField(h)[5] == Value(h)[0] && AnyField(h)[6] == Value(h)[1];
  }

  /** Fields not starting with 'g' hold the totals. */
  predicate TotalField(f: string) { |f| > 0 && f[0] != 'g' }

  ghost predicate PairSeparate(n: Fields, g: GateRejection, h: GateRejection) {
    && (n.dir(g) == n.dir(h) ==> g == h)
    && n.dir(g) != n.any(h)
    && n.dir(g) != n.watch(h)
    && !TotalField(n.dir(g)) && !TotalField(n.any(g)) && !TotalField(n.watch(g))
  }

  /** Directional fields are told apart from one another and from the other gate fields, and no
      gate field is a totals field. */
  ghost predicate Separate(n: Fields) { forall g, h :: PairSeparate(n, g, h) }

  lemma NamesAre(g: GateRejection)
    ensures FieldNames().dir(g) == DirField(g)
    ensures FieldNames().any(g) == AnyField(g)
    ensures FieldNames().watch(g) == WatchField(g)
  {
  }

  lemma PairOf(n: Fields, g: GateRejection, h: GateRejection, d: string, d': string, a: string, a': string,
               w: string, w': string)
    requires n.dir(g) == d && n.dir(h) == d' && n.any(g) == a && n.any(h) == a' && n.watch(g) == w && n.watch(h) == w'
    requires d == d' ==> g == h
    requires d != a' && d != w'
    requires !TotalField(d) && !TotalField(a) && !TotalField(w)
    ensures PairSeparate(n, g, h)
  {
  }

  lemma PairNamesSeparate(g: GateRejection, h: GateRejection)
    ensures PairSeparate(FieldNames(), g, h)
  {
    NamesAre(g);
    NamesAre(h);
    DirFieldIsOwn(g, h);
    PairOf(FieldNames(), g, h, DirField(g), DirField(h), AnyField(g), AnyField(h), WatchField(g), WatchField(h));
  }

  lemma FieldNamesSeparate()
    ensures Separate(FieldNames())
  {
    forall g, h ensures PairSeparate(FieldNames(), g, h) { PairNamesSeparate(g, h); }
  }

  // ---------------------------------------------------------------- conservation over any number of runs

  function After(n: Fields, runs: seq<RunSummary>): Hash {
    if runs == [] then map[] else Recorded(n, After(n, runs[..|runs| - 1]), runs[|runs| - 1])
  }

  function Count(gates: seq<GateRejection>, g: GateRejection): nat { multiset(gates)[g] }

  function DirectionalCount(runs: seq<RunSummary>, g: GateRejection): nat {
    if runs == [] then 0
    else DirectionalCount(runs[..|runs| - 1], g) + Count(runs[|runs| - 1].directional, g)
  }

  const ALL_GATES: seq<GateRejection> := [
    VIX_HARD, SOURCE_HALLUCINATION, EP_THRESHOLD, SA_THRESHOLD, HIGH_CONFIDENCE_ALIGNMENT,
    CONF_THRESHOLD, RR_MINIMUM, RR_ZERO_RISK, ENTRY_ORDER_INVALID, MACRO_VETO,
    VIX_SOFT, FORECAST_CONTRADICTS, TIMEFRAME_INVALID, ENTRY_MARKET_DRIFT, VOLUME_UNCONFIRMED,
    WATCH_EP_THRESHOLD, WATCH_SA_THRESHOLD, WATCH_CONF_THRESHOLD, WATCH_CAP, WATCH_DROPPED_DIRECTIONAL_PRESENT,
    WATCH_DECAY, MARKET_SESSION_CLOSED, DEDUP_SUPPRESSED]

  /** The sum of the gate_dir_* fields of the given gates. */
  function DirTotal(n: Fields, h: Hash, gates: seq<GateRejection>): int {
    if gates == [] then 0 else DirTotal(n, h, gates[1..]) + Get(h, n.dir(gates[0]))
  }

  predicate Balanced(h: Hash) {
    && Get(h, "alerts_rejected") == Get(h, "alerts_rejected_directional") + Get(h, "alerts_rejected_watch")
    && Get(h, "alerts_passed_total") == Get(h, "alerts_passed_directional") + Get(h, "watch_kept")
    && Get(h, "alerts_passed") == Get(h, "alerts_passed_directional")
  }

  lemma {:induction false} GatesKeepTotals(n: Fields, h: Hash, gates: seq<GateRejection>, f: string)
    requires Separate(n) && TotalField(f)
    ensures Get(AddDirectional(n, h, gates), f) == Get(h, f)
    ensures Get(AddWatch(n, h, gates), f) == Get(h, f)
  {
    if gates != [] {
      GatesKeepTotals(n, h, gates[..|gates| - 1], f);
      assert PairSeparate(n, gates[|gates| - 1], gates[|gates| - 1]);
    }
  }

  lemma CountSnoc(init: seq<GateRejection>, last: GateRejection, g: GateRejection)
    ensures Count(init + [last], g) == Count(init, g) + if last == g then 1 else 0
  {}

  /** Counting a row touches its two fields only. */
  lemma TwoFields(h: Hash, a: string, b: string, f: string)
    ensures Get(Incr(Incr(h, a, 1), b, 1), f) == Get(h, f) + (if a == f then 1 else 0) + (if b == f then 1 else 0)
  {}

  lemma {:induction false} GatesCounted(n: Fields, h: Hash, gates: seq<GateRejection>, g: GateRejection)
    requires Separate(n)
    ensures Get(AddDirectional(n, h, gates), n.dir(g)) == Get(h, n.dir(g)) + Count(gates, g)
  {
    if gates != [] {
      var init, last := gates[..|gates| - 1], gates[|gates| - 1];
      GatesCounted(n, h, init, g);
      assert gates == init + [last];
      CountSnoc(init, last, g);
      TwoFields(AddDirectional(n, h, init), n.dir(last), n.any(last), n.dir(g));
      assert PairSeparate(n, g, last);
    }
  }

  lemma {:induction false} WatchGatesNotCounted(n: Fields, h: Hash, gates: seq<GateRejection>, g: GateRejection)
    requires Separate(n)
    ensures Get(AddWatch(n, h, gates), n.dir(g)) == Get(h, n.dir(g))
  {
    if gates != [] {
      WatchGatesNotCounted(n, h, gates[..|gates| - 1], g);
      assert PairSeparate(n, g, gates[|gates| - 1]);
    }
  }

  lemma TotalsKeep(h: Hash, r: RunSummary, f: string)
    requires !TotalField(f)
    ensures Get(Totals(h, r), f) == Get(h, f)
  {
  }

  lemma TotalsBalance(h: Hash, r: RunSummary)
    requires Balanced(h)
    ensures Balanced(Totals(h, r))
    ensures Get(Totals(h, r), "alerts_rejected_directional") == Get(h, "alerts_rejected_directional") + |r.directional|
  {
  }

  function Occurrences(gates: seq<GateRejection>, g: GateRejection): nat {
    if gates == [] then 0 else Occurrences(gates[1..], g) + if gates[0] == g then 1 else 0
  }

  function CountAll(rows: seq<GateRejection>, gates: seq<GateRejection>): nat {
    if gates == [] then 0 else CountAll(rows, gates[1..]) + Count(rows, gates[0])
  }

  lemma {:induction false} DirTotalIsLength(n: Fields, h: Hash, h': Hash, rows: seq<GateRejection>,
                                            gates: seq<GateRejection>)
    requires forall g :: Get(h', n.dir(g)) == Get(h, n.dir(g)) + Count(rows, g)
    ensures DirTotal(n, h', gates) == DirTotal(n, h, gates) + CountAll(rows, gates)
  {
    if gates != [] { DirTotalIsLength(n, h, h', rows, gates[1..]); }
  }

  lemma {:induction false} CountAllSnoc(rows: seq<GateRejection>, r: GateRejection, gates: seq<GateRejection>)
    ensures CountAll(rows + [r], gates) == CountAll(rows, gates) + Occurrences(gates, r)
    ensures CountAll([], gates) == 0
  {
    if gates != [] { CountAllSnoc(rows, r, gates[1..]); }
  }

  lemma {:induction false} EveryRowCounted(rows: seq<GateRejection>, gates: seq<GateRejection>)
    requires forall g: GateRejection :: Occurrences(gates, g) == 1
    ensures CountAll(rows, gates) == |rows|
  {
    if rows == [] {
      CountAllSnoc([], VIX_HARD, gates);
    } else {
      var init, last := rows[..|rows| - 1], rows[|rows| - 1];
      EveryRowCounted(init, gates);
      CountAllSnoc(init, last, gates);
      assert rows == init + [last];
    }
  }

  /** The gate's place in ALL_GATES. */
  function Place(g: GateRejection): nat {
    match g
    case VIX_HARD => 0 case SOURCE_HALLUCINATION => 1 case EP_THRESHOLD => 2
    case SA_THRESHOLD => 3 case HIGH_CONFIDENCE_ALIGNMENT => 4 case CONF_THRESHOLD => 5
    case RR_MINIMUM => 6 case RR_ZERO_RISK => 7 case ENTRY_ORDER_INVALID => 8
    case MACRO_VETO => 9 case VIX_SOFT => 10 case FORECAST_CONTRADICTS => 11
    case TIMEFRAME_INVALID => 12 case ENTRY_MARKET_DRIFT => 13 case VOLUME_UNCONFIRMED => 14
    case WATCH_EP_THRESHOLD => 15 case WATCH_SA_THRESHOLD => 16 case WATCH_CONF_THRESHOLD => 17
    case WATCH_CAP => 18 case WATCH_DROPPED_DIRECTIONAL_PRESENT => 19 case WATCH_DECAY => 20
    case MARKET_SESSION_CLOSED => 21 case DEDUP_SUPPRESSED => 22
  }

  lemma {:induction false} OccursOnce(gates: seq<GateRejection>, g: GateRejection, base: nat)
    requires forall i :: 0 <= i < |gates| ==> Place(gates[i]) == base + i
    requires forall h :: base <= Place(h) < base + |gates| ==> h in gates
    ensures Occurrences(gates, g) == if base <= Place(g) < base + |gates| then 1 else 0
  {
    if gates != [] {
      forall h | base + 1 <= Place(h) < base + |gates| ensures h in gates[1..] {
        assert h in gates && h != gates[0];
      }
      OccursOnce(gates[1..], g, base + 1);
      if Place(g) == base { SamePlace(g, gates[0]); }
    }
  }

  lemma SamePlace(g: GateRejection, h: GateRejection)
    requires Place(g) == Place(h)
    ensures g == h
  {
  }

  lemma AllGatesOnce(gates: seq<GateRejection>, g: GateRejection)
    requires gates == ALL_GATES
    ensures Occurrences(gates, g) == 1
  {
    forall h ensures gates[Place(h)] == h {}
    assert Place(g) < 23;
    OccursOnce(gates, g, 0);
  }

  lemma {:induction false} EmptyTotal(n: Fields, gates: seq<GateRejection>)
    ensures DirTotal(n, map[], gates) == 0
  {
    if gates != [] { EmptyTotal(n, gates[1..]); }
  }

  lemma RunBalances(n: Fields, h: Hash, r: RunSummary)
    requires Separate(n) && Balanced(h)
    ensures Balanced(Recorded(n, h, r))
    ensures Get(Recorded(n, h, r), "alerts_rejected_directional")
         == Get(h, "alerts_rejected_directional") + |r.directional|
  {
    TotalsBalance(h, r);
    var h1 := Totals(h, r);
    var h2 := AddDirectional(n, h1, r.directional);
    forall f | TotalField(f) ensures Get(Recorded(n, h, r), f) == Get(h1, f) {
      GatesKeepTotals(n, h1, r.directional, f);
      GatesKeepTotals(n, h2, r.watch, f);
    }
  }

  lemma RunCounts(n: Fields, h: Hash, r: RunSummary, g: GateRejection)
    requires Separate(n)
    ensures Get(Recorded(n, h, r), n.dir(g)) == Get(h, n.dir(g)) + Count(r.directional, g)
  {
    assert PairSeparate(n, g, g);
    TotalsKeep(h, r, n.dir(g));
    GatesCounted(n, Totals(h, r), r.directional, g);
    WatchGatesNotCounted(n, AddDirectional(n, Totals(h, r), r.directional), r.watch, g);
  }

  /** Over any number of runs the session hash stays balanced, every gate_dir_ field equals the
      directional rows of that gate, and over any listing of the gates those fields add up to the
      directional rejections. */
  lemma {:induction false} SessionIsConserved(n: Fields, runs: seq<RunSummary>, gates: seq<GateRejection>)
    requires Separate(n)
    requires forall g: GateRejection :: Occurrences(gates, g) == 1
    ensures Balanced(After(n, runs))
    ensures forall g :: Get(After(n, runs), n.dir(g)) == DirectionalCount(runs, g)
    ensures DirTotal(n, After(n, runs), gates) == Get(After(n, runs), "alerts_rejected_directional")
  {
    if runs == [] {
      EmptyTotal(n, gates);
    } else {
      var h, r := After(n, runs[..|runs| - 1]), runs[|runs| - 1];
      SessionIsConserved(n, runs[..|runs| - 1], gates);
      RunBalances(n, h, r);
      forall g ensures Get(Recorded(n, h, r), n.dir(g)) == Get(h, n.dir(g)) + Count(r.directional, g) {
        RunCounts(n, h, r, g);
      }
      DirTotalIsLength(n, h, Recorded(n, h, r), r.directional, gates);
      EveryRowCounted(r.directional, gates);
    }
  }

  /** Conservation for the names the code writes, over all 23 gates. */
  lemma StoredSessionIsConserved(runs: seq<RunSummary>)
    ensures var h := After(FieldNames(), runs);
      && Balanced(h)
      && DirTotal(FieldNames(), h, ALL_GATES) == Get(h, "alerts_rejected_directional")
  {
    FieldNamesSeparate();
    forall g: GateRejection ensures Occurrences(ALL_GATES, g) == 1 { AllGatesOnce(ALL_GATES, g); }
    SessionIsConserved(FieldNames(), runs, ALL_GATES);
  }

  // ---------------------------------------------------------------- the watch-prefixed fields

  /** The gate whose watch-prefixed field is also the plain field of `h`. */
  function Shadowed(h: GateRejection): Option<GateRejection> {
    match h
    case WATCH_EP_THRESHOLD => Some(EP_THRESHOLD)
    case WATCH_SA_THRESHOLD => Some(SA_THRESHOLD)
    case WATCH_CONF_THRESHOLD => Some(CONF_THRESHOLD)
    case _ => None
  }

  /** Rows whose gate shares its plain field with the watch-prefixed field of g. */
  function ShadowCount(rows: seq<GateRejection>, g: GateRejection): nat {
    if rows == [] then 0
    else ShadowCount(rows[..|rows| - 1], g) + if Shadowed(rows[|rows| - 1]) == Some(g) then 1 else 0
  }

  /** Rows whose plain field is somebody's watch-prefixed field. */
  function Misfiled(rows: seq<GateRejection>): nat {
    if rows == [] then 0
    else Misfiled(rows[..|rows| - 1]) + if Shadowed(rows[|rows| - 1]).Some? then 1 else 0
  }

  /** A name that is another one with the watch infix: exactly three of them are. */
  lemma WatchInfix(g: GateRejection, h: GateRejection)
    ensures Value(h) == "watch_" + Value(g) <==> Shadowed(h) == Some(g)
  {
    if Shadowed(h) == Some(g) {
      InfixNames();
    } else {
      FingerprintOf(g);
      FingerprintOf(h);
      PrintsUnrelated(g, h);
      PrintOfInfix(Value(g), Value(h));
    }
  }

  lemma InfixNames()
    ensures Value(WATCH_EP_THRESHOLD) == "watch_" + Value(EP_THRESHOLD)
    ensures Value(WATCH_SA_THRESHOLD) == "watch_" + Value(SA_THRESHOLD)
    ensures Value(WATCH_CONF_THRESHOLD) == "watch_" + Value(CONF_THRESHOLD)
  {}

  lemma PrintOfInfix(v: string, w: string)
    requires |v| > 6 && |w| > 6
    ensures w == "watch_" + v ==> Print(w) == (6 + |v|, 'w', v[0])
  {}

  lemma PrintsUnrelated(g: GateRejection, h: GateRejection)
    requires Shadowed(h) != Some(g)
    ensures Fingerprint(h) != (6 + Fingerprint(g).0, 'w', Fingerprint(g).1)
  {}

  ghost predicate WatchPairSeparate(n: Fields, g: GateRejection, h: GateRejection) {
    && (n.watch(g) == n.watch(h) ==> g == h)
    && (n.any(h) == n.watch(g) <==> Shadowed(h) == Some(g))
    && n.dir(h) != n.watch(g)
    && !TotalField(n.watch(g))
  }

  /** Watch-prefixed fields are told apart from one another and from the directional ones, and meet a
      plain field exactly in the three shadowed pairs. */
  ghost predicate WatchSeparate(n: Fields) { forall g, h :: WatchPairSeparate(n, g, h) }

  lemma WatchNamesMeet(g: GateRejection, h: GateRejection)
    ensures WatchField(g) == WatchField(h) ==> g == h
    ensures AnyField(h) == WatchField(g) <==> Shadowed(h) == Some(g)
  {
    WatchInfix(g, h);
    Prefixes(Value(g), Value(h));
    if WatchField(g) == WatchField(h) { ValuesDiffer(g, h); }
  }

  lemma Prefixes(v: string, w: string)
    ensures "gate_watch_" + v == "gate_watch_" + w ==> v == w
    ensures "gate_" + w == "gate_watch_" + v <==> w == "watch_" + v
  {
    assert ("gate_watch_" + v)[11..] == v && ("gate_watch_" + w)[11..] == w;
    assert ("gate_" + w)[5..] == w && "gate_watch_" + v == "gate_" + ("watch_" + v);
    assert ("gate_" + ("watch_" + v))[5..] == "watch_" + v;
  }

  lemma WatchPairOf(n: Fields, g: GateRejection, h: GateRejection, w: string, w': string, a': string, d': string)
    requires n.watch(g) == w && n.watch(h) == w' && n.any(h) == a' && n.dir(h) == d'
    requires w == w' ==> g == h
    requires a' == w <==> Shadowed(h) == Some(g)
    requires d' != w && !TotalField(w)
    ensures WatchPairSeparate(n, g, h)
  {}

  lemma WatchNamesSeparate()
    ensures WatchSeparate(FieldNames())
  {
    forall g, h ensures WatchPairSeparate(FieldNames(), g, h) {
      NamesAre(g);
      NamesAre(h);
      DirFieldIsOwn(h, g);
      DirFieldIsOwn(g, g);
      WatchNamesMeet(g, h);
      WatchPairOf(FieldNames(), g, h, WatchField(g), WatchField(h), AnyField(h), DirField(h));
    }
  }

  lemma {:induction false} DirectionalShadows(n: Fields, h: Hash, gates: seq<GateRejection>, g: GateRejection)
    requires WatchSeparate(n)
    ensures Get(AddDirectional(n, h, gates), n.watch(g)) == Get(h, n.watch(g)) + ShadowCount(gates, g)
  {
    if gates != [] {
      DirectionalShadows(n, h, gates[..|gates| - 1], g);
      var last := gates[|gates| - 1];
      TwoFields(AddDirectional(n, h, gates[..|gates| - 1]), n.dir(last), n.any(last), n.watch(g));
      assert WatchPairSeparate(n, g, gates[|gates| - 1]);
    }
  }

  lemma {:induction false} WatchCounts(n: Fields, h: Hash, gates: seq<GateRejection>, g: GateRejection)
    requires WatchSeparate(n)
    ensures Get(AddWatch(n, h, gates), n.watch(g)) == Get(h, n.watch(g)) + Count(gates, g) + ShadowCount(gates, g)
  {
    if gates != [] {
      var init, last := gates[..|gates| - 1], gates[|gates| - 1];
      WatchCounts(n, h, init, g);
      assert gates == init + [last];
      CountSnoc(init, last, g);
      TwoFields(AddWatch(n, h, init), n.watch(last), n.any(last), n.watch(g));
      assert WatchPairSeparate(n, g, last);
    }
  }

  lemma RunWatchCounts(n: Fields, h: Hash, r: RunSummary, g: GateRejection)
    requires WatchSeparate(n)
    ensures Get(Recorded(n, h, r), n.watch(g))
         == Get(h, n.watch(g)) + Count(r.watch, g) + ShadowCount(r.directional, g) + ShadowCount(r.watch, g)
  {
    assert WatchPairSeparate(n, g, g);
    TotalsKeep(h, r, n.watch(g));
    DirectionalShadows(n, Totals(h, r), r.directional, g);
    WatchCounts(n, AddDirectional(n, Totals(h, r), r.directional), r.watch, g);
  }

  /** The sum of the gate_watch_* fields of the given gates. */
  function WatchTotal(n: Fields, h: Hash, gates: seq<GateRejection>): int {
    if gates == [] then 0 else WatchTotal(n, h, gates[1..]) + Get(h, n.watch(gates[0]))
  }

  function ShadowAll(rows: seq<GateRejection>, gates: seq<GateRejection>): nat {
    if gates == [] then 0 else ShadowAll(rows, gates[1..]) + ShadowCount(rows, gates[0])
  }

  lemma {:induction false} WatchTotalGrows(n: Fields, h: Hash, h': Hash, r: RunSummary, gates: seq<GateRejection>)
    requires forall g :: Get(h', n.watch(g)) == Get(h, n.watch(g)) + Count(r.watch, g)
                                                + ShadowCount(r.directional, g) + ShadowCount(r.watch, g)
    ensures WatchTotal(n, h', gates) == WatchTotal(n, h, gates) + CountAll(r.watch, gates)
                                        + ShadowAll(r.directional, gates) + ShadowAll(r.watch, gates)
  {
    if gates != [] { WatchTotalGrows(n, h, h', r, gates[1..]); }
  }

  lemma {:induction false} ShadowAllSnoc(rows: seq<GateRejection>, r: GateRejection, gates: seq<GateRejection>)
    ensures ShadowAll(rows + [r], gates)
         == ShadowAll(rows, gates) + if Shadowed(r).Some? then Occurrences(gates, Shadowed(r).value) else 0
    ensures ShadowAll([], gates) == 0
  {
    if gates != [] {
      ShadowAllSnoc(rows, r, gates[1..]);
      assert (rows + [r])[..|rows|] == rows;
    }
  }

  lemma {:induction false} EveryShadowCounted(rows: seq<GateRejection>, gates: seq<GateRejection>)
    requires forall g: GateRejection :: Occurrences(gates, g) == 1
    ensures ShadowAll(rows, gates) == Misfiled(rows)
  {
    if rows == [] {
      ShadowAllSnoc([], VIX_HARD, gates);
    } else {
      var init, last := rows[..|rows| - 1], rows[|rows| - 1];
      EveryShadowCounted(init, gates);
      ShadowAllSnoc(init, last, gates);
      assert rows == init + [last];
    }
  }

  /** Rows of either kind, over all runs, whose plain field is somebody's watch-prefixed field. */
  function MisfiledIn(runs: seq<RunSummary>): nat {
    if runs == [] then 0
    else
      var r := runs[|runs| - 1];
      MisfiledIn(runs[..|runs| - 1]) + Misfiled(r.directional) + Misfiled(r.watch)
  }

  lemma RunWatchTotal(n: Fields, h: Hash, r: RunSummary, gates: seq<GateRejection>)
    requires Separate(n) && WatchSeparate(n) && forall g: GateRejection :: Occurrences(gates, g) == 1
    ensures WatchTotal(n, Recorded(n, h, r), gates)
         == WatchTotal(n, h, gates) + |r.watch| + Misfiled(r.directional) + Misfiled(r.watch)
  {
    forall g ensures Get(Recorded(n, h, r), n.watch(g))
                  == Get(h, n.watch(g)) + Count(r.watch, g) + ShadowCount(r.directional, g) + ShadowCount(r.watch, g) {
      RunWatchCounts(n, h, r, g);
    }
    WatchTotalGrows(n, h, Recorded(n, h, r), r, gates);
    EveryRowCounted(r.watch, gates);
    EveryShadowCounted(r.directional, gates);
    EveryShadowCounted(r.watch, gates);
  }

  lemma RunWatchRejected(n: Fields, h: Hash, r: RunSummary)
    requires Separate(n)
    ensures Get(Recorded(n, h, r), "alerts_rejected_watch") == Get(h, "alerts_rejected_watch") + |r.watch|
  {
    var h1 := Totals(h, r);
    GatesKeepTotals(n, h1, r.directional, "alerts_rejected_watch");
    GatesKeepTotals(n, AddDirectional(n, h1, r.directional), r.watch, "alerts_rejected_watch");
  }

  lemma {:induction false} WatchTotalOverRuns(n: Fields, runs: seq<RunSummary>, gates: seq<GateRejection>)
    requires Separate(n) && WatchSeparate(n) && forall g: GateRejection :: Occurrences(gates, g) == 1
    ensures WatchTotal(n, After(n, runs), gates) == Get(After(n, runs), "alerts_rejected_watch") + MisfiledIn(runs)
  {
    if runs == [] {
      EmptyWatchTotal(n, gates);
    } else {
      var h, r := After(n, runs[..|runs| - 1]), runs[|runs| - 1];
      WatchTotalOverRuns(n, runs[..|runs| - 1], gates);
      RunWatchTotal(n, h, r, gates);
      RunWatchRejected(n, h, r);
    }
  }

  lemma {:induction false} EmptyWatchTotal(n: Fields, gates: seq<GateRejection>)
    ensures WatchTotal(n, map[], gates) == 0
  {
    if gates != [] { EmptyWatchTotal(n, gates[1..]); }
  }

  /** The watch-prefixed fields over all gates add up to the watch rejections plus one for every row
      of the three WATCH threshold gates: so to the watch rejections exactly when no run ever reported
      such a row. */
  lemma StoredWatchFields(runs: seq<RunSummary>)
    ensures var h := After(FieldNames(), runs);
      && WatchTotal(FieldNames(), h, ALL_GATES) == Get(h, "alerts_rejected_watch") + MisfiledIn(runs)
      && (WatchTotal(FieldNames(), h, ALL_GATES) == Get(h, "alerts_rejected_watch")
          <==> forall i, g :: 0 <= i < |runs| && (g in runs[i].directional || g in runs[i].watch) ==> Shadowed(g).None?)
  {
    FieldNamesSeparate();
    WatchNamesSeparate();
    forall g: GateRejection ensures Occurrences(ALL_GATES, g) == 1 { AllGatesOnce(ALL_GATES, g); }
    WatchTotalOverRuns(FieldNames(), runs, ALL_GATES);
    NoneMisfiled(runs);
  }

  lemma {:induction false} NoneMisfiled(runs: seq<RunSummary>)
    ensures MisfiledIn(runs) == 0
       <==> forall i, g :: 0 <= i < |runs| && (g in runs[i].directional || g in runs[i].watch) ==> Shadowed(g).None?
  {
    if runs != [] {
      var init, last := runs[..|runs| - 1], runs[|runs| - 1];
      NoneMisfiled(init);
      RowsNotMisfiled(last.directional);
      RowsNotMisfiled(last.watch);
      assert forall i :: 0 <= i < |init| ==> runs[i] == init[i];
    }
  }

  lemma {:induction false} RowsNotMisfiled(rows: seq<GateRejection>)
    ensures Misfiled(rows) == 0 <==> forall g :: g in rows ==> Shadowed(g).None?
  {
    if rows != [] {
      RowsNotMisfiled(rows[..|rows| - 1]);
      assert rows == rows[..|rows| - 1] + [rows[|rows| - 1]];
    }
  }

  /** One such row, counted twice under the watch prefix. */
  lemma WatchFieldsCollide(h: Hash)
    ensures var n, w, e := FieldNames(), WATCH_EP_THRESHOLD, EP_THRESHOLD;
      && n.any(w) == n.watch(e) && n.watch(w) != n.watch(e)
      && Get(AddWatch(n, h, [w]), n.watch(w)) + Get(AddWatch(n, h, [w]), n.watch(e))
         == Get(h, n.watch(w)) + Get(h, n.watch(e)) + 2
  {
    var n, w, e := FieldNames(), WATCH_EP_THRESHOLD, EP_THRESHOLD;
    assert Value(w) == "watch_" + Value(e);
    assert n.any(w) == n.watch(e);
    FingerprintOf(w);
    FingerprintOf(e);
    assert |n.watch(w)| == 11 + |Value(w)| && |n.watch(e)| == 11 + |Value(e)|;
    OneRow(n, h, w);
  }

  lemma OneRow(n: Fields, h: Hash, g: GateRejection)
    ensures AddWatch(n, h, [g]) == Incr(Incr(h, n.watch(g), 1), n.any(g), 1)
  {
    assert [g][..0] == [];
    assert AddWatch(n, h, []) == h;
  }

  // ---------------------------------------------------------------- what one run adds to each field

  lemma RunTotal(n: Fields, h: Hash, r: RunSummary, f: string)
    requires Separate(n) && TotalField(f)
    ensures Get(Recorded(n, h, r), f) == Get(Totals(h, r), f)
  {
    GatesKeepTotals(n, Totals(h, r), r.directional, f);
    GatesKeepTotals(n, AddDirectional(n, Totals(h, r), r.directional), r.watch, f);
  }

  lemma PassedTotals(h: Hash, r: RunSummary)
    ensures var h' := Totals(h, r);
      && Get(h', "decision_runs") == Get(h, "decision_runs") + 1
      && Get(h', "llm_candidates") == Get(h, "llm_candidates") + r.llmCandidates
      && Get(h', "alerts_passed") == Get(h, "alerts_passed") + r.directionalPassed
      && Get(h', "alerts_passed_directional") == Get(h, "alerts_passed_directional") + r.directionalPassed
      && Get(h', "watch_kept") == Get(h, "watch_kept") + r.watchKept
      && Get(h', "alerts_passed_total") == Get(h, "alerts_passed_total") + r.directionalPassed + r.watchKept
  {}

  lemma RejectedTotals(h: Hash, r: RunSummary)
    ensures var h' := Totals(h, r);
      && Get(h', "alerts_rejected") == Get(h, "alerts_rejected") + |r.directional| + |r.watch|
      && Get(h', "alerts_rejected_directional") == Get(h, "alerts_rejected_directional") + |r.directional|
      && Get(h', "alerts_rejected_watch") == Get(h, "alerts_rejected_watch") + |r.watch|
      && Get(h', "alerts_dedup_suppressed") == Get(h, "alerts_dedup_suppressed") + r.dedupSuppressed
  {}

  /** The gate whose plain field is also the watch-prefixed field of g. */
  function Shadower(g: GateRejection): Option<GateRejection> {
    match g
    case EP_THRESHOLD => Some(WATCH_EP_THRESHOLD)
    case SA_THRESHOLD => Some(WATCH_SA_THRESHOLD)
    case CONF_THRESHOLD => Some(WATCH_CONF_THRESHOLD)
    case _ => None
  }

  function CountSome(rows: seq<GateRejection>, g: Option<GateRejection>): nat {
    if g.Some? then Count(rows, g.value) else 0
  }

  lemma ShadowsInvert(g: GateRejection, h: GateRejection)
    ensures Shadowed(h) == Some(g) <==> Shadower(g) == Some(h)
  {}

  lemma {:induction false} ShadowsCounted(rows: seq<GateRejection>, g: GateRejection)
    ensures ShadowCount(rows, g) == CountSome(rows, Shadower(g))
  {
    if rows != [] {
      var init, last := rows[..|rows| - 1], rows[|rows| - 1];
      ShadowsCounted(init, g);
      assert rows == init + [last];
      ShadowsInvert(g, last);
      if Shadower(g).Some? { CountSnoc(init, last, Shadower(g).value); }
    }
  }

  ghost predicate PlainSeparate(n: Fields) { forall g, h :: n.any(g) == n.any(h) ==> g == h }

  lemma PlainNamesSeparate()
    ensures PlainSeparate(FieldNames())
  {
    forall g, h | FieldNames().any(g) == FieldNames().any(h) ensures g == h {
      NamesAre(g);
      NamesAre(h);
      assert AnyField(g)[5..] == Value(g) && AnyField(h)[5..] == Value(h);
      ValuesDiffer(g, h);
    }
  }

  lemma {:induction false} PlainDirectional(n: Fields, h: Hash, gates: seq<GateRejection>, g: GateRejection)
    requires Separate(n) && PlainSeparate(n)
    ensures Get(AddDirectional(n, h, gates), n.any(g)) == Get(h, n.any(g)) + Count(gates, g)
  {
    if gates != [] {
      var init, last := gates[..|gates| - 1], gates[|gates| - 1];
      PlainDirectional(n, h, init, g);
      assert gates == init + [last];
      CountSnoc(init, last, g);
      TwoFields(AddDirectional(n, h, init), n.dir(last), n.any(last), n.any(g));
      assert PairSeparate(n, last, g);
    }
  }

  lemma {:induction false} PlainWatch(n: Fields, h: Hash, gates: seq<GateRejection>, g: GateRejection)
    requires WatchSeparate(n) && PlainSeparate(n)
    ensures Get(AddWatch(n, h, gates), n.any(g)) == Get(h, n.any(g)) + Count(gates, g) + CountSome(gates, Shadowed(g))
  {
    if gates != [] {
      var init, last := gates[..|gates| - 1], gates[|gates| - 1];
      PlainWatch(n, h, init, g);
      assert gates == init + [last];
      CountSnoc(init, last, g);
      if Shadowed(g).Some? { CountSnoc(init, last, Shadowed(g).value); }
      TwoFields(AddWatch(n, h, init), n.watch(last), n.any(last), n.any(g));
      assert WatchPairSeparate(n, last, g);
    }
  }

  /** A plain field counts the rows of its gate; that of a WATCH threshold gate also the watch rows of
      the gate it shadows. */
  lemma RunPlainCounts(n: Fields, h: Hash, r: RunSummary, g: GateRejection)
    requires Separate(n) && WatchSeparate(n) && PlainSeparate(n)
    ensures Get(Recorded(n, h, r), n.any(g))
         == Get(h, n.any(g)) + Count(r.directional, g) + Count(r.watch, g) + CountSome(r.watch, Shadowed(g))
  {
    assert PairSeparate(n, g, g);
    TotalsKeep(h, r, n.any(g));
    PlainDirectional(n, Totals(h, r), r.directional, g);
    PlainWatch(n, AddDirectional(n, Totals(h, r), r.directional), r.watch, g);
  }
}
