/** What the rejection rows of a run say: which gates a candidate failed, and why a watch was dropped
    (validate_and_filter.py). */
module RejectionLaws {
  import opened Prelude
  import opened GateTypes
  import opened CandidatePipeline
  import opened GateTheorems
  import opened RedisStore
  import opened ValidateAndFilter
  import opened RunTheorems

  /** Some row says that the candidate was stopped by the gate. */
  predicate StoppedBy(rows: seq<Row>, c: Candidate, g: GateRejection) {
    Row(c.alert.symbol, g, Some(c.id)) in rows
  }

  ghost predicate OnlyAbout(rows: seq<Row>, n: nat) {
    forall row :: row in rows && row.about.Some? ==> row.about.value < n
  }

  lemma RowsAreAboutCandidates(st: Scan)
    requires Owned(st)
    ensures OnlyAbout(st.rejections, |st.candidates|)
  {
    forall row | row in st.rejections && row.about.Some? ensures row.about.value < |st.candidates| {
      assert row.about.value in Owners(st.rejections);
    }
  }

  /** The rows an outcome adds. */
  function RowsOf(id: nat, o: Outcome): seq<Row> {
    match o
    case ParseFailed => []
    case TimeframeRejected(a) => [Row(a.symbol, TIMEFRAME_INVALID, None)]
    case Rejected(a, reasons) => Rows(Candidate(id, a), reasons)
    case DedupSuppressed(a) => [Row(a.symbol, DEDUP_SUPPRESSED, Some(id))]
    case Accepted(a) => []
  }

  lemma AbsorbedRows(st: Scan, db: Keyspace, o: Outcome)
    ensures Absorb(st, db, o).rejections == st.rejections + RowsOf(|st.candidates|, o)
  {
    assert st.rejections + [] == st.rejections;
  }

  lemma RowsOfReasons(c: Candidate, reasons: seq<GateRejection>, g: GateRejection)
    ensures StoppedBy(Rows(c, reasons), c, g) <==> g in reasons
  {
    if g in reasons {
      var i :| 0 <= i < |reasons| && reasons[i] == g;
      assert Rows(c, reasons)[i] == Row(c.alert.symbol, g, Some(c.id));
    }
  }

  lemma OwnRows(id: nat, o: Outcome, g: GateRejection)
    requires !o.ParseFailed? && !o.TimeframeRejected?
    ensures StoppedBy(RowsOf(id, o), Candidate(id, o.alert), g)
       <==> (o.Rejected? && g in o.reasons) || (o.DedupSuppressed? && g == DEDUP_SUPPRESSED)
  {
    if o.Rejected? { RowsOfReasons(Candidate(id, o.alert), o.reasons, g); }
  }

  lemma OthersRows(id: nat, o: Outcome, c: Candidate, g: GateRejection)
    requires c.id != id
    ensures !StoppedBy(RowsOf(id, o), c, g)
  {}

  /** The candidate is the final form of alert a, and its rows name exactly the gates that a fails; a
      suppression row is given only to an alert that fails none. */
  ghost predicate Explained(env: GateEnv, rows: seq<Row>, c: Candidate, a: Alert) {
    && c.alert == FinalAlert(env, a)
    && (forall g :: g != DEDUP_SUPPRESSED ==> (StoppedBy(rows, c, g) <==> Fails(env, a, g)))
    && (StoppedBy(rows, c, DEDUP_SUPPRESSED) ==> Passes(env, a))
  }

  lemma StillExplained(env: GateEnv, rows: seq<Row>, id: nat, o: Outcome, c: Candidate, a: Alert)
    requires Explained(env, rows, c, a) && c.id != id
    ensures Explained(env, rows + RowsOf(id, o), c, a)
  {
    forall g ensures StoppedBy(rows + RowsOf(id, o), c, g) <==> StoppedBy(rows, c, g) { OthersRows(id, o, c, g); }
  }

  lemma NewlyExplained(env: GateEnv, rows: seq<Row>, id: nat, o: Outcome, a: Alert, claimed: bool)
    requires o == Verdict(env, a, claimed) && OnlyAbout(rows, id)
    ensures Explained(env, rows + RowsOf(id, o), Candidate(id, o.alert), a)
  {
    PipelineRefinesGates(env, a);
    var c := Candidate(id, o.alert);
    forall g ensures StoppedBy(rows + RowsOf(id, o), c, g)
                <==> (o.Rejected? && g in o.reasons) || (o.DedupSuppressed? && g == DEDUP_SUPPRESSED) {
      OwnRows(id, o, g);
    }
  }

  lemma ItemVerdict(env: GateEnv, item: RawItem, db: Keyspace, now: real, on: bool, a: Alert)
    requires ParseAlert(item) == Some(a) && ValidTimeframe(a.timeframe)
    ensures Evaluate(env, item, db, now, on)
         == Verdict(env, a, Suppressed(env.settings, db, KeyOf(env, Journey(env, a).alert), now, on))
  {}

  lemma AbsorbedCandidates(st: Scan, db: Keyspace, o: Outcome)
    ensures Absorb(st, db, o).candidates
         == st.candidates + if o.ParseFailed? || o.TimeframeRejected? then []
                            else [Candidate(|st.candidates|, o.alert)]
  {
    assert st.candidates + [] == st.candidates;
  }

  /** Every candidate of a run is the final form of one of its items, and its rows name exactly the gates
      that item fails. */
  lemma {:induction false} RowsAreFailures(env: GateEnv, items: seq<RawItem>, db: Keyspace, now: real, on: bool,
                                           id: nat) returns (i: nat, a: Alert)
    requires id < |ScanAll(env, items, db, now, on).candidates|
    ensures i < |items| && ParseAlert(items[i]) == Some(a) && ValidTimeframe(a.timeframe)
    ensures var st := ScanAll(env, items, db, now, on);
      st.candidates[id].id == id && Explained(env, st.rejections, st.candidates[id], a)
  {
    var n := |items| - 1;
    var st := ScanAll(env, items[..n], db, now, on);
    var o, db' := Evaluate(env, items[n], st.db, now, on), DbAfter(env, items[n], st.db, now, on);
    AbsorbedRows(st, db', o);
    AbsorbedCandidates(st, db', o);
    if id < |st.candidates| {
      i, a := RowsAreFailures(env, items[..n], db, now, on, id);
      assert items[..n][i] == items[i];
      StillExplained(env, st.rejections, |st.candidates|, o, st.candidates[id], a);
    } else {
      i, a := n, ParseAlert(items[n]).value;
      ScanIsAccounted(env, items[..n], db, now, on);
      RowsAreAboutCandidates(st);
      ItemVerdict(env, items[n], st.db, now, on, a);
      NewlyExplained(env, st.rejections, id, o, a,
                     Suppressed(env.settings, st.db, KeyOf(env, Journey(env, a).alert), now, on));
    }
  }

  /** A readable item is refused for its timeframe alone exactly when that is none of the five. */
  lemma TimeframeMeaning(env: GateEnv, item: RawItem, db: Keyspace, now: real, on: bool, a: Alert)
    requires ParseAlert(item) == Some(a)
    ensures Evaluate(env, item, db, now, on) == TimeframeRejected(a)
       <==> a.timeframe != "5m" && a.timeframe != "15m" && a.timeframe != "1h" && a.timeframe != "4h"
            && a.timeframe != "1D"
  {}

  // ---------------------------------------------------------------- why a watch was dropped

  function RowAt(c: Candidate, g: GateRejection): Row { Row(c.alert.symbol, g, Some(c.id)) }

  lemma RowsForMeaning(cs: seq<Candidate>, g: GateRejection, row: Row)
    ensures row in RowsFor(cs, g) <==> exists c :: c in cs && row == RowAt(c, g)
  {
    if c :| c in cs && row == RowAt(c, g) {
      var i :| 0 <= i < |cs| && cs[i] == c;
      assert RowsFor(cs, g)[i] == row;
    }
    if row in RowsFor(cs, g) {
      var i :| 0 <= i < |cs| && RowsFor(cs, g)[i] == row;
      assert cs[i] in cs && row == RowAt(cs[i], g);
    }
  }

  /** Beside trades every watch is dropped, and the row says so. */
  lemma DroppedBesideTrades(s: Settings, db: Keyspace, watches: seq<Candidate>, prev: PrevStates, tf: string, cap: nat,
                            now: real, on: bool, row: Row)
    ensures var sel := SelectWatches(s, db, watches, true, prev, tf, cap, now, on);
      && sel.kept == []
      && (row in sel.dropped <==> exists c :: c in watches && row == RowAt(c, WATCH_DROPPED_DIRECTIONAL_PRESENT))
  {
    RowsForMeaning(watches, WATCH_DROPPED_DIRECTIONAL_PRESENT, row);
  }

  /** The watch has been emitted as often as it may be. */
  predicate Stale(s: Settings, db: Keyspace, tf: string, now: real, on: bool, c: Candidate) {
    Cycles(db, WatchKey(tf, c.alert.symbol), now, on) >= s.watchDecayCycles
  }

  /** Alone, a stale watch is dropped as decayed, and a fresh one that is not kept for the cap; no row
      names another reason, and none is about a kept watch. */
  lemma DroppedAlone(s: Settings, db: Keyspace, watches: seq<Candidate>, prev: PrevStates, tf: string, cap: nat,
                     now: real, on: bool, row: Row)
    requires InjectiveOn(multiset(watches), IdOf())
    ensures var sel := SelectWatches(s, db, watches, false, prev, tf, cap, now, on);
      row in sel.dropped
      <==> exists c :: c in watches && c !in sel.kept
                       && row == RowAt(c, if Stale(s, db, tf, now, on, c) then WATCH_DECAY else WATCH_CAP)
  {
    var ranked := RankedWatches(s, watches, prev);
    var isFresh, isStale := StillFresh(s, db, tf, now, on), Decayed(s, db, tf, now, on);
    var young, old_ := Keep(ranked, isFresh), Keep(ranked, isStale);
    SameElements(ranked, watches);
    forall c ensures c in young <==> c in watches && !Stale(s, db, tf, now, on, c)
             ensures c in old_ <==> c in watches && Stale(s, db, tf, now, on, c) {}
    KeepSplits(ranked, isFresh, isStale);
    InjectiveSub(multiset(watches), multiset(young), IdOf());
    CutPart(young, cap);
    RowsForMeaning(old_, WATCH_DECAY, row);
    RowsForMeaning(Overflow(young, cap), WATCH_CAP, row);
  }

  /** Distinct candidates are either among the best or among the overflow. */
  lemma CutPart(cs: seq<Candidate>, cap: nat)
    requires InjectiveOn(multiset(cs), IdOf())
    ensures forall c :: c in Overflow(cs, cap) <==> c in cs && c !in Best(cs, cap)
  {
    CutSplits(cs, cap);
    forall c ensures c in Overflow(cs, cap) <==> c in cs && c !in Best(cs, cap) {
      assert c in cs <==> c in multiset(cs);
      assert c in Best(cs, cap) <==> c in multiset(Best(cs, cap));
      assert c in Overflow(cs, cap) <==> c in multiset(Overflow(cs, cap));
      if c in cs { assert multiset(cs)[c] == 1; }
    }
  }
}
