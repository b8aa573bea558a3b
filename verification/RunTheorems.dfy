/** Whole-run and many-run properties of the decision engine: homogeneous output, exact accounting
    of every candidate, the best WATCHes kept, and the cycle counters over unbounded histories. */
module RunTheorems {
  import opened Prelude
  import opened GateTypes
  import opened CandidatePipeline
  import opened GateTheorems
  import opened RedisStore
  import opened ValidateAndFilter

  // ---------------------------------------------------------------- distinctness

  /** No two elements of the multiset share a value of f, and none is repeated. */
  ghost predicate InjectiveOn<T(!new), K(!new)>(m: multiset<T>, f: T -> K) {
    && (forall x, y :: x in m && y in m && f(x) == f(y) ==> x == y)
    && (forall x :: x in m ==> m[x] == 1)
  }

  lemma InjectiveSnoc<T(!new), K(!new)>(xs: seq<T>, x: T, f: T -> K)
    requires InjectiveOn(multiset(xs), f) && forall y :: y in xs ==> f(y) != f(x)
    ensures InjectiveOn(multiset(xs + [x]), f)
  {
    var m := multiset(xs + [x]);
    assert m == multiset(xs) + multiset{x};
    assert x !in xs;
    forall y | y in multiset(xs) ensures y in xs {}
  }

  lemma InjectiveSub<T(!new), K(!new)>(m: multiset<T>, sub: multiset<T>, f: T -> K)
    requires InjectiveOn(m, f) && sub <= m
    ensures InjectiveOn(sub, f)
  {
    forall x | x in sub ensures sub[x] == 1 { assert m[x] == 1; }
  }

  // ---------------------------------------------------------------- candidates and their owners

  function Ids(cs: seq<Candidate>): set<nat> { set c | c in cs :: c.id }

  function Owners(rows: seq<Row>): set<nat> { set r | r in rows && r.about.Some? :: r.about.value }

  function IdOf(): Candidate -> nat { (c: Candidate) => c.id }

  function KeyIn(tf: string): Candidate -> DedupKey {
    (c: Candidate) => DedupKey(tf, c.alert.direction, c.alert.symbol)
  }

  lemma OwnersConcat(a: seq<Row>, b: seq<Row>)
    ensures Owners(a + b) == Owners(a) + Owners(b)
  {
    forall r ensures r in a + b <==> r in a || r in b {}
  }

  lemma OwnersFor(cs: seq<Candidate>, gate: GateRejection)
    ensures Owners(RowsFor(cs, gate)) == Ids(cs)
  {
    var rows := RowsFor(cs, gate);
    forall id | id in Ids(cs) ensures id in Owners(rows) {
      var i :| 0 <= i < |cs| && cs[i].id == id;
      assert rows[i] in rows && rows[i].about == Some(id);
    }
  }

  lemma OwnersOne(c: Candidate, reasons: seq<GateRejection>)
    requires reasons != []
    ensures Owners(Rows(c, reasons)) == {c.id}
  {
    assert Rows(c, reasons)[0] in Rows(c, reasons);
  }

  /** Splitting distinct candidates splits their identities. */
  lemma SplitIds(xs: seq<Candidate>, a: seq<Candidate>, b: seq<Candidate>)
    requires multiset(xs) == multiset(a) + multiset(b) && InjectiveOn(multiset(xs), IdOf())
    ensures Ids(a) + Ids(b) == Ids(xs) && Ids(a) !! Ids(b)
    ensures InjectiveOn(multiset(a), IdOf()) && InjectiveOn(multiset(b), IdOf())
  {
    forall c ensures c in xs <==> c in a || c in b {
      assert c in xs <==> c in multiset(xs);
      assert c in a <==> c in multiset(a);
      assert c in b <==> c in multiset(b);
    }
    forall c, d | c in a && d in b ensures c.id != d.id {
      assert c in multiset(xs) && d in multiset(xs) && multiset(xs)[c] == 1;
      assert IdOf()(c) == c.id && IdOf()(d) == d.id;
    }
    InjectiveSub(multiset(xs), multiset(a), IdOf());
    InjectiveSub(multiset(xs), multiset(b), IdOf());
  }

  // ---------------------------------------------------------------- the candidate loop

  function ParseFailures(items: seq<RawItem>): nat {
    if items == [] then 0
    else ParseFailures(items[..|items| - 1]) + if ParseAlert(items[|items| - 1]).None? then 1 else 0
  }

  function TimeframeRows(items: seq<RawItem>): seq<Row> {
    if items == [] then []
    else
      TimeframeRows(items[..|items| - 1]) +
      match ParseAlert(items[|items| - 1])
      case Some(a) => if ValidTimeframe(a.timeframe) then [] else [Row(a.symbol, TIMEFRAME_INVALID, None)]
      case None => []
  }

  /** Row accounting: where every item went, and whose rows are whose. */
  ghost predicate Accounted(items: seq<RawItem>, st: Scan) {
    && |items| == ParseFailures(items) + |TimeframeRows(items)| + |st.candidates|
    && Balanced(st, multiset(TimeframeRows(items)))
  }

  function Positions(n: nat): (r: set<nat>)
    ensures forall p: nat :: p in r <==> p < n
  {
    if n == 0 then {} else Positions(n - 1) + {n - 1}
  }

  /** Identity accounting: every candidate position was accepted or owns a row, never both. */
  ghost predicate Owned(st: Scan) {
    && (forall c :: c in st.alerts ==> c.id < |st.candidates|)
    && InjectiveOn(multiset(st.alerts), IdOf())
    && Ids(st.alerts) !! Owners(st.rejections)
    && Ids(st.alerts) + Owners(st.rejections) == Positions(|st.candidates|)
  }

  /** What an item's own content says about its outcome. */
  ghost predicate Shaped(item: RawItem, o: Outcome) {
    match ParseAlert(item)
    case None => o.ParseFailed?
    case Some(a) =>
      if !ValidTimeframe(a.timeframe) then o == TimeframeRejected(a)
      else !o.ParseFailed? && !o.TimeframeRejected? && (o.Rejected? ==> o.reasons != [])
  }

  lemma OutcomesAreShaped(env: GateEnv, item: RawItem, db: Keyspace, now: real, on: bool)
    ensures Shaped(item, Evaluate(env, item, db, now, on))
  {
  }

  lemma ItemsCounted(items: seq<RawItem>, o: Outcome)
    requires items != [] && Shaped(items[|items| - 1], o)
    ensures var init := items[..|items| - 1];
      && ParseFailures(items) == ParseFailures(init) + (if o.ParseFailed? then 1 else 0)
      && TimeframeRows(items) == TimeframeRows(init)
           + (if o.TimeframeRejected? then [Row(o.alert.symbol, TIMEFRAME_INVALID, None)] else [])
  {
  }

  lemma AccountStep(items: seq<RawItem>, st: Scan, db: Keyspace, o: Outcome)
    requires items != [] && Accounted(items[..|items| - 1], st) && Shaped(items[|items| - 1], o)
    ensures Accounted(items, Absorb(st, db, o))
  {
    ItemsCounted(items, o);
    AbsorbAccounts(st, db, o, TimeframeRows(items[..|items| - 1]));
  }

  ghost predicate Balanced(st: Scan, tf: multiset<Row>) {
    multiset(st.rejections) == tf + multiset(st.directionalRejections) + multiset(st.watchRejections)
  }

  lemma RowsBalance(st: Scan, tf: multiset<Row>, c: Candidate, rows: seq<Row>)
    requires Balanced(st, tf)
    ensures Balanced(AddRows(st, c, rows), tf)
  {}

  /** One outcome adds its rows to exactly one of the three groups. */
  lemma AbsorbBalances(st: Scan, db: Keyspace, o: Outcome, tf: multiset<Row>)
    requires Balanced(st, tf)
    ensures Balanced(Absorb(st, db, o), if o.TimeframeRejected?
                                        then tf + multiset{Row(o.alert.symbol, TIMEFRAME_INVALID, None)} else tf)
  {
    match o
    case Rejected(a, reasons) =>
      var c := Candidate(|st.candidates|, a);
      RowsBalance(st.(db := db), tf, c, Rows(c, reasons));
    case DedupSuppressed(a) =>
      var c := Candidate(|st.candidates|, a);
      RowsBalance(st.(db := db, dedupSuppressed := st.dedupSuppressed + 1), tf, c,
                  [Row(a.symbol, DEDUP_SUPPRESSED, Some(c.id))]);
    case _ =>
  }

  /** ... and one candidate position, unless the item never became a candidate. */
  lemma AbsorbAccounts(st: Scan, db: Keyspace, o: Outcome, tf: seq<Row>)
    requires Balanced(st, multiset(tf))
    ensures var st' := Absorb(st, db, o);
      && |st'.candidates| == |st.candidates| + (if o.ParseFailed? || o.TimeframeRejected? then 0 else 1)
      && Balanced(st', multiset(tf + (if o.TimeframeRejected? then [Row(o.alert.symbol, TIMEFRAME_INVALID, None)]
                                      else [])))
  {
    AbsorbBalances(st, db, o, multiset(tf));
    assert tf + [] == tf;
  }

  lemma AcceptOwns(st: Scan, c: Candidate)
    requires Owned(st) && c.id == |st.candidates|
    ensures Owned(st.(candidates := st.candidates + [c], alerts := st.alerts + [c]))
  {
    InjectiveSnoc(st.alerts, c, IdOf());
    assert Ids(st.alerts + [c]) == Ids(st.alerts) + {c.id} by {
      forall d ensures d in st.alerts + [c] <==> d in st.alerts || d == c {}
    }
    assert c.id !in Positions(|st.candidates|);
  }

  lemma RejectOwns(st: Scan, c: Candidate, rows: seq<Row>)
    requires Owned(st) && c.id == |st.candidates| && Owners(rows) == {c.id}
    ensures Owned(AddRows(st, c, rows))
  {
    OwnersConcat(st.rejections, rows);
    assert c.id !in Positions(|st.candidates|);
  }

  lemma OwnStep(st: Scan, db: Keyspace, o: Outcome)
    requires Owned(st) && (o.Rejected? ==> o.reasons != [])
    ensures Owned(Absorb(st, db, o))
  {
    var id := |st.candidates|;
    var st0 := st.(db := db);
    assert Owned(st0);
    match o
    case ParseFailed =>
    case TimeframeRejected(a) =>
      var row := Row(a.symbol, TIMEFRAME_INVALID, None);
      OwnersConcat(st.rejections, [row]);
      assert Owners([row]) == {};
    case Rejected(a, reasons) =>
      OwnersOne(Candidate(id, a), reasons);
      RejectOwns(st0, Candidate(id, a), Rows(Candidate(id, a), reasons));
    case DedupSuppressed(a) =>
      RejectOwns(st0.(dedupSuppressed := st.dedupSuppressed + 1), Candidate(id, a),
                 [Row(a.symbol, DEDUP_SUPPRESSED, Some(id))]);
    case Accepted(a) =>
      AcceptOwns(st0, Candidate(id, a));
  }

  lemma {:induction false} ScanIsAccounted(env: GateEnv, items: seq<RawItem>, db: Keyspace, now: real, on: bool)
    ensures Accounted(items, ScanAll(env, items, db, now, on))
    ensures Owned(ScanAll(env, items, db, now, on))
  {
    if items != [] {
      var init, last := items[..|items| - 1], items[|items| - 1];
      var st := ScanAll(env, init, db, now, on);
      ScanIsAccounted(env, init, db, now, on);
      OutcomesAreShaped(env, last, st.db, now, on);
      var o := Evaluate(env, last, st.db, now, on);
      AccountStep(items, st, DbAfter(env, last, st.db, now, on), o);
      OwnStep(st, DbAfter(env, last, st.db, now, on), o);
    }
  }

  // ---------------------------------------------------------------- the WATCH policy

  lemma CutSplits(cs: seq<Candidate>, cap: nat)
    ensures multiset(cs) == multiset(Best(cs, cap)) + multiset(Overflow(cs, cap))
  {
    if |cs| > cap { assert cs == cs[..cap] + cs[cap..]; } else { assert multiset(Overflow(cs, cap)) == multiset{}; }
  }

  lemma SelectedAreSub(s: Settings, db: Keyspace, watches: seq<Candidate>, prev: PrevStates, tf: string,
                       cap: nat, now: real, on: bool)
    ensures multiset(SelectWatches(s, db, watches, false, prev, tf, cap, now, on).kept) <= multiset(watches)
  {
    var ranked := RankedWatches(s, watches, prev);
    KeepSplits(ranked, StillFresh(s, db, tf, now, on), Decayed(s, db, tf, now, on));
    CutSplits(Keep(ranked, StillFresh(s, db, tf, now, on)), cap);
  }

  /** The watches split into the kept ones and the owners of the dropped rows. */
  lemma SelectionSplits(s: Settings, db: Keyspace, watches: seq<Candidate>, any: bool, prev: PrevStates, tf: string,
                        cap: nat, now: real, on: bool)
    requires InjectiveOn(multiset(watches), IdOf())
    ensures var sel := SelectWatches(s, db, watches, any, prev, tf, cap, now, on);
      Ids(sel.kept) + Owners(sel.dropped) == Ids(watches) && Ids(sel.kept) !! Owners(sel.dropped)
  {
    if any {
      OwnersFor(watches, WATCH_DROPPED_DIRECTIONAL_PRESENT);
      assert Ids([]) == {};
    } else {
      var ranked := RankedWatches(s, watches, prev);
      KeepSplits(ranked, StillFresh(s, db, tf, now, on), Decayed(s, db, tf, now, on));
      DecaySplits(watches, Keep(ranked, StillFresh(s, db, tf, now, on)), Keep(ranked, Decayed(s, db, tf, now, on)),
                  cap);
    }
  }

  lemma DecaySplits(watches: seq<Candidate>, young: seq<Candidate>, old_: seq<Candidate>, cap: nat)
    requires InjectiveOn(multiset(watches), IdOf())
    requires multiset(watches) == multiset(young) + multiset(old_)
    ensures var kept := Best(young, cap);
            var dropped := RowsFor(old_, WATCH_DECAY) + RowsFor(Overflow(young, cap), WATCH_CAP);
      Ids(kept) + Owners(dropped) == Ids(watches) && Ids(kept) !! Owners(dropped)
  {
    SplitIds(watches, young, old_);
    CutSplits(young, cap);
    SplitIds(young, Best(young, cap), Overflow(young, cap));
    OwnersFor(old_, WATCH_DECAY);
    OwnersFor(Overflow(young, cap), WATCH_CAP);
    OwnersConcat(RowsFor(old_, WATCH_DECAY), RowsFor(Overflow(young, cap), WATCH_CAP));
  }

  lemma {:induction false} CommitKeepsIds(s: Settings, db: Keyspace, kept: seq<Candidate>, prev: PrevStates, tf: string,
                                          now: real, on: bool)
    ensures var done := CommitWatches(s, db, kept, prev, tf, now, on).emitted;
      && |done| == |kept|
      && (forall i :: 0 <= i < |kept| ==>
            && done[i].id == kept[i].id
            && done[i].alert == kept[i].alert.(thesis := done[i].alert.thesis))
  {
    if kept != [] { CommitKeepsIds(s, db, kept[..|kept| - 1], prev, tf, now, on); }
  }

  lemma SameIds(a: seq<Candidate>, b: seq<Candidate>)
    requires |a| == |b| && forall i :: 0 <= i < |a| ==> a[i].id == b[i].id
    ensures Ids(a) == Ids(b)
  {
    forall id | id in Ids(a) ensures id in Ids(b) {
      var i :| 0 <= i < |a| && a[i].id == id;
      assert b[i] in b;
    }
    forall id | id in Ids(b) ensures id in Ids(a) {
      var i :| 0 <= i < |b| && b[i].id == id;
      assert a[i] in a;
    }
  }

  lemma FinishIsAccounted(env: GateEnv, st: Scan, now: real, on: bool, cap: nat)
    requires Owned(st)
    ensures var r := Finish(env, st, now, on, cap);
      && Ids(r.alerts) + Owners(r.rejections) == Positions(|st.candidates|)
      && Ids(r.alerts) !! Owners(r.rejections)
  {
    var s := env.settings;
    var directional, watches := Keep(st.alerts, IsDirectional()), Keep(st.alerts, IsWatch());
    KeepSplits(st.alerts, IsDirectional(), IsWatch());
    SplitIds(st.alerts, directional, watches);
    var prev := PrevStatesOf(st.db, watches, env.timeframe, now, on);
    SelectionSplits(s, st.db, watches, directional != [], prev, env.timeframe, cap, now, on);
    var sel := SelectWatches(s, st.db, watches, directional != [], prev, env.timeframe, cap, now, on);
    CommitKeepsIds(s, st.db, sel.kept, prev, env.timeframe, now, on);
    var done := CommitWatches(s, st.db, sel.kept, prev, env.timeframe, now, on);
    SameIds(done.emitted, sel.kept);
    OwnersConcat(st.rejections, sel.dropped);
    IdsConcat(directional, done.emitted);
    Partition(Ids(directional), Ids(watches), Owners(st.rejections), Ids(sel.kept), Owners(sel.dropped),
              Positions(|st.candidates|));
  }

  /** Refining one part of a partition in two. */
  lemma Partition(a: set<nat>, b: set<nat>, c: set<nat>, b1: set<nat>, b2: set<nat>, all: set<nat>)
    requires a + b + c == all && a !! b && (a + b) !! c && b1 + b2 == b && b1 !! b2
    ensures (a + b1) + (c + b2) == all && (a + b1) !! (c + b2)
  {}

  /** Every item is accounted for; every candidate position is emitted or owns at least one
      rejection row, never both; and the rows are exactly the timeframe, directional and watch
      rows together. */
  lemma RunIsAccounted(env: GateEnv, items: seq<RawItem>, db: Keyspace, now: real, on: bool, cap: nat)
    ensures var r := Run(env, items, db, now, on, cap);
      && |items| == ParseFailures(items) + |TimeframeRows(items)| + |r.scan.candidates|
      && Ids(r.alerts) + Owners(r.rejections) == Positions(|r.scan.candidates|)
      && Ids(r.alerts) !! Owners(r.rejections)
      && multiset(r.rejections)
         == multiset(TimeframeRows(items)) + multiset(r.scan.directionalRejections) + multiset(r.watchRejections)
      && |r.alerts| == r.directionalPassed + r.watchKept
  {
    ScanIsAccounted(env, items, db, now, on);
    FinishIsAccounted(env, ScanAll(env, items, db, now, on), now, on, cap);
  }

  lemma IdsConcat(a: seq<Candidate>, b: seq<Candidate>)
    ensures Ids(a + b) == Ids(a) + Ids(b)
  {
    forall c ensures c in a + b <==> c in a || c in b {}
  }

  /** A run never mixes trades with watches, and emits at most `cap` watches. */
  lemma OutputIsHomogeneous(env: GateEnv, st: Scan, now: real, on: bool, cap: nat)
    ensures var out := Finish(env, st, now, on, cap).alerts;
      || (forall c :: c in out ==> Directional(c.alert))
      || ((forall c :: c in out ==> !Directional(c.alert)) && |out| <= cap)
  {
    var s := env.settings;
    var directional, watches := Keep(st.alerts, IsDirectional()), Keep(st.alerts, IsWatch());
    var prev := PrevStatesOf(st.db, watches, env.timeframe, now, on);
    var sel := SelectWatches(s, st.db, watches, directional != [], prev, env.timeframe, cap, now, on);
    var done := CommitWatches(s, st.db, sel.kept, prev, env.timeframe, now, on).emitted;
    if directional == [] {
      KeptWatches(s, st.db, watches, prev, env.timeframe, cap, now, on);
      CommitKeepsIds(s, st.db, sel.kept, prev, env.timeframe, now, on);
      SameDirections(done, sel.kept);
      assert directional + done == done;
    } else {
      assert done == [] && directional + done == directional;
    }
  }

  lemma SameDirections(done: seq<Candidate>, kept: seq<Candidate>)
    requires |done| == |kept| && forall i :: 0 <= i < |kept| ==> done[i].alert.direction == kept[i].alert.direction
    requires forall c :: c in kept ==> !Directional(c.alert)
    ensures forall c :: c in done ==> !Directional(c.alert)
  {
    forall c | c in done ensures !Directional(c.alert) {
      var i :| 0 <= i < |done| && done[i] == c;
      assert kept[i] in kept;
    }
  }

  lemma KeptWatches(s: Settings, db: Keyspace, watches: seq<Candidate>, prev: PrevStates, tf: string, cap: nat,
                    now: real, on: bool)
    ensures var kept := SelectWatches(s, db, watches, false, prev, tf, cap, now, on).kept;
      && |kept| <= cap
      && forall c :: c in kept ==>
           (c in watches && Cycles(db, WatchKey(tf, c.alert.symbol), now, on) < s.watchDecayCycles)
  {
    var ranked, isFresh := RankedWatches(s, watches, prev), StillFresh(s, db, tf, now, on);
    SameElements(ranked, watches);
    forall c | c in Best(Keep(ranked, isFresh), cap) ensures c in watches && isFresh(c) {
      assert c in Keep(ranked, isFresh);
    }
  }

  lemma BestOfRanked(ranked: seq<Candidate>, young: seq<Candidate>, cap: nat, score: Candidate -> real)
    requires NonIncreasing(young, score)
    ensures var kept := Best(young, cap);
      && NonIncreasing(kept, score)
      && forall c, k :: c in young && c !in kept && k in kept ==> score(k) >= score(c)
  {
    if |young| > cap {
      CutKeepsBest(young, cap, score);
      assert young == young[..cap] + young[cap..];
    }
  }

  /** The kept watches are the best `cap` of those not decayed, by boosted score: they come in
      non-increasing order and no omitted fresh watch scores above a kept one. */
  lemma KeptWatchesAreBest(s: Settings, db: Keyspace, watches: seq<Candidate>, prev: PrevStates, tf: string, cap: nat,
                           now: real, on: bool)
    ensures var kept := SelectWatches(s, db, watches, false, prev, tf, cap, now, on).kept;
            var score, isFresh := BoostedScore(s, prev), StillFresh(s, db, tf, now, on);
      && NonIncreasing(kept, score)
      && |kept| == (if |Keep(watches, isFresh)| < cap then |Keep(watches, isFresh)| else cap)
      && forall c, k :: c in watches && isFresh(c) && c !in kept && k in kept ==> score(k) >= score(c)
  {
    var score, isFresh := BoostedScore(s, prev), StillFresh(s, db, tf, now, on);
    var ranked := RankedWatches(s, watches, prev);
    SortDescSpec(watches, score);
    KeepSorted(ranked, isFresh, score);
    KeepPermutes(ranked, watches, isFresh);
    BestOfRanked(ranked, Keep(ranked, isFresh), cap, score);
  }

  /** Spelled out: a fresh watch left out beside a kept one has no more edge times confidence, once a
      watch whose edge has risen above its previous one counts with the promotion factor. */
  lemma OmittedWatchIsWeaker(s: Settings, db: Keyspace, watches: seq<Candidate>, prev: PrevStates, tf: string, cap: nat,
                             now: real, on: bool, c: Candidate, k: Candidate)
    requires var kept := SelectWatches(s, db, watches, false, prev, tf, cap, now, on).kept; k in kept && c !in kept
    requires c in watches && Cycles(db, WatchKey(tf, c.alert.symbol), now, on) < s.watchDecayCycles
    ensures var a, b := c.alert, k.alert;
            var promoted := a.symbol in prev && prev[a.symbol].Some? && a.edgeProbability > prev[a.symbol].value;
            var promoted' := b.symbol in prev && prev[b.symbol].Some? && b.edgeProbability > prev[b.symbol].value;
      Times(Times(b.edgeProbability, b.confidence), if promoted' then s.watchPromotionMult else 1.0)
      >= Times(Times(a.edgeProbability, a.confidence), if promoted then s.watchPromotionMult else 1.0)
  {
    KeptWatchesAreBest(s, db, watches, prev, tf, cap, now, on);
    assert StillFresh(s, db, tf, now, on)(c);
    BoostedScoreIs(s, prev, c);
    BoostedScoreIs(s, prev, k);
  }

  lemma BoostedScoreIs(s: Settings, prev: PrevStates, c: Candidate)
    ensures BoostedScore(s, prev)(c)
         == Times(Times(c.alert.edgeProbability, c.alert.confidence),
                  if Improving(c.alert, prev) then s.watchPromotionMult else 1.0)
  {}

  lemma KeepPermutes<T(!new)>(xs: seq<T>, ys: seq<T>, p: T -> bool)
    requires multiset(xs) == multiset(ys)
    ensures multiset(Keep(xs, p)) == multiset(Keep(ys, p))
    ensures |Keep(xs, p)| == |Keep(ys, p)|
  {
    forall x ensures multiset(Keep(xs, p))[x] == multiset(Keep(ys, p))[x] {
      KeepMultiplicity(xs, p, x);
      KeepMultiplicity(ys, p, x);
    }
    SameElements(Keep(xs, p), Keep(ys, p));
  }

  lemma {:induction false} KeepMultiplicity<T(!new)>(xs: seq<T>, p: T -> bool, x: T)
    ensures multiset(Keep(xs, p))[x] == if p(x) then multiset(xs)[x] else 0
  {
    if xs != [] {
      KeepMultiplicity(xs[1..], p, x);
      assert xs == [xs[0]] + xs[1..];
    }
  }

  // ---------------------------------------------------------------- emitted alerts are gated alerts

  /** Each emitted alert is the final form of some item that passed every gate, unchanged but for a
      WATCH's thesis. With the safety of accepted alerts, nothing the gates forbid is ever emitted;
      in particular no trade when VIX is above 30. */
  lemma EmittedPassedTheGates(env: GateEnv, items: seq<RawItem>, db: Keyspace, now: real, on: bool, cap: nat,
                              c: Candidate) returns (a: Alert)
    requires c in Run(env, items, db, now, on, cap).alerts
    ensures Passes(env, a) && ValidTimeframe(a.timeframe)
    ensures exists i :: 0 <= i < |items| && ParseAlert(items[i]) == Some(a)
    ensures c.alert == FinalAlert(env, a).(thesis := c.alert.thesis)
    ensures Directional(c.alert) ==> c.alert == FinalAlert(env, a) && env.vix <= 30.0
  {
    var d := EmittedWasAccepted(env, ScanAll(env, items, db, now, on), now, on, cap, c);
    a := AcceptedCameFromItem(env, items, db, now, on, d);
    assert !Fails(env, a, VIX_HARD);
  }

  /** A run under a VIX above 30 emits no trade; a VIX that is not a number counts as 35. */
  lemma StressedRunEmitsNoTrade(env: GateEnv, s: Settings, snaps: seq<Snapshot>, refPrices: map<string, real>,
                                riskOff: bool, vix: Num, tf: string, session: Session, items: seq<RawItem>,
                                db: Keyspace, now: real, on: bool, cap: nat)
    requires IsEnvironment(env, s, snaps, refPrices, riskOff, vix, tf, session)
    requires vix.NonFinite? || vix.value > 30.0
    ensures forall c :: c in Run(env, items, db, now, on, cap).alerts ==> !Directional(c.alert)
  {
    forall c | c in Run(env, items, db, now, on, cap).alerts ensures !Directional(c.alert) {
      var _ := EmittedPassedTheGates(env, items, db, now, on, cap, c);
    }
  }

  lemma EmittedWasAccepted(env: GateEnv, st: Scan, now: real, on: bool, cap: nat, c: Candidate) returns (d: Candidate)
    requires c in Finish(env, st, now, on, cap).alerts
    ensures d in st.alerts && d.id == c.id
    ensures c.alert == if Directional(d.alert) then d.alert else d.alert.(thesis := c.alert.thesis)
  {
    var s := env.settings;
    var directional, watches := Keep(st.alerts, IsDirectional()), Keep(st.alerts, IsWatch());
    var prev := PrevStatesOf(st.db, watches, env.timeframe, now, on);
    var sel := SelectWatches(s, st.db, watches, directional != [], prev, env.timeframe, cap, now, on);
    var done := CommitWatches(s, st.db, sel.kept, prev, env.timeframe, now, on);
    CommitKeepsIds(s, st.db, sel.kept, prev, env.timeframe, now, on);
    d := c;
    if c !in directional {
      var i :| 0 <= i < |done.emitted| && done.emitted[i] == c;
      d := sel.kept[i];
      assert d in sel.kept;
      KeptWatches(s, st.db, watches, prev, env.timeframe, cap, now, on);
      assert d in watches;
    }
  }

  lemma {:induction false} AcceptedCameFromItem(env: GateEnv, items: seq<RawItem>, db: Keyspace, now: real, on: bool,
                                                c: Candidate) returns (a: Alert)
    requires c in ScanAll(env, items, db, now, on).alerts
    ensures Passes(env, a) && ValidTimeframe(a.timeframe)
    ensures exists i :: 0 <= i < |items| && ParseAlert(items[i]) == Some(a)
    ensures c.alert == FinalAlert(env, a)
  {
    var n := |items| - 1;
    var st := ScanAll(env, items[..n], db, now, on);
    if c in st.alerts {
      a := AcceptedCameFromItem(env, items[..n], db, now, on, c);
      var i :| 0 <= i < n && ParseAlert(items[..n][i]) == Some(a);
      assert ParseAlert(items[i]) == Some(a);
    } else {
      a := ParseAlert(items[n]).value;
      var key := KeyOf(env, Journey(env, a).alert);
      VerdictMeaning(env, a, Suppressed(env.settings, st.db, key, now, on));
      assert ParseAlert(items[n]) == Some(a);
    }
  }

  // ---------------------------------------------------------------- emitted alerts are valid alerts

  /** The item an alert is handed on as. */
  function ItemOf(a: Alert): RawItem {
    Item(a.symbol, Some(a.direction), Finite(a.edgeProbability), Finite(a.confidence), a.timeframe, a.thesis,
         map["level" := Finite(a.entry.level), "stop" := Finite(a.entry.stop), "target" := Finite(a.entry.target)],
         a.sourcesAgree)
  }

  /** Penalties lower confidence, ceilings are probabilities, and what passes is not almost hopeless. */
  ghost predicate KeepsAlertsValid(env: GateEnv) {
    var s := env.settings;
    && s.extendedHoursPenalty <= 0.0 && s.cfg.volumeConfirmPenalty >= 0.0 && s.cfg.volumeConfirmPenaltyChoppy >= 0.0
    && (forall n :: n in s.epCeiling ==> 0.0 <= s.epCeiling[n] <= 1.0)
    && env.confGate >= 0.15 && s.cfg.watchConfMin >= 0.15
  }

  lemma DefaultsKeepAlertsValid(env: GateEnv, regime: Regime)
    requires env.settings == DEFAULT_SETTINGS
    ensures KeepsAlertsValid(Under(env, regime))
  {}

  /** With confidence at 0.15 or more the validator's two contradictions cannot arise. */
  lemma ConfidentEnough(ep: real, conf: real)
    requires ep <= 1.0 && conf >= 0.15
    ensures EdgeMatchesConfidence(ep, conf)
  {}

  lemma FinalRanges(env: GateEnv, a: Alert)
    requires KeepsAlertsValid(env) && Passes(env, a)
    requires 0.0 <= a.edgeProbability <= 1.0 && 0.0 <= a.confidence <= 1.0
    ensures var f := FinalAlert(env, a);
      0.0 <= f.edgeProbability <= 1.0 && 0.15 <= f.confidence <= 1.0 && f.sourcesAgree >= 0
  {
    assert !Fails(env, a, CONF_THRESHOLD) && !Fails(env, a, WATCH_CONF_THRESHOLD);
    assert !Fails(env, a, VOLUME_UNCONFIRMED);
  }

  lemma Reparses(a: Alert)
    requires 0.0 <= a.edgeProbability <= 1.0 && 0.15 <= a.confidence <= 1.0 && a.sourcesAgree >= 0
    requires HasValidOrdering(a.entry, a.direction)
    ensures ParseAlert(ItemOf(a)) == Some(a)
  {
    ConfidentEnough(a.edgeProbability, a.confidence);
  }

  lemma ParsedRanges(item: RawItem, a: Alert)
    requires ParseAlert(item) == Some(a)
    ensures 0.0 <= a.edgeProbability <= 1.0 && 0.0 <= a.confidence <= 1.0 && HasValidOrdering(a.entry, a.direction)
  {}

  /** Every alert a run emits is one the notifier's validators accept unchanged, although the gates have
      lowered its edge and confidence since it was first validated. */
  lemma EmittedAlertsReparse(env: GateEnv, items: seq<RawItem>, db: Keyspace, now: real, on: bool, cap: nat,
                             c: Candidate)
    requires KeepsAlertsValid(env) && c in Run(env, items, db, now, on, cap).alerts
    ensures ParseAlert(ItemOf(c.alert)) == Some(c.alert)
  {
    var a := EmittedPassedTheGates(env, items, db, now, on, cap, c);
    var i :| 0 <= i < |items| && ParseAlert(items[i]) == Some(a);
    ParsedRanges(items[i], a);
    FinalRanges(env, a);
    Reparses(c.alert);
  }
}
