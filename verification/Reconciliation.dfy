/** Deterministic evidence indexes built from the merged snapshots (gates/reconciliation.py and
    the score extractors of gates/rr_volume.py). */
module Reconciliation {
  import opened Prelude
  import opened GateTypes

  /** One signal together with the symbol it was reported for. */
  datatype Report = Report(symbol: string, sig: Signal)

  function Tag(symbol: string, sigs: seq<Signal>): (r: seq<Report>)
    ensures |r| == |sigs|
  {
    seq(|sigs|, i requires 0 <= i < |sigs| => Report(symbol, sigs[i]))
  }

  function Reports(snaps: seq<Snapshot>): seq<Report> {
    if snaps == [] then []
    else
      var last := snaps[|snaps| - 1];
      Reports(snaps[..|snaps| - 1]) + Tag(last.symbol, last.signals)
  }

  lemma ReportsPrefix(snaps: seq<Snapshot>, i: nat)
    requires i < |snaps|
    ensures Reports(snaps[..i + 1]) == Reports(snaps[..i]) + Tag(snaps[i].symbol, snaps[i].signals)
  {
    assert snaps[..i + 1][..i] == snaps[..i];
  }

  lemma TagPrefix(symbol: string, sigs: seq<Signal>, j: nat)
    requires j < |sigs|
    ensures Tag(symbol, sigs[..j + 1]) == Tag(symbol, sigs[..j]) + [Report(symbol, sigs[j])]
  {
  }

  // ---------------------------------------------------------------- signal-type index

  function AddType(index: map<string, set<SignalType>>, r: Report): map<string, set<SignalType>> {
    index[r.symbol := (if r.symbol in index then index[r.symbol] else {}) + {r.sig.kind}]
  }

  function TypeIndex(rs: seq<Report>): map<string, set<SignalType>> {
    if rs == [] then map[] else AddType(TypeIndex(rs[..|rs| - 1]), rs[|rs| - 1])
  }

  lemma TypeIndexSnoc(rs: seq<Report>, r: Report)
    ensures TypeIndex(rs + [r]) == AddType(TypeIndex(rs), r)
  {
    assert (rs + [r])[..|rs|] == rs;
  }

  method IndexSnapshot(ghost before: seq<Report>, snap: Snapshot, index: map<string, set<SignalType>>)
    returns (index': map<string, set<SignalType>>)
    requires index == TypeIndex(before)
    ensures index' == TypeIndex(before + Tag(snap.symbol, snap.signals))
  {
    index' := index;
    var sigs := snap.signals;
    assert before + Tag(snap.symbol, sigs[..0]) == before;
    for j := 0 to |sigs|
      invariant index' == TypeIndex(before + Tag(snap.symbol, sigs[..j]))
    {
      var known := if snap.symbol in index' then index'[snap.symbol] else {};
      TypeIndexSnoc(before + Tag(snap.symbol, sigs[..j]), Report(snap.symbol, sigs[j]));
      TagPrefix(snap.symbol, sigs, j);
      assert before + Tag(snap.symbol, sigs[..j + 1])
          == (before + Tag(snap.symbol, sigs[..j])) + [Report(snap.symbol, sigs[j])];
      index' := index'[snap.symbol := known + {sigs[j].kind}];
    }
    assert sigs[..|sigs|] == sigs;
  }

  /** A symbol is indexed exactly when some snapshot reports a signal for it, and then under
      exactly the signal types reported. */
  method BuildSnapTypeIndex(snaps: seq<Snapshot>) returns (index: map<string, set<SignalType>>)
    ensures index == TypeIndex(Reports(snaps))
    ensures forall sym :: sym in index <==> exists r :: r in Reports(snaps) && r.symbol == sym
    ensures forall sym, k :: sym in index ==>
              (k in index[sym] <==> exists r :: r in Reports(snaps) && r.symbol == sym && r.sig.kind == k)
  {
    index := map[];
    for i := 0 to |snaps|
      invariant index == TypeIndex(Reports(snaps[..i]))
    {
      ReportsPrefix(snaps, i);
      index := IndexSnapshot(Reports(snaps[..i]), snaps[i], index);
    }
    assert snaps[..|snaps|] == snaps;
    TypeIndexMeaning(Reports(snaps));
  }

  function TypesOf(rs: seq<Report>, sym: string): set<SignalType> {
    set r | r in rs && r.symbol == sym :: r.sig.kind
  }

  lemma {:induction false} TypeIndexMeaning(rs: seq<Report>)
    ensures forall sym :: sym in TypeIndex(rs) <==> exists r :: r in rs && r.symbol == sym
    ensures forall sym :: sym in TypeIndex(rs) ==> TypeIndex(rs)[sym] == TypesOf(rs, sym)
  {
    if rs != [] {
      var init, last := rs[..|rs| - 1], rs[|rs| - 1];
      TypeIndexMeaning(init);
      assert rs == init + [last];
      forall sym ensures sym in TypeIndex(rs) <==> exists r :: r in rs && r.symbol == sym {
        if sym == last.symbol { assert last in rs; }
        if r :| r in rs && r.symbol == sym && sym != last.symbol { assert r in init; }
        if r :| r in init && r.symbol == sym { assert r in rs; }
      }
      forall sym | sym in TypeIndex(rs) ensures TypeIndex(rs)[sym] == TypesOf(rs, sym) {
        if sym !in TypeIndex(init) { assert TypesOf(init, sym) == {}; }
        assert TypesOf(rs, sym) == TypesOf(init, sym) + (if last.symbol == sym then {last.sig.kind} else {});
      }
    }
  }

  // ---------------------------------------------------------------- family means

  function FamilyOf(k: SignalType): Option<Family> {
    match k
    case TechnicalTrend => Some(TrendFamily)
    case RelativeStrength => Some(TrendFamily)
    case PriceForecast => Some(TrendFamily)
    case VolumeSpike => Some(VolumeFamily)
    case SentimentBull => Some(SentimentFamily)
    case SentimentBear => Some(SentimentFamily)
    case OptionsFlow => Some(FlowFamily)
    case InsiderActivity => Some(EventsFamily)
    case CatalystEvent => Some(EventsFamily)
    case MacroRiskOff => Some(MacroFamily)
    case ShortInterest => Some(PositioningFamily)
    case OtherType(_) => None
  }

  /** sentiment_bear always counts against LONG; macro_risk_off keeps its sign but inverted. */
  function DirectionalScore(k: SignalType, score: real): real {
    match k
    case SentimentBear => -Abs(score)
    case MacroRiskOff => -score
    case _ => score
  }

  predicate Scorable(r: Report) { r.symbol != "" && FamilyOf(r.sig.kind).Some? && r.sig.score.Some? }

  predicate InFamily(r: Report, sym: string, fam: Family) {
    Scorable(r) && r.symbol == sym && FamilyOf(r.sig.kind) == Some(fam)
  }

  function ReportScore(r: Report): real
    requires Scorable(r)
  {
    DirectionalScore(r.sig.kind, r.sig.score.value)
  }

  type FamilyLists = map<string, map<Family, seq<real>>>

  function ListFor(acc: FamilyLists, sym: string, fam: Family): seq<real> {
    if sym in acc && fam in acc[sym] then acc[sym][fam] else []
  }

  function AddScore(acc: FamilyLists, r: Report): FamilyLists {
    if !Scorable(r) then acc
    else
      var fam := FamilyOf(r.sig.kind).value;
      var fams := if r.symbol in acc then acc[r.symbol] else map[];
      acc[r.symbol := fams[fam := ListFor(acc, r.symbol, fam) + [ReportScore(r)]]]
  }

  function Accumulate(rs: seq<Report>): FamilyLists {
    if rs == [] then map[] else AddScore(Accumulate(rs[..|rs| - 1]), rs[|rs| - 1])
  }

  lemma AccumulateSnoc(rs: seq<Report>, r: Report)
    ensures Accumulate(rs + [r]) == AddScore(Accumulate(rs), r)
  {
    assert (rs + [r])[..|rs|] == rs;
  }

  /** The directional scores reported for one symbol and family, in order. */
  function ScoresOf(rs: seq<Report>, sym: string, fam: Family): seq<real> {
    if rs == [] then []
    else
      var last := rs[|rs| - 1];
      ScoresOf(rs[..|rs| - 1], sym, fam) + (if InFamily(last, sym, fam) then [ReportScore(last)] else [])
  }

  lemma {:induction false} AccumulateMeaning(rs: seq<Report>)
    ensures forall sym, fam :: ListFor(Accumulate(rs), sym, fam) == ScoresOf(rs, sym, fam)
    ensures forall sym :: sym in Accumulate(rs) ==> exists fam :: fam in Accumulate(rs)[sym]
    ensures forall sym, fam :: sym in Accumulate(rs) && fam in Accumulate(rs)[sym] ==> Accumulate(rs)[sym][fam] != []
  {
    if rs != [] {
      var last := rs[|rs| - 1];
      AccumulateMeaning(rs[..|rs| - 1]);
      if Scorable(last) {
        assert FamilyOf(last.sig.kind).value in Accumulate(rs)[last.symbol];
      }
    }
  }

  lemma EntryMeaning(rs: seq<Report>, sym: string, fam: Family)
    ensures ScoresOf(rs, sym, fam) != [] <==> sym in Accumulate(rs) && fam in Accumulate(rs)[sym]
    ensures ScoresOf(rs, sym, fam) != [] ==> Accumulate(rs)[sym][fam] == ScoresOf(rs, sym, fam)
  {
    AccumulateMeaning(rs);
    assert ListFor(Accumulate(rs), sym, fam) == ScoresOf(rs, sym, fam);
  }

  lemma SymbolHasEntry(rs: seq<Report>, sym: string) returns (fam: Family)
    requires sym in Accumulate(rs)
    ensures fam in Accumulate(rs)[sym]
  {
    AccumulateMeaning(rs);
    fam :| fam in Accumulate(rs)[sym];
  }

  method AccumulateSnapshot(ghost before: seq<Report>, snap: Snapshot, acc: FamilyLists) returns (acc': FamilyLists)
    requires acc == Accumulate(before)
    ensures acc' == Accumulate(before + Tag(snap.symbol, snap.signals))
  {
    acc' := acc;
    var sigs := snap.signals;
    assert before + Tag(snap.symbol, sigs[..0]) == before;
    for j := 0 to |sigs|
      invariant acc' == Accumulate(before + Tag(snap.symbol, sigs[..j]))
    {
      var sig := sigs[j];
      AccumulateSnoc(before + Tag(snap.symbol, sigs[..j]), Report(snap.symbol, sig));
      TagPrefix(snap.symbol, sigs, j);
      assert before + Tag(snap.symbol, sigs[..j + 1])
          == (before + Tag(snap.symbol, sigs[..j])) + [Report(snap.symbol, sig)];
      if snap.symbol != "" && FamilyOf(sig.kind).Some? && sig.score.Some? {
        var fam := FamilyOf(sig.kind).value;
        var fams := if snap.symbol in acc' then acc'[snap.symbol] else map[];
        var scores := if fam in fams then fams[fam] else [];
        acc' := acc'[snap.symbol := fams[fam := scores + [DirectionalScore(sig.kind, sig.score.value)]]];
      }
    }
    assert sigs[..|sigs|] == sigs;
  }

  function MeansOf(lists: map<Family, seq<real>>): map<Family, real> {
    map fam | fam in lists && lists[fam] != [] :: Mean(lists[fam])
  }

  ghost predicate MeanEntry(means: map<string, map<Family, real>>, rs: seq<Report>, sym: string, fam: Family) {
    && (ScoresOf(rs, sym, fam) != [] <==> sym in means && fam in means[sym])
    && (ScoresOf(rs, sym, fam) != [] ==> means[sym][fam] == Mean(ScoresOf(rs, sym, fam)))
  }

  /** The family means as the reports define them, without any accumulator: an entry exactly for
      the symbols and families with a usable score, holding the mean of those scores. */
  ghost predicate AreFamilyMeans(means: map<string, map<Family, real>>, rs: seq<Report>) {
    && (forall sym, fam :: MeanEntry(means, rs, sym, fam))
    && (forall sym :: sym in means ==> exists fam :: fam in means[sym])
  }

  lemma MeansEntry(acc: FamilyLists, means: map<string, map<Family, real>>, rs: seq<Report>, sym: string, fam: Family)
    requires acc == Accumulate(rs) && means.Keys == acc.Keys
    requires sym in means ==> means[sym] == MeansOf(acc[sym])
    ensures MeanEntry(means, rs, sym, fam)
  {
    EntryMeaning(rs, sym, fam);
    AccumulateMeaning(rs);
  }

  lemma FamilyMeansMeaning(acc: FamilyLists, means: map<string, map<Family, real>>, rs: seq<Report>)
    requires acc == Accumulate(rs) && means.Keys == acc.Keys
    requires forall sym :: sym in means ==> means[sym] == MeansOf(acc[sym])
    ensures AreFamilyMeans(means, rs)
  {
    forall sym, fam ensures MeanEntry(means, rs, sym, fam) {
      MeansEntry(acc, means, rs, sym, fam);
    }
    forall sym | sym in means ensures exists fam :: fam in means[sym] {
      var fam := SymbolHasEntry(rs, sym);
      assert MeanEntry(means, rs, sym, fam);
      EntryMeaning(rs, sym, fam);
    }
  }

  method BuildSymbolFamilyScores(snaps: seq<Snapshot>) returns (means: map<string, map<Family, real>>)
    ensures AreFamilyMeans(means, Reports(snaps))
  {
    var acc: FamilyLists := map[];
    for i := 0 to |snaps|
      invariant acc == Accumulate(Reports(snaps[..i]))
    {
      ReportsPrefix(snaps, i);
      acc := AccumulateSnapshot(Reports(snaps[..i]), snaps[i], acc);
    }
    assert snaps[..|snaps|] == snaps;
    means := map[];
    var todo := acc.Keys;
    while todo != {}
      invariant todo <= acc.Keys && means.Keys == acc.Keys - todo
      invariant forall sym :: sym in means ==> means[sym] == MeansOf(acc[sym])
      decreases todo
    {
      var sym :| sym in todo;
      means := means[sym := MeansOf(acc[sym])];
      todo := todo - {sym};
    }
    FamilyMeansMeaning(acc, means, Reports(snaps));
  }

  // ---------------------------------------------------------------- order independence

  function Total<T>(xs: seq<T>, w: T -> real): real {
    if xs == [] then 0.0 else Total(xs[..|xs| - 1], w) + w(xs[|xs| - 1])
  }

  lemma {:induction false} TotalRemove<T>(xs: seq<T>, i: nat, w: T -> real)
    requires i < |xs|
    ensures Total(xs, w) == Total(xs[..i] + xs[i + 1..], w) + w(xs[i])
  {
    var n := |xs| - 1;
    if i == n {
      assert xs[..i] + xs[i + 1..] == xs[..n];
    } else {
      var rest := xs[..i] + xs[i + 1..];
      TotalRemove(xs[..n], i, w);
      assert rest[..n - 1] == xs[..n][..i] + xs[..n][i + 1..] && rest[n - 1] == xs[n];
    }
  }

  lemma LocateLast<T>(xs: seq<T>, ys: seq<T>) returns (i: nat)
    requires multiset(xs) == multiset(ys) && xs != []
    ensures i < |ys| && ys[i] == xs[|xs| - 1]
    ensures multiset(xs[..|xs| - 1]) == multiset(ys[..i] + ys[i + 1..])
  {
    var last := xs[|xs| - 1];
    SameElements(xs, ys);
    assert last in ys;
    i :| 0 <= i < |ys| && ys[i] == last;
    assert xs == xs[..|xs| - 1] + [last];
    assert ys == ys[..i] + ([last] + ys[i + 1..]);
    var a, b := multiset(xs[..|xs| - 1]), multiset(ys[..i] + ys[i + 1..]);
    assert a + multiset{last} == multiset(xs) == multiset(ys) == b + multiset{last};
    assert a == (a + multiset{last}) - multiset{last} == b;
  }

  lemma {:induction false} TotalPermutes<T>(xs: seq<T>, ys: seq<T>, w: T -> real)
    requires multiset(xs) == multiset(ys)
    ensures Total(xs, w) == Total(ys, w)
  {
    SameElements(xs, ys);
    if xs != [] {
      var n := |xs| - 1;
      assert xs == xs[..n] + [xs[n]];
      var i := LocateLast(xs, ys);
      TotalRemove(ys, i, w);
      TotalPermutes(xs[..n], ys[..i] + ys[i + 1..], w);
    }
  }

  function ScoreWeight(sym: string, fam: Family): Report -> real {
    (r: Report) => if InFamily(r, sym, fam) then ReportScore(r) else 0.0
  }

  function CountWeight(sym: string, fam: Family): Report -> real {
    (r: Report) => if InFamily(r, sym, fam) then 1.0 else 0.0
  }

  lemma {:induction false} ScoresAsTotals(rs: seq<Report>, sym: string, fam: Family)
    ensures Sum(ScoresOf(rs, sym, fam)) == Total(rs, ScoreWeight(sym, fam))
    ensures |ScoresOf(rs, sym, fam)| as real == Total(rs, CountWeight(sym, fam))
  {
    if rs != [] {
      var init := ScoresOf(rs[..|rs| - 1], sym, fam);
      ScoresAsTotals(rs[..|rs| - 1], sym, fam);
      if InFamily(rs[|rs| - 1], sym, fam) {
        assert ScoresOf(rs, sym, fam)[..|init|] == init;
      } else {
        assert ScoresOf(rs, sym, fam) == init;
      }
    }
  }

  /** The evidence does not depend on the order of the snapshots, nor on how a symbol's signals
      are spread over them: permuted reports give the same type index and the same family means. */
  lemma EvidenceIsOrderFree(rs: seq<Report>, rs': seq<Report>, means: map<string, map<Family, real>>,
                            means': map<string, map<Family, real>>)
    requires multiset(rs) == multiset(rs')
    requires AreFamilyMeans(means, rs) && AreFamilyMeans(means', rs')
    ensures TypeIndex(rs) == TypeIndex(rs')
    ensures means == means'
  {
    SameElements(rs, rs');
    TypeIndexMeaning(rs);
    TypeIndexMeaning(rs');
    forall sym ensures TypesOf(rs, sym) == TypesOf(rs', sym) {}
    forall sym, fam
      ensures |ScoresOf(rs, sym, fam)| == |ScoresOf(rs', sym, fam)|
      ensures Sum(ScoresOf(rs, sym, fam)) == Sum(ScoresOf(rs', sym, fam))
    {
      ScoresAsTotals(rs, sym, fam);
      ScoresAsTotals(rs', sym, fam);
      TotalPermutes(rs, rs', ScoreWeight(sym, fam));
      TotalPermutes(rs, rs', CountWeight(sym, fam));
    }
    forall sym, fam
      ensures (sym in means && fam in means[sym]) <==> (sym in means' && fam in means'[sym])
      ensures sym in means && fam in means[sym] ==> means[sym][fam] == means'[sym][fam]
    {
      assert MeanEntry(means, rs, sym, fam) && MeanEntry(means', rs', sym, fam);
    }
    forall sym ensures sym in means <==> sym in means' {
      if sym in means { var fam :| fam in means[sym]; }
      if sym in means' { var fam :| fam in means'[sym]; }
    }
    forall sym | sym in means ensures means[sym] == means'[sym] {}
  }

  /** What one signal says, read off the means of a single report: its family, and its score with the
      sign it counts with for a LONG. Bearish sentiment always counts against, whatever its sign;
      macro risk counts with its sign turned. */
  lemma SignalMeaning(means: map<string, map<Family, real>>, sym: string, k: SignalType, x: real)
    requires AreFamilyMeans(means, [Report(sym, Signal(k, Some(x)))]) && sym != "" && !k.OtherType?
    ensures sym in means
    ensures k in {TechnicalTrend, RelativeStrength, PriceForecast} ==> means[sym] == map[TrendFamily := x]
    ensures k == VolumeSpike ==> means[sym] == map[VolumeFamily := x]
    ensures k == SentimentBull ==> means[sym] == map[SentimentFamily := x]
    ensures k == SentimentBear ==> means[sym] == map[SentimentFamily := if x >= 0.0 then -x else x]
    ensures k == OptionsFlow ==> means[sym] == map[FlowFamily := x]
    ensures k in {InsiderActivity, CatalystEvent} ==> means[sym] == map[EventsFamily := x]
    ensures k == MacroRiskOff ==> means[sym] == map[MacroFamily := -x]
    ensures k == ShortInterest ==> means[sym] == map[PositioningFamily := x]
  {
    OneMean(means, [Report(sym, Signal(k, Some(x)))]);
  }

  lemma OneMean(means: map<string, map<Family, real>>, rs: seq<Report>)
    requires AreFamilyMeans(means, rs) && |rs| == 1 && Scorable(rs[0])
    ensures var r := rs[0]; r.symbol in means && means[r.symbol] == map[FamilyOf(r.sig.kind).value := ReportScore(r)]
  {
    var sym, own, x := rs[0].symbol, FamilyOf(rs[0].sig.kind).value, ReportScore(rs[0]);
    OneEntry(means, rs, sym, own);
    forall fam ensures fam in means[sym] <==> fam == own { OneEntry(means, rs, sym, fam); }
    assert means[sym] == map[own := x];
  }

  lemma OneEntry(means: map<string, map<Family, real>>, rs: seq<Report>, sym: string, fam: Family)
    requires AreFamilyMeans(means, rs) && |rs| == 1
    ensures sym in means && fam in means[sym] <==> InFamily(rs[0], sym, fam)
    ensures InFamily(rs[0], sym, fam) ==> means[sym][fam] == ReportScore(rs[0])
  {
    assert MeanEntry(means, rs, sym, fam);
    OneReport(rs, sym, fam);
    if InFamily(rs[0], sym, fam) { MeanOfOne([ReportScore(rs[0])]); }
  }

  lemma OneReport(rs: seq<Report>, sym: string, fam: Family)
    requires |rs| == 1
    ensures ScoresOf(rs, sym, fam) == if InFamily(rs[0], sym, fam) then [ReportScore(rs[0])] else []
  {
    assert ScoresOf(rs[..0], sym, fam) == [];
  }

  lemma MeanOfOne(xs: seq<real>)
    requires |xs| == 1
    ensures Mean(xs) == xs[0]
  {
    assert Sum(xs[..0]) == 0.0;
  }

  /** An unreadable score, a type outside the families and a nameless symbol leave no evidence. */
  lemma SilentSignal(means: map<string, map<Family, real>>, r: Report)
    requires AreFamilyMeans(means, [r]) && (r.symbol == "" || r.sig.kind.OtherType? || r.sig.score.None?)
    ensures means == map[]
  {
    forall sym, fam ensures !(sym in means && fam in means[sym]) { OneEntry(means, [r], sym, fam); }
  }

  // ---------------------------------------------------------------- aligned families

  function LongAligned(fs: map<Family, real>, min: real): set<Family> { set f | f in fs && fs[f] >= min }

  function ShortAligned(fs: map<Family, real>, min: real): set<Family> { set f | f in fs && fs[f] <= -min }

  function AlignedFamilyCount(fs: map<Family, real>, min: real, d: Direction): nat {
    match d
    case LONG => |LongAligned(fs, min)|
    case SHORT => |ShortAligned(fs, min)|
    case WATCH => MaxInt(|LongAligned(fs, min)|, |ShortAligned(fs, min)|)
  }

  const ALL_FAMILIES := {TrendFamily, VolumeFamily, SentimentFamily, FlowFamily, EventsFamily,
                         MacroFamily, PositioningFamily}

  lemma {:induction false} SubsetSize<T>(a: set<T>, b: set<T>)
    requires a <= b
    ensures |a| <= |b|
  {
    if a != {} {
      var x :| x in a;
      SubsetSize(a - {x}, b - {x});
    }
  }

  function Reflected(fs: map<Family, real>): map<Family, real> { map f | f in fs :: -fs[f] }

  /** At most one vote per family, and mirroring the evidence mirrors the vote. */
  lemma AlignedCountLaws(fs: map<Family, real>, min: real, d: Direction)
    ensures AlignedFamilyCount(fs, min, d) <= 7
    ensures AlignedFamilyCount(Reflected(fs), min, d) == AlignedFamilyCount(fs, min, Opposite(d))
  {
    forall f: Family ensures f in ALL_FAMILIES {
      match f
      case TrendFamily => case VolumeFamily => case SentimentFamily => case FlowFamily =>
      case EventsFamily => case MacroFamily => case PositioningFamily =>
    }
    SubsetSize(LongAligned(fs, min), ALL_FAMILIES);
    SubsetSize(ShortAligned(fs, min), ALL_FAMILIES);
    assert LongAligned(Reflected(fs), min) == ShortAligned(fs, min);
    assert ShortAligned(Reflected(fs), min) == LongAligned(fs, min);
  }

  /** Families whose mean is at least the minimum, and families whose mean is at most its negative. */
  predicate AllBullish(fs: map<Family, real>, min: real, fams: set<Family>) {
    forall f :: f in fams ==> f in fs && fs[f] >= min
  }

  predicate AllBearish(fs: map<Family, real>, min: real, fams: set<Family>) {
    forall f :: f in fams ==> f in fs && fs[f] <= -min
  }

  /** A LONG counts the most families that are bullish together, a SHORT the most that are bearish
      together, and a WATCH the larger of the two. */
  lemma AlignedCountMeaning(fs: map<Family, real>, min: real) returns (longs: set<Family>, shorts: set<Family>)
    ensures AllBullish(fs, min, longs) && forall fams :: AllBullish(fs, min, fams) ==> |fams| <= |longs|
    ensures AllBearish(fs, min, shorts) && forall fams :: AllBearish(fs, min, fams) ==> |fams| <= |shorts|
    ensures AlignedFamilyCount(fs, min, LONG) == |longs| && AlignedFamilyCount(fs, min, SHORT) == |shorts|
    ensures AlignedFamilyCount(fs, min, WATCH) == if |longs| >= |shorts| then |longs| else |shorts|
  {
    longs, shorts := LongAligned(fs, min), ShortAligned(fs, min);
    forall fams | AllBullish(fs, min, fams) ensures |fams| <= |longs| { SubsetSize(fams, longs); }
    forall fams | AllBearish(fs, min, fams) ensures |fams| <= |shorts| { SubsetSize(fams, shorts); }
  }

  // ---------------------------------------------------------------- forecast and volume scores

  /** Forecasts compete by magnitude, volume spikes by value. */
  function Measure(kind: SignalType, score: real): real {
    if kind == PriceForecast then Abs(score) else score
  }

  predicate Offers(r: Report, kind: SignalType, sym: string) {
    r.symbol == sym && r.sig.kind == kind && r.sig.score.Some?
  }

  function BestScores(rs: seq<Report>, kind: SignalType): map<string, real> {
    if rs == [] then map[] else Offered(BestScores(rs[..|rs| - 1], kind), rs[|rs| - 1], kind)
  }

  /** A report replaces its symbol's best score only by beating it. */
  function Offered(best: map<string, real>, r: Report, kind: SignalType): map<string, real> {
    if !Offers(r, kind, r.symbol) then best
    else if r.symbol !in best || Measure(kind, r.sig.score.value) > Measure(kind, best[r.symbol]) then
      best[r.symbol := r.sig.score.value]
    else best
  }

  lemma BestSnoc(before: seq<Report>, symbol: string, sigs: seq<Signal>, j: nat, kind: SignalType)
    requires j < |sigs|
    ensures BestScores(before + Tag(symbol, sigs[..j + 1]), kind)
         == Offered(BestScores(before + Tag(symbol, sigs[..j]), kind), Report(symbol, sigs[j]), kind)
  {
    TagPrefix(symbol, sigs, j);
    var grown := before + Tag(symbol, sigs[..j + 1]);
    assert grown[..|grown| - 1] == before + Tag(symbol, sigs[..j]);
  }

  method BestInSnapshot(ghost before: seq<Report>, snap: Snapshot, kind: SignalType, best: map<string, real>)
    returns (best': map<string, real>)
    requires best == BestScores(before, kind)
    ensures best' == BestScores(before + Tag(snap.symbol, snap.signals), kind)
  {
    best' := best;
    var sigs := snap.signals;
    assert before + Tag(snap.symbol, sigs[..0]) == before;
    for j := 0 to |sigs|
      invariant best' == BestScores(before + Tag(snap.symbol, sigs[..j]), kind)
    {
      BestSnoc(before, snap.symbol, sigs, j, kind);
      if sigs[j].kind == kind && sigs[j].score.Some? {
        var val := sigs[j].score.value;
        if snap.symbol !in best' || Measure(kind, val) > Measure(kind, best'[snap.symbol]) {
          best' := best'[snap.symbol := val];
        }
      }
    }
    assert sigs[..|sigs|] == sigs;
  }

  /** Extracts, per symbol, the first report of `kind` that no other report beats. */
  method ExtractScores(snaps: seq<Snapshot>, kind: SignalType) returns (best: map<string, real>)
    ensures AreBestScores(best, Reports(snaps), kind)
  {
    best := map[];
    for i := 0 to |snaps|
      invariant best == BestScores(Reports(snaps[..i]), kind)
    {
      ReportsPrefix(snaps, i);
      best := BestInSnapshot(Reports(snaps[..i]), snaps[i], kind, best);
    }
    assert snaps[..|snaps|] == snaps;
    BestScoresMeaning(Reports(snaps), kind);
  }

  /** Exactly the symbols with a report of `kind`, each with its first best score. */
  ghost predicate AreBestScores(best: map<string, real>, rs: seq<Report>, kind: SignalType) {
    && (forall sym :: sym in best <==> exists i :: 0 <= i < |rs| && Offers(rs[i], kind, sym))
    && (forall sym :: sym in best ==> FirstBest(rs, kind, sym, best[sym]))
  }

  ghost predicate FirstBest(rs: seq<Report>, kind: SignalType, sym: string, v: real) {
    exists i :: 0 <= i < |rs| && Offers(rs[i], kind, sym) && rs[i].sig.score.value == v &&
      (forall j :: 0 <= j < |rs| && Offers(rs[j], kind, sym) ==>
        if j < i then Measure(kind, rs[j].sig.score.value) < Measure(kind, v)
        else Measure(kind, rs[j].sig.score.value) <= Measure(kind, v))
  }

  /** The forecast kept for a symbol is its largest in magnitude, the volume spike its highest; among
      equals the first. */
  lemma KeptScores(rs: seq<Report>, forecasts: map<string, real>, volumes: map<string, real>, sym: string, i: nat)
    requires AreBestScores(forecasts, rs, PriceForecast) && AreBestScores(volumes, rs, VolumeSpike)
    requires i < |rs| && rs[i].symbol == sym && rs[i].sig.score.Some?
    ensures var x := rs[i].sig.score.value;
      rs[i].sig.kind == PriceForecast ==>
        (sym in forecasts && (-forecasts[sym] <= x <= forecasts[sym] || forecasts[sym] <= x <= -forecasts[sym]))
    ensures rs[i].sig.kind == VolumeSpike ==> sym in volumes && rs[i].sig.score.value <= volumes[sym]
  {
    if rs[i].sig.kind == PriceForecast { assert Offers(rs[i], PriceForecast, sym); }
    if rs[i].sig.kind == VolumeSpike { assert Offers(rs[i], VolumeSpike, sym); }
  }

  lemma {:induction false} BestScoresMeaning(rs: seq<Report>, kind: SignalType)
    ensures forall sym :: sym in BestScores(rs, kind) <==> exists i :: 0 <= i < |rs| && Offers(rs[i], kind, sym)
    ensures forall sym :: sym in BestScores(rs, kind) ==> FirstBest(rs, kind, sym, BestScores(rs, kind)[sym])
  {
    if rs != [] {
      var n := |rs| - 1;
      BestScoresMeaning(rs[..n], kind);
      forall sym ensures sym in BestScores(rs, kind) <==> exists i :: 0 <= i < |rs| && Offers(rs[i], kind, sym) {
        if i :| 0 <= i < n && Offers(rs[i], kind, sym) { assert Offers(rs[..n][i], kind, sym); }
        if i :| 0 <= i < n && Offers(rs[..n][i], kind, sym) { assert Offers(rs[i], kind, sym); }
        if sym == rs[n].symbol && Offers(rs[n], kind, sym) { assert Offers(rs[n], kind, sym); }
      }
      forall sym | sym in BestScores(rs, kind) ensures FirstBest(rs, kind, sym, BestScores(rs, kind)[sym]) {
        FirstBestStep(rs, kind, sym);
      }
    }
  }

  lemma FirstBestStep(rs: seq<Report>, kind: SignalType, sym: string)
    requires rs != [] && sym in BestScores(rs, kind)
    requires var init := rs[..|rs| - 1];
             && (sym in BestScores(init, kind) <==> exists i :: 0 <= i < |init| && Offers(init[i], kind, sym))
             && (sym in BestScores(init, kind) ==> FirstBest(init, kind, sym, BestScores(init, kind)[sym]))
    ensures FirstBest(rs, kind, sym, BestScores(rs, kind)[sym])
  {
    var n := |rs| - 1;
    var init := rs[..n];
    var v := BestScores(rs, kind)[sym];
    if sym in BestScores(init, kind) && v == BestScores(init, kind)[sym]
       && !(Offers(rs[n], kind, sym) && Measure(kind, rs[n].sig.score.value) > Measure(kind, v)) {
      var i :| 0 <= i < |init| && Offers(init[i], kind, sym) && init[i].sig.score.value == v &&
        (forall j :: 0 <= j < |init| && Offers(init[j], kind, sym) ==>
          if j < i then Measure(kind, init[j].sig.score.value) < Measure(kind, v)
          else Measure(kind, init[j].sig.score.value) <= Measure(kind, v));
      forall j | 0 <= j < |rs| && Offers(rs[j], kind, sym)
        ensures if j < i then Measure(kind, rs[j].sig.score.value) < Measure(kind, v)
                else Measure(kind, rs[j].sig.score.value) <= Measure(kind, v)
      {
        if j < n { assert init[j] == rs[j]; }
      }
      assert Offers(rs[i], kind, sym);
    } else {
      assert Offers(rs[n], kind, sym) && rs[n].sig.score.value == v;
      forall j | 0 <= j < n && Offers(rs[j], kind, sym)
        ensures Measure(kind, rs[j].sig.score.value) < Measure(kind, v)
      {
        assert Offers(init[j], kind, sym);
      }
    }
  }
}
