/** What a merged group is, in terms of its members: which groups there are, how strong each one is at
    what age, and what exactly the rewrites change (merger.py). */
module MergeLaws {
  import opened Prelude
  import opened GateTypes
  import opened Merger

  // ---------------------------------------------------------------- which groups

  /** A symbol that stands for something other than a ticker. */
  predicate Internal(symbol: string) { |symbol| >= 2 && symbol[0] == '_' && symbol[1] == '_' }

  lemma {:induction false} ParsedMeaning(entries: seq<Option<Snap>>, s: Snap)
    ensures s in Parsed(entries) <==> Some(s) in entries
  {
    if entries != [] {
      var init, last := entries[..|entries| - 1], entries[|entries| - 1];
      ParsedMeaning(init, s);
      assert entries == init + [last];
    }
  }

  lemma RealIs(s: Snap)
    ensures IsReal()(s) <==> !Internal(s.symbol)
  {
    if |s.symbol| >= 2 { assert s.symbol[..2] == [s.symbol[0], s.symbol[1]]; }
  }

  /** The groups of a merge: one for each symbol and timeframe of a readable snapshot of a ticker, with
      all of these as members and nothing else. */
  lemma CandidatesMeaning(entries: seq<Option<Snap>>)
    ensures DistinctGroups(Candidates(entries))
    ensures forall g, s :: g in Candidates(entries) ==>
      (s in g.members <==> Some(s) in entries && !Internal(s.symbol) && s.symbol == g.key.symbol
                           && s.timeframe == g.key.timeframe)
    ensures forall s :: Some(s) in entries && !Internal(s.symbol) ==>
      exists g :: g in Candidates(entries) && s in g.members
  {
    var snaps := Keep(Parsed(entries), IsReal());
    GroupsMeaning(snaps);
    forall s ensures s in snaps <==> Some(s) in entries && !Internal(s.symbol) {
      ParsedMeaning(entries, s);
      RealIs(s);
    }
    forall g, s | g in Candidates(entries)
      ensures s in g.members <==> Some(s) in entries && !Internal(s.symbol) && s.symbol == g.key.symbol
                                  && s.timeframe == g.key.timeframe
    {
      assert g.members == Keep(snaps, InGroup(g.key));
      assert InGroup(g.key)(s) <==> s.symbol == g.key.symbol && s.timeframe == g.key.timeframe;
    }
    forall s | Some(s) in entries && !Internal(s.symbol)
      ensures exists g :: g in Candidates(entries) && s in g.members
    {
      assert HasGroup(Candidates(entries), GroupKeyOf(s));
      var g :| g in Candidates(entries) && g.key == GroupKeyOf(s);
      assert s in g.members;
    }
  }

  // ---------------------------------------------------------------- which of the duplicates

  /** Two signals of the same source, type and side; zero counts as the positive side. */
  predicate Duplicates(a: Sig, b: Sig) {
    a.source == b.source && a.kind == b.kind && (a.score >= 0.0 <==> b.score >= 0.0)
  }

  /** a is the weaker one: smaller in magnitude or, at equal magnitude, less confident. */
  predicate Weaker(a: Sig, b: Sig) {
    Abs(a.score) < Abs(b.score) || (Abs(a.score) == Abs(b.score) && a.confidence < b.confidence)
  }

  /** What survives of the signals of a group: from each set of duplicates one, which none of the others
      is stronger than and all before it are weaker than. */
  lemma SurvivorMeaning(sigs: seq<Sig>, i: nat) returns (p: nat)
    requires i < |Dedup(sigs)|
    ensures p < |sigs| && sigs[p] == Dedup(sigs)[i]
    ensures forall q :: 0 <= q < |sigs| && Duplicates(sigs[q], sigs[p]) ==>
      !Weaker(sigs[p], sigs[q]) && (q < p ==> Weaker(sigs[q], sigs[p]))
    ensures forall j :: 0 <= j < |Dedup(sigs)| && j != i ==> !Duplicates(Dedup(sigs)[j], sigs[p])
  {
    DedupMeaning(sigs, i);
    p :| 0 <= p < |sigs| && FirstMaximumAt(sigs, Dedup(sigs)[i], p);
    forall q | 0 <= q < |sigs| && Duplicates(sigs[q], sigs[p])
      ensures !Weaker(sigs[p], sigs[q]) && (q < p ==> Weaker(sigs[q], sigs[p]))
    {
      assert KeyOf(sigs[q]) == KeyOf(sigs[p]);
    }
    forall j | 0 <= j < |Dedup(sigs)| && j != i ensures !Duplicates(Dedup(sigs)[j], sigs[p]) {
      assert KeyOf(Dedup(sigs)[j]) != KeyOf(Dedup(sigs)[i]);
    }
  }

  /** Scores stay within three of zero and confidences stay probabilities. */
  lemma MergedSignalsInRange(sigs: seq<Sig>)
    requires forall s :: s in sigs ==> -3.0 <= s.score <= 3.0 && 0.0 <= s.confidence <= 1.0
    ensures forall s :: s in Rewritten(Dedup(sigs)) ==> -3.0 <= s.score <= 3.0 && 0.0 <= s.confidence <= 1.0
  {
    DedupValid(sigs);
    RewritesPreserve(Dedup(sigs));
  }

  // ---------------------------------------------------------------- how strong

  /** Every type among the signals of the members is still there once duplicates are gone. */
  lemma {:induction false} DedupKeepsTypes(sigs: seq<Sig>)
    ensures Types(Dedup(sigs)) == Types(sigs)
  {
    forall k | k in Types(sigs) ensures k in Types(Dedup(sigs)) {
      var s :| s in sigs && s.kind == k;
      ChampionIsFirstMaximum(sigs, KeyOf(s));
      DedupLookup(sigs, KeyOf(s));
      LookupIsIn(Dedup(sigs), KeyOf(s));
      var i :| 0 <= i < |sigs| && sigs[i] == s;
      assert KeyOf(sigs[i]) == KeyOf(s);
    }
    forall k | k in Types(Dedup(sigs)) ensures k in Types(sigs) {
      var s :| s in Dedup(sigs) && s.kind == k;
      var i :| 0 <= i < |Dedup(sigs)| && Dedup(sigs)[i] == s;
      DedupMeaning(sigs, i);
      var p :| 0 <= p < |sigs| && FirstMaximumAt(sigs, s, p);
    }
  }

  lemma {:induction false} LookupIsIn(best: seq<Sig>, k: SigKey)
    ensures Lookup(best, k).Some? ==> Lookup(best, k).value in best && KeyOf(Lookup(best, k).value) == k
  {
    if best != [] { LookupIsIn(best[1..], k); }
  }

  /** The weight of each signal when confidence is moved by adj, never below 0.05. */
  function Weights(sigs: seq<Sig>, adj: real): (r: seq<real>)
    ensures |r| == |sigs|
  {
    seq(|sigs|, i requires 0 <= i < |sigs| =>
      Times(Abs(sigs[i].score), if sigs[i].confidence + adj > 0.05 then sigs[i].confidence + adj else 0.05))
  }

  lemma {:induction false} RawStrengthIsSum(sigs: seq<Sig>, adj: real)
    ensures RawStrength(sigs, adj) == Sum(Weights(sigs, adj))
  {
    if sigs != [] {
      var n := |sigs| - 1;
      RawStrengthIsSum(sigs[..n], adj);
      assert Weights(sigs, adj)[..n] == Weights(sigs[..n], adj);
    }
  }

  /** The strength of deduplicated signals by age: confidence counts for 0.10 more below the boost age
      and 0.15 less above the penalty age; and the spread over types discounts the sum. */
  lemma StrengthByAge(c: MergeConfig, root: real -> real, sigs: seq<Sig>, age: real, spread: real)
    requires sigs != [] ==> spread == root(|Types(sigs)| as real / |sigs| as real)
    ensures var x := AggregateStrength(c, root, sigs, FreshnessAdj(c, age));
            var raw := if age < c.freshBoostSecs then Sum(Weights(sigs, 0.10))
                       else if age > c.stalePenaltySecs then Sum(Weights(sigs, -0.15)) else Sum(Weights(sigs, 0.0));
      && (c.diversityWeight <= 0.0 || sigs == [] ==> x == raw)
      && (c.diversityWeight > 0.0 && sigs != [] ==> x == raw - Times(raw, Times(c.diversityWeight, 1.0 - spread)))
  {
    RawStrengthIsSum(sigs, FreshnessAdj(c, age));
    BlendedLoses(RawStrength(sigs, FreshnessAdj(c, age)), c.diversityWeight, spread);
  }

  lemma BlendedLoses(raw: real, weight: real, spread: real)
    ensures Blended(raw, weight, spread) == raw - Times(raw, Times(weight, 1.0 - spread))
  {
    var loss := weight * (1.0 - spread);
    assert weight * (spread - 1.0) == -loss;
    assert raw * (1.0 - loss) == raw - raw * loss;
  }

  lemma {:induction false} RawStrengthGrows(sigs: seq<Sig>, low: real, high: real)
    requires low <= high
    ensures RawStrength(sigs, low) <= RawStrength(sigs, high)
  {
    if sigs != [] {
      var s := sigs[|sigs| - 1];
      RawStrengthGrows(sigs[..|sigs| - 1], low, high);
      var a, x, y := Abs(s.score), Max(s.confidence + low, 0.05), Max(s.confidence + high, 0.05);
      NonNegativeProduct(a, y - x);
      assert a * (y - x) == a * y - a * x;
    }
  }

  lemma BlendedGrows(low: real, high: real, weight: real, spread: real)
    requires low <= high && 0.0 <= weight <= 1.0 && 0.0 <= spread <= 1.0
    ensures Blended(low, weight, spread) <= Blended(high, weight, spread)
  {
    var kept := 1.0 + weight * (spread - 1.0);
    NonNegativeProduct(1.0 - weight, 1.0 - spread);
    assert (1.0 - weight) * (1.0 - spread) == 1.0 - spread + weight * (spread - 1.0);
    NonNegativeProduct(high - low, kept);
    assert (high - low) * kept == high * kept - low * kept;
  }

  lemma AdjustmentFalls(c: MergeConfig, young: real, old_: real)
    requires young <= old_
    ensures FreshnessAdj(c, old_) <= FreshnessAdj(c, young)
  {}

  /** The same signals seen at a younger age are never weaker. */
  lemma FresherIsNoWeaker(c: MergeConfig, root: real -> real, sigs: seq<Sig>, young: real, old_: real)
    requires young <= old_ && 0.0 <= c.diversityWeight <= 1.0
    requires sigs != [] ==> IsRoot(root(Share(|Types(sigs)|, |sigs|)), Share(|Types(sigs)|, |sigs|))
    ensures AggregateStrength(c, root, sigs, FreshnessAdj(c, old_))
         <= AggregateStrength(c, root, sigs, FreshnessAdj(c, young))
  {
    AdjustmentFalls(c, young, old_);
    RawStrengthGrows(sigs, FreshnessAdj(c, old_), FreshnessAdj(c, young));
    if c.diversityWeight > 0.0 && sigs != [] {
      TypesAreFewer(sigs);
      ShareBounds(|Types(sigs)|, |sigs|);
      RootOfPart(root(Share(|Types(sigs)|, |sigs|)));
      BlendedGrows(RawStrength(sigs, FreshnessAdj(c, old_)), RawStrength(sigs, FreshnessAdj(c, young)),
                   c.diversityWeight, root(Share(|Types(sigs)|, |sigs|)));
    }
  }

  /** A group answers when its members' signals are of enough types for the timeframe, and then with the
      key of the group, the time of its first member, and the strength of its deduplicated signals at
      that member's age. */
  lemma GroupMeaning(c: MergeConfig, root: real -> real, timeframe: string, now: real, g: Group)
    requires g.members != []
    ensures var sigs, r := Concat(g.members), MergeGroup(c, root, timeframe, now, g);
            var needed := if timeframe == "1h" then c.minTypes1h else c.minTypes15m;
            var first := g.members[0].timestamp;
      && (r.Some? <==> |Types(sigs)| >= needed)
      && (r.Some? ==>
            && r.value.snap.symbol == g.key.symbol && r.value.snap.timeframe == g.key.timeframe
            && r.value.snap.timestamp == first && r.value.snap.signals == Rewritten(Dedup(sigs))
            && r.value.strength == AggregateStrength(c, root, Dedup(sigs), FreshnessAdj(c, now - first)))
  {
    DedupKeepsTypes(Concat(g.members));
  }

  /** Members with the same signals whose first is newer: the group never ranks lower. */
  lemma FresherGroupRanksNoLower(c: MergeConfig, root: real -> real, timeframe: string, now: real, g: Group, g': Group)
    requires g.members != [] && g'.members != [] && Concat(g.members) == Concat(g'.members)
    requires g.members[0].timestamp <= g'.members[0].timestamp && 0.0 <= c.diversityWeight <= 1.0
    requires forall x :: 0.0 <= x <= 1.0 ==> IsRoot(root(x), x)
    ensures var r, r' := MergeGroup(c, root, timeframe, now, g), MergeGroup(c, root, timeframe, now, g');
      (r.Some? <==> r'.Some?) && (r.Some? ==> r.value.strength <= r'.value.strength)
  {
    var sigs := Dedup(Concat(g.members));
    TypesAreFewer(sigs);
    if sigs != [] { ShareBounds(|Types(sigs)|, |sigs|); }
    FresherIsNoWeaker(c, root, sigs, now - g'.members[0].timestamp, now - g.members[0].timestamp);
  }

  // ---------------------------------------------------------------- what the rewrites change

  /** Position p holds the strongest signal of type k, the first among equals. */
  ghost predicate StrongestAt(sigs: seq<Sig>, k: SignalType, p: int) {
    && 0 <= p < |sigs| && sigs[p].kind == k
    && forall q :: 0 <= q < |sigs| && sigs[q].kind == k ==>
         Abs(sigs[q].score) <= Abs(sigs[p].score) && (q < p ==> Abs(sigs[q].score) < Abs(sigs[p].score))
  }

  lemma {:induction false} StrongestPosition(sigs: seq<Sig>, k: SignalType) returns (p: nat)
    requires k in Types(sigs)
    ensures StrongestAt(sigs, k, p) && Strongest(sigs, k) == Some(sigs[p])
  {
    var n := |sigs| - 1;
    var init := sigs[..n];
    StrongestMeaning(init, k);
    assert sigs == init + [sigs[n]];
    if k in Types(init) {
      p := StrongestPosition(init, k);
      if sigs[n].kind == k && Abs(sigs[n].score) > Abs(sigs[p].score) {
        p := n;
      }
    } else {
      forall q | 0 <= q < n ensures sigs[q].kind != k { assert init[q] == sigs[q] && init[q] in init; }
      p := n;
    }
  }

  /** No two signals share a key, so the strongest of a type occurs once. */
  lemma OnlyStrongest(sigs: seq<Sig>, k: SignalType, p: int)
    requires StrongestAt(sigs, k, p)
    ensures Strongest(sigs, k) == Some(sigs[p])
  {
    assert sigs[p] in sigs;
    assert k in Types(sigs);
    var q := StrongestPosition(sigs, k);
    assert p == q;
  }

  /** A live price: the first positive one under the accepted names, in their order. */
  ghost predicate IsLive(prices: map<string, real>, names: seq<string>, x: real) {
    exists i :: 0 <= i < |names| && names[i] in prices && prices[names[i]] == x > 0.0
      && forall j :: 0 <= j < i ==> names[j] !in prices || prices[names[j]] <= 0.0
  }

  lemma {:induction false} LivePrice(prices: map<string, real>, names: seq<string>, x: real)
    ensures FirstPositive(prices, names) == Some(x) <==> IsLive(prices, names, x)
  {
    if names != [] {
      var rest := names[1..];
      LivePrice(prices, rest, x);
      assert forall i :: 0 <= i < |rest| ==> rest[i] == names[i + 1];
      if IsLive(prices, rest, x) && !(names[0] in prices && prices[names[0]] > 0.0) {
        var i :| 0 <= i < |rest| && rest[i] in prices && prices[rest[i]] == x > 0.0
          && forall j :: 0 <= j < i ==> rest[j] !in prices || prices[rest[j]] <= 0.0;
        assert names[i + 1] in prices;
      }
      if IsLive(prices, names, x) && !(names[0] in prices && prices[names[0]] > 0.0) {
        var i :| 0 <= i < |names| && names[i] in prices && prices[names[i]] == x > 0.0
          && forall j :: 0 <= j < i ==> names[j] !in prices || prices[names[j]] <= 0.0;
        assert rest[i - 1] == names[i];
        assert forall j :: 0 <= j < i - 1 ==> rest[j] == names[j + 1];
      }
    }
  }

  const LIVE_NAMES: seq<string> := ["current_price", "last", "last_price", "price", "close"]

  /** Signal i is the forecast to suppress: the strongest of its type, anchored on a price more than 15%
      away from the live one that the strongest trend signal carries. */
  ghost predicate StaleAt(sigs: seq<Sig>, i: int) {
    && StrongestAt(sigs, PriceForecast, i) && "current_price" in sigs[i].prices
    && var anchor := sigs[i].prices["current_price"];
       anchor > 0.0 && exists t, live ::
         && StrongestAt(sigs, TechnicalTrend, t) && IsLive(sigs[t].prices, LIVE_NAMES, live)
         && (anchor > live + 0.15 * live || anchor < live - 0.15 * live)
  }

  /** Signal i is the trend to boost: the strongest of its type, beside a strongest volume spike of at
      least two on the same side. */
  ghost predicate ConfirmedAt(sigs: seq<Sig>, i: int) {
    && StrongestAt(sigs, TechnicalTrend, i)
    && exists v :: StrongestAt(sigs, VolumeSpike, v)
         && (if sigs[i].score > 0.0 then sigs[v].score >= 2.0 else sigs[v].score <= -2.0)
  }

  lemma Apart(anchor: real, live: real)
    requires live > 0.0
    ensures Abs(anchor - live) / live > 0.15 <==> anchor > live + 0.15 * live || anchor < live - 0.15 * live
  {
    RatioCompare(Abs(anchor - live), live, 0.15);
  }

  lemma StrongestIs(sigs: seq<Sig>, k: SignalType, i: int)
    ensures StrongestAt(sigs, k, i) ==> Strongest(sigs, k) == Some(sigs[i])
    ensures Strongest(sigs, k).Some? ==> exists p :: StrongestAt(sigs, k, p) && Strongest(sigs, k) == Some(sigs[p])
  {
    if StrongestAt(sigs, k, i) { OnlyStrongest(sigs, k, i); }
    StrongestMeaning(sigs, k);
    if Strongest(sigs, k).Some? { var p := StrongestPosition(sigs, k); }
  }

  lemma StaleIs(sigs: seq<Sig>, i: nat)
    requires StrongestAt(sigs, PriceForecast, i)
    ensures StaleForecast(sigs) <==> StaleAt(sigs, i)
  {
    StrongestIs(sigs, PriceForecast, i);
    StrongestMeaning(sigs, TechnicalTrend);
    var forecast := sigs[i];
    assert PRICE_KEYS == LIVE_NAMES;
    if TechnicalTrend in Types(sigs) {
      var t := StrongestPosition(sigs, TechnicalTrend);
      forall x ensures IsLive(sigs[t].prices, LIVE_NAMES, x) <==> FirstPositive(sigs[t].prices, PRICE_KEYS) == Some(x) {
        LivePrice(sigs[t].prices, LIVE_NAMES, x);
      }
      forall t' | StrongestAt(sigs, TechnicalTrend, t') ensures t' == t {}
      var live := FirstPositive(sigs[t].prices, PRICE_KEYS);
      if live.Some? {
        assert IsLive(sigs[t].prices, LIVE_NAMES, live.value);
        if "current_price" in forecast.prices { Apart(forecast.prices["current_price"], live.value); }
      }
    } else {
      forall t ensures !StrongestAt(sigs, TechnicalTrend, t) {
        if 0 <= t < |sigs| { assert sigs[t] in sigs; }
      }
    }
  }

  lemma ConfirmedIs(sigs: seq<Sig>, i: nat)
    requires StrongestAt(sigs, TechnicalTrend, i)
    ensures ConfirmedBreakout(sigs) <==> ConfirmedAt(sigs, i)
  {
    StrongestIs(sigs, TechnicalTrend, i);
    StrongestMeaning(sigs, VolumeSpike);
    if VolumeSpike in Types(sigs) {
      var v := StrongestPosition(sigs, VolumeSpike);
      forall v' | StrongestAt(sigs, VolumeSpike, v') ensures v' == v {}
    } else {
      forall v ensures !StrongestAt(sigs, VolumeSpike, v) {
        if 0 <= v < |sigs| { assert sigs[v] in sigs; }
      }
    }
  }

  lemma {:induction false} ReplaceAt(sigs: seq<Sig>, old_: Sig, new_: Sig, p: nat)
    requires p < |sigs| && sigs[p] == old_ && forall q :: 0 <= q < p ==> sigs[q] != old_
    ensures ReplaceFirst(sigs, old_, new_) == sigs[p := new_]
  {
    if p > 0 {
      ReplaceAt(sigs[1..], old_, new_, p - 1);
      assert sigs[p := new_] == [sigs[0]] + sigs[1..][p - 1 := new_];
    }
  }

  /** What one signal becomes. A stale forecast keeps neither score nor confidence; a confirmed trend
      gains 0.10 of confidence, up to 1; nothing else changes, and no signal moves. */
  ghost predicate BecomesAt(sigs: seq<Sig>, r: seq<Sig>, i: nat)
    requires i < |sigs| == |r|
  {
    && r[i] == sigs[i].(score := r[i].score, confidence := r[i].confidence, reason := r[i].reason)
    && (StaleAt(sigs, i) ==> r[i].score == 0.0 && r[i].confidence == 0.10)
    && (!StaleAt(sigs, i) ==> r[i].score == sigs[i].score)
    && (ConfirmedAt(sigs, i) ==>
          r[i].confidence == if sigs[i].confidence < 0.90 then sigs[i].confidence + 0.10 else 1.0)
    && (!StaleAt(sigs, i) && !ConfirmedAt(sigs, i) ==> r[i] == sigs[i])
  }

  lemma NotBoth(sigs: seq<Sig>, i: int)
    ensures !(StaleAt(sigs, i) && ConfirmedAt(sigs, i))
  {}

  lemma StalePart(sigs: seq<Sig>) returns (p: nat)
    ensures |AfterStale(sigs)| == |sigs|
    ensures StaleForecast(sigs) ==> StaleAt(sigs, p) && AfterStale(sigs) == sigs[p := Suppressed(sigs[p])]
    ensures !StaleForecast(sigs) ==> AfterStale(sigs) == sigs
    ensures forall i :: StaleAt(sigs, i) <==> StaleForecast(sigs) && i == p
  {
    p := 0;
    StrongestMeaning(sigs, PriceForecast);
    if PriceForecast in Types(sigs) {
      p := StrongestPosition(sigs, PriceForecast);
      StaleIs(sigs, p);
      forall q | 0 <= q < p ensures sigs[q] != sigs[p] {}
      ReplaceAt(sigs, sigs[p], Suppressed(sigs[p]), p);
      forall i ensures StaleAt(sigs, i) <==> StaleForecast(sigs) && i == p {}
    } else {
      forall i ensures !StaleAt(sigs, i) { if 0 <= i < |sigs| { assert sigs[i] in sigs; } }
    }
  }

  /** Suppressing a forecast leaves the strongest trend where it is, and its first occurrence there. */
  lemma TrendStays(sigs: seq<Sig>, a: seq<Sig>, t: nat, p: nat)
    requires StrongestAt(sigs, TechnicalTrend, t)
    requires a == sigs || (StrongestAt(sigs, PriceForecast, p) && a == sigs[p := Suppressed(sigs[p])])
    ensures ReplaceFirst(a, sigs[t], Boosted(sigs[t])) == a[t := Boosted(sigs[t])]
  {
    forall q | 0 <= q < t ensures a[q] != sigs[t] {
      assert sigs[q].kind == TechnicalTrend ==> Abs(sigs[q].score) < Abs(sigs[t].score);
    }
    ReplaceAt(a, sigs[t], Boosted(sigs[t]), t);
  }

  lemma ConfirmedPart(sigs: seq<Sig>) returns (t: nat)
    ensures |Rewritten(sigs)| == |AfterStale(sigs)| == |sigs|
    ensures ConfirmedBreakout(sigs) ==>
      ConfirmedAt(sigs, t) && Rewritten(sigs) == AfterStale(sigs)[t := Boosted(sigs[t])]
    ensures !ConfirmedBreakout(sigs) ==> Rewritten(sigs) == AfterStale(sigs)
    ensures forall i :: ConfirmedAt(sigs, i) <==> ConfirmedBreakout(sigs) && i == t
  {
    t := 0;
    var p := StalePart(sigs);
    StrongestMeaning(sigs, TechnicalTrend);
    if TechnicalTrend in Types(sigs) {
      t := StrongestPosition(sigs, TechnicalTrend);
      ConfirmedIs(sigs, t);
      TrendStays(sigs, AfterStale(sigs), t, p);
      forall i ensures ConfirmedAt(sigs, i) <==> ConfirmedBreakout(sigs) && i == t {}
    } else {
      forall i ensures !ConfirmedAt(sigs, i) { if 0 <= i < |sigs| { assert sigs[i] in sigs; } }
    }
  }

  /** The rewrites, signal by signal. */
  lemma RewriteMeaning(sigs: seq<Sig>)
    requires forall s :: s in sigs ==> ValidSig(s)
    ensures |Rewritten(sigs)| == |sigs|
    ensures forall i :: 0 <= i < |sigs| ==> BecomesAt(sigs, Rewritten(sigs), i)
  {
    var p := StalePart(sigs);
    var t := ConfirmedPart(sigs);
    forall i | 0 <= i < |sigs| ensures BecomesAt(sigs, Rewritten(sigs), i) {
      NotBoth(sigs, i);
      assert ValidSig(sigs[i]);
    }
  }
}
