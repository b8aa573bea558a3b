/** Snapshot merger: grouping, sign-aware dedup, breadth filter, rewrites and ranking (merger.py). */
module Merger {
  import opened Prelude
  import opened GateTypes

  /** A validated signal; `prices` are the numeric fields of its raw payload. */
  datatype Sig = Sig(source: string, kind: SignalType, score: real, confidence: real, reason: string,
                     prices: map<string, real>)

  datatype Snap = Snap(symbol: string, timeframe: string, timestamp: real, signals: seq<Sig>)

  predicate ValidSig(s: Sig) { -3.0 <= s.score <= 3.0 && 0.0 <= s.confidence <= 1.0 }

  predicate ValidSnap(s: Snap) { s.signals != [] && forall x :: x in s.signals ==> ValidSig(x) }

  // ---------------------------------------------------------------- sign-aware dedup

  datatype SigKey = SigKey(source: string, kind: SignalType, nonNegative: bool)

  function KeyOf(s: Sig): SigKey { SigKey(s.source, s.kind, s.score >= 0.0) }

  predicate Beats(a: Sig, b: Sig) {
    Abs(a.score) > Abs(b.score) || (Abs(a.score) == Abs(b.score) && a.confidence > b.confidence)
  }

  /** One step of the fold: an unseen key is appended, a beaten incumbent is replaced in place. */
  function Insert(best: seq<Sig>, s: Sig): seq<Sig> {
    if best == [] then [s]
    else if KeyOf(best[0]) == KeyOf(s) then (if Beats(s, best[0]) then [s] else [best[0]]) + best[1..]
    else [best[0]] + Insert(best[1..], s)
  }

  function Dedup(sigs: seq<Sig>): seq<Sig> {
    if sigs == [] then [] else Insert(Dedup(sigs[..|sigs| - 1]), sigs[|sigs| - 1])
  }

  ghost predicate DistinctKeys(sigs: seq<Sig>) {
    forall i, j :: 0 <= i < j < |sigs| ==> KeyOf(sigs[i]) != KeyOf(sigs[j])
  }

  /** The keys of sigs in order of first occurrence. */
  function KeyOrder(sigs: seq<Sig>): seq<SigKey> {
    if sigs == [] then []
    else
      var before, k := KeyOrder(sigs[..|sigs| - 1]), KeyOf(sigs[|sigs| - 1]);
      if k in before then before else before + [k]
  }

  function KeysOf(sigs: seq<Sig>): (r: seq<SigKey>)
    ensures |r| == |sigs|
    ensures forall i :: 0 <= i < |sigs| ==> r[i] == KeyOf(sigs[i])
  {
    seq(|sigs|, i requires 0 <= i < |sigs| => KeyOf(sigs[i]))
  }

  lemma KeysCons(x: Sig, rest: seq<Sig>)
    ensures KeysOf([x] + rest) == [KeyOf(x)] + KeysOf(rest)
  {}

  lemma {:induction false} InsertKeys(best: seq<Sig>, s: Sig)
    ensures KeysOf(Insert(best, s)) == if KeyOf(s) in KeysOf(best) then KeysOf(best) else KeysOf(best) + [KeyOf(s)]
  {
    if best != [] {
      var x, rest := best[0], best[1..];
      assert best == [x] + rest;
      KeysCons(x, rest);
      if KeyOf(x) != KeyOf(s) {
        InsertKeys(rest, s);
        KeysCons(x, Insert(rest, s));
      } else {
        KeysCons(if Beats(s, x) then s else x, rest);
        assert KeysOf(best)[0] == KeyOf(s);
      }
    }
  }

  /** Dedup keeps one signal per key, in first-occurrence order. */
  lemma {:induction false} DedupOrder(sigs: seq<Sig>)
    ensures KeysOf(Dedup(sigs)) == KeyOrder(sigs)
    ensures DistinctKeys(Dedup(sigs))
  {
    if sigs != [] {
      var init, last := sigs[..|sigs| - 1], sigs[|sigs| - 1];
      DedupOrder(init);
      InsertKeys(Dedup(init), last);
      var before, after := Dedup(init), Dedup(sigs);
      forall i, j | 0 <= i < j < |after| ensures KeyOf(after[i]) != KeyOf(after[j]) {
        assert KeysOf(after)[i] == KeyOf(after[i]) && KeysOf(after)[j] == KeyOf(after[j]);
        if j < |before| {
          assert KeysOf(before)[i] == KeyOf(before[i]) && KeysOf(before)[j] == KeyOf(before[j]);
        } else {
          assert KeysOf(before)[i] in KeysOf(before);
        }
      }
    }
  }

  /** `s` is the first lexicographic maximum of (|score|, confidence) among the signals of its key. */
  ghost predicate FirstMaximum(sigs: seq<Sig>, s: Sig) {
    exists p :: 0 <= p < |sigs| && FirstMaximumAt(sigs, s, p)
  }

  ghost predicate FirstMaximumAt(sigs: seq<Sig>, s: Sig, p: nat)
    requires p < |sigs|
  {
    && sigs[p] == s
    && forall q :: 0 <= q < |sigs| && KeyOf(sigs[q]) == KeyOf(s) ==>
         if q < p then Beats(s, sigs[q]) else !Beats(sigs[q], s)
  }

  function Champion(sigs: seq<Sig>, k: SigKey): Option<Sig> {
    if sigs == [] then None
    else
      var before, s := Champion(sigs[..|sigs| - 1], k), sigs[|sigs| - 1];
      if KeyOf(s) == k && (before.None? || Beats(s, before.value)) then Some(s) else before
  }

  function Lookup(best: seq<Sig>, k: SigKey): Option<Sig> {
    if best == [] then None else if KeyOf(best[0]) == k then Some(best[0]) else Lookup(best[1..], k)
  }

  lemma {:induction false} InsertLookup(best: seq<Sig>, s: Sig, k: SigKey)
    ensures var old_ := Lookup(best, k);
      Lookup(Insert(best, s), k) == if KeyOf(s) == k && (old_.None? || Beats(s, old_.value)) then Some(s) else old_
  {
    if best != [] { InsertLookup(best[1..], s, k); }
  }

  lemma {:induction false} DedupLookup(sigs: seq<Sig>, k: SigKey)
    ensures Lookup(Dedup(sigs), k) == Champion(sigs, k)
  {
    if sigs != [] {
      DedupLookup(sigs[..|sigs| - 1], k);
      InsertLookup(Dedup(sigs[..|sigs| - 1]), sigs[|sigs| - 1], k);
    }
  }

  lemma {:induction false} ChampionIsFirstMaximum(sigs: seq<Sig>, k: SigKey)
    ensures Champion(sigs, k).None? ==> forall i :: 0 <= i < |sigs| ==> KeyOf(sigs[i]) != k
    ensures Champion(sigs, k).Some? ==>
      KeyOf(Champion(sigs, k).value) == k && FirstMaximum(sigs, Champion(sigs, k).value)
  {
    if sigs != [] {
      var n := |sigs| - 1;
      var before := Champion(sigs[..n], k);
      ChampionIsFirstMaximum(sigs[..n], k);
      if before.Some? {
        var p :| 0 <= p < n && FirstMaximumAt(sigs[..n], before.value, p);
        forall q | 0 <= q < n && KeyOf(sigs[q]) == k
          ensures if q < p then Beats(before.value, sigs[q]) else !Beats(sigs[q], before.value)
        {
          assert sigs[q] == sigs[..n][q];
        }
        if Champion(sigs, k) == before {
          assert KeyOf(sigs[n]) != k || !Beats(sigs[n], before.value);
          assert FirstMaximumAt(sigs, before.value, p);
        } else {
          assert FirstMaximumAt(sigs, sigs[n], n);
        }
      } else if KeyOf(sigs[n]) == k {
        assert FirstMaximumAt(sigs, sigs[n], n);
      }
    }
  }

  lemma {:induction false} LookupAt(best: seq<Sig>, i: nat)
    requires i < |best| && DistinctKeys(best)
    ensures Lookup(best, KeyOf(best[i])) == Some(best[i])
  {
    if i > 0 {
      assert KeyOf(best[0]) != KeyOf(best[i]);
      assert DistinctKeys(best[1..]);
      LookupAt(best[1..], i - 1);
    }
  }

  /** The dedup fold is its specification: keys in first-occurrence order, each represented by the
      first lexicographic maximum of its signals. */
  lemma DedupMeaning(sigs: seq<Sig>, i: nat)
    requires i < |Dedup(sigs)|
    ensures KeysOf(Dedup(sigs)) == KeyOrder(sigs) && DistinctKeys(Dedup(sigs))
    ensures FirstMaximum(sigs, Dedup(sigs)[i])
  {
    DedupOrder(sigs);
    LookupAt(Dedup(sigs), i);
    DedupLookup(sigs, KeyOf(Dedup(sigs)[i]));
    ChampionIsFirstMaximum(sigs, KeyOf(Dedup(sigs)[i]));
  }

  // ---------------------------------------------------------------- dedup is idempotent and incremental

  lemma {:induction false} InsertFresh(best: seq<Sig>, s: Sig)
    requires forall i :: 0 <= i < |best| ==> KeyOf(best[i]) != KeyOf(s)
    ensures Insert(best, s) == best + [s]
  {
    if best != [] { InsertFresh(best[1..], s); }
  }

  lemma {:induction false} DedupOfDistinct(sigs: seq<Sig>)
    requires DistinctKeys(sigs)
    ensures Dedup(sigs) == sigs
  {
    if sigs != [] {
      var init := sigs[..|sigs| - 1];
      DedupOfDistinct(init);
      InsertFresh(init, sigs[|sigs| - 1]);
    }
  }

  /** Deduplicating what was already deduplicated together with new signals gives exactly what
      deduplicating everything at once gives. */
  lemma {:induction false} DedupIsIncremental(a: seq<Sig>, b: seq<Sig>)
    ensures Dedup(Dedup(a) + b) == Dedup(a + b)
  {
    if b == [] {
      DedupOrder(a);
      DedupOfDistinct(Dedup(a));
      assert Dedup(a) + b == Dedup(a) && a + b == a;
    } else {
      var init, last := b[..|b| - 1], b[|b| - 1];
      DedupIsIncremental(a, init);
      assert (Dedup(a) + b)[..|Dedup(a) + b| - 1] == Dedup(a) + init;
      assert (a + b)[..|a + b| - 1] == a + init;
    }
  }

  // ---------------------------------------------------------------- the dict-based loop

  function ValuesInOrder(keys: seq<SigKey>, best: map<SigKey, Sig>): seq<Sig>
    requires forall k :: k in keys ==> k in best
  {
    seq(|keys|, i requires 0 <= i < |keys| => best[keys[i]])
  }

  /** The insertion-ordered dict represents the fold so far. */
  ghost predicate Represents(keys: seq<SigKey>, best: map<SigKey, Sig>, sigs: seq<Sig>) {
    && keys == KeyOrder(sigs)
    && (forall k :: k in best <==> k in keys)
    && (forall k :: k in best ==> Champion(sigs, k) == Some(best[k]))
    && (forall k :: k !in best ==> Champion(sigs, k) == None)
  }

  /** The merger's loop over a dict whose values keep their insertion order. */
  method DedupSignals(sigs: seq<Sig>) returns (deduped: seq<Sig>)
    ensures deduped == Dedup(sigs)
  {
    var keys: seq<SigKey> := [];
    var best: map<SigKey, Sig> := map[];
    for i := 0 to |sigs|
      invariant Represents(keys, best, sigs[..i])
    {
      var s := sigs[i];
      assert sigs[..i + 1][..i] == sigs[..i];
      var k := SigKey(s.source, s.kind, s.score >= 0.0);
      if k !in best
         || Abs(s.score) > Abs(best[k].score)
         || (Abs(s.score) == Abs(best[k].score) && s.confidence > best[k].confidence)
      {
        if k !in best { keys := keys + [k]; }
        best := best[k := s];
      }
    }
    assert sigs[..|sigs|] == sigs;
    RepresentedIsDedup(keys, best, sigs);
    return ValuesInOrder(keys, best);
  }

  lemma RepresentedIsDedup(keys: seq<SigKey>, best: map<SigKey, Sig>, sigs: seq<Sig>)
    requires Represents(keys, best, sigs)
    ensures ValuesInOrder(keys, best) == Dedup(sigs)
  {
    DedupOrder(sigs);
    var d := Dedup(sigs);
    assert |d| == |KeysOf(d)| == |keys|;
    forall i | 0 <= i < |d| ensures ValuesInOrder(keys, best)[i] == d[i] {
      assert keys[i] == KeysOf(d)[i] == KeyOf(d[i]);
      LookupAt(d, i);
      DedupLookup(sigs, keys[i]);
    }
  }

  // ---------------------------------------------------------------- grouping

  datatype GroupKey = GroupKey(symbol: string, timeframe: string)

  datatype Group = Group(key: GroupKey, members: seq<Snap>)

  function GroupKeyOf(s: Snap): GroupKey { GroupKey(s.symbol, s.timeframe) }

  predicate Pseudo(symbol: string) { |symbol| >= 2 && symbol[..2] == "__" }

  function IsReal(): Snap -> bool { (s: Snap) => !Pseudo(s.symbol) }

  function InGroup(k: GroupKey): Snap -> bool { (s: Snap) => GroupKeyOf(s) == k }

  function AddToGroup(groups: seq<Group>, s: Snap): seq<Group> {
    if groups == [] then [Group(GroupKeyOf(s), [s])]
    else if groups[0].key == GroupKeyOf(s) then [Group(groups[0].key, groups[0].members + [s])] + groups[1..]
    else [groups[0]] + AddToGroup(groups[1..], s)
  }

  function Groups(snaps: seq<Snap>): seq<Group> {
    if snaps == [] then [] else AddToGroup(Groups(snaps[..|snaps| - 1]), snaps[|snaps| - 1])
  }

  predicate HasGroup(groups: seq<Group>, k: GroupKey) { exists g :: g in groups && g.key == k }

  ghost predicate DistinctGroups(groups: seq<Group>) {
    forall i, j :: 0 <= i < j < |groups| ==> groups[i].key != groups[j].key
  }

  /** The members filed under k, if any. */
  function MembersOf(groups: seq<Group>, k: GroupKey): seq<Snap> {
    if groups == [] then [] else if groups[0].key == k then groups[0].members else MembersOf(groups[1..], k)
  }

  lemma {:induction false} AddToGroupKeys(groups: seq<Group>, s: Snap, k: GroupKey)
    ensures HasGroup(AddToGroup(groups, s), k) <==> HasGroup(groups, k) || k == GroupKeyOf(s)
  {
    var gs := AddToGroup(groups, s);
    if groups == [] {
      assert gs[0].key == GroupKeyOf(s) && gs[0] in gs;
    } else {
      HasGroupCons(groups[0], groups[1..], k);
      assert groups == [groups[0]] + groups[1..];
      if groups[0].key == GroupKeyOf(s) {
        HasGroupCons(gs[0], groups[1..], k);
      } else {
        AddToGroupKeys(groups[1..], s, k);
        HasGroupCons(groups[0], AddToGroup(groups[1..], s), k);
      }
    }
  }

  lemma HasGroupCons(g: Group, rest: seq<Group>, k: GroupKey)
    ensures HasGroup([g] + rest, k) <==> g.key == k || HasGroup(rest, k)
  {
    if HasGroup(rest, k) {
      var h :| h in rest && h.key == k;
      assert h in [g] + rest;
    }
    assert g in [g] + rest;
  }

  lemma {:induction false} AddToGroupMembers(groups: seq<Group>, s: Snap, k: GroupKey)
    ensures MembersOf(AddToGroup(groups, s), k) == MembersOf(groups, k) + (if k == GroupKeyOf(s) then [s] else [])
  {
    if groups != [] && groups[0].key != GroupKeyOf(s) { AddToGroupMembers(groups[1..], s, k); }
  }

  lemma {:induction false} AddToGroupDistinct(groups: seq<Group>, s: Snap)
    requires DistinctGroups(groups)
    ensures DistinctGroups(AddToGroup(groups, s))
  {
    if groups != [] && groups[0].key != GroupKeyOf(s) {
      var g, rest := groups[0], AddToGroup(groups[1..], s);
      AddToGroupDistinct(groups[1..], s);
      AddToGroupKeys(groups[1..], s, g.key);
      forall h | h in groups[1..] ensures h.key != g.key {
        var i :| 0 <= i < |groups| - 1 && groups[1..][i] == h;
        assert groups[i + 1] == h;
      }
      forall j | 0 <= j < |rest| ensures rest[j].key != g.key { assert rest[j] in rest; }
    }
  }

  lemma {:induction false} MembersOfGroup(groups: seq<Group>, i: nat)
    requires DistinctGroups(groups) && i < |groups|
    ensures MembersOf(groups, groups[i].key) == groups[i].members
  {
    if i > 0 {
      assert groups[0].key != groups[i].key;
      MembersOfGroup(groups[1..], i - 1);
    }
  }

  lemma {:induction false} MembersAreKept(snaps: seq<Snap>, k: GroupKey)
    ensures MembersOf(Groups(snaps), k) == Keep(snaps, InGroup(k))
    ensures HasGroup(Groups(snaps), k) <==> exists s :: s in snaps && GroupKeyOf(s) == k
  {
    if snaps != [] {
      var init, last := snaps[..|snaps| - 1], snaps[|snaps| - 1];
      MembersAreKept(init, k);
      assert snaps == init + [last];
      KeepSnoc(init, last, InGroup(k));
      AddToGroupMembers(Groups(init), last, k);
      AddToGroupKeys(Groups(init), last, k);
    }
  }

  lemma {:induction false} GroupsAreDistinct(snaps: seq<Snap>)
    ensures DistinctGroups(Groups(snaps))
  {
    if snaps != [] {
      GroupsAreDistinct(snaps[..|snaps| - 1]);
      AddToGroupDistinct(Groups(snaps[..|snaps| - 1]), snaps[|snaps| - 1]);
    }
  }

  /** Every snapshot lands in exactly one group, with the others of its symbol and timeframe, in order. */
  lemma GroupsMeaning(snaps: seq<Snap>)
    ensures DistinctGroups(Groups(snaps))
    ensures forall g :: g in Groups(snaps) ==> g.members == Keep(snaps, InGroup(g.key)) && g.members != []
    ensures forall s :: s in snaps ==> HasGroup(Groups(snaps), GroupKeyOf(s))
  {
    GroupsAreDistinct(snaps);
    forall g | g in Groups(snaps) ensures g.members == Keep(snaps, InGroup(g.key)) && g.members != [] {
      GroupIsKept(snaps, g);
    }
    forall s | s in snaps ensures HasGroup(Groups(snaps), GroupKeyOf(s)) { MembersAreKept(snaps, GroupKeyOf(s)); }
  }

  lemma GroupIsKept(snaps: seq<Snap>, g: Group)
    requires g in Groups(snaps) && DistinctGroups(Groups(snaps))
    ensures g.members == Keep(snaps, InGroup(g.key)) && g.members != []
  {
    var i :| 0 <= i < |Groups(snaps)| && Groups(snaps)[i] == g;
    MembersOfGroup(Groups(snaps), i);
    MembersAreKept(snaps, g.key);
    assert HasGroup(Groups(snaps), g.key);
    var s :| s in snaps && GroupKeyOf(s) == g.key;
    assert InGroup(g.key)(s) && s in Keep(snaps, InGroup(g.key));
  }

  // ---------------------------------------------------------------- strength

  datatype MergeConfig = MergeConfig(minTypes15m: nat, minTypes1h: nat, diversityWeight: real,
                                     freshBoostSecs: real, stalePenaltySecs: real)

  function MinTypes(c: MergeConfig, timeframe: string): nat {
    if timeframe == "1h" then c.minTypes1h else c.minTypes15m
  }

  function Types(sigs: seq<Sig>): set<SignalType> { set s | s in sigs :: s.kind }

  function FreshnessAdj(c: MergeConfig, age: real): real {
    if age < c.freshBoostSecs then 0.10 else if age > c.stalePenaltySecs then -0.15 else 0.0
  }

  function Share(part: int, whole: nat): real
    requires whole > 0
  {
    part as real / whole as real
  }

  function RawStrength(sigs: seq<Sig>, adj: real): real {
    if sigs == [] then 0.0
    else
      var s := sigs[|sigs| - 1];
      RawStrength(sigs[..|sigs| - 1], adj) + Abs(s.score) * Max(s.confidence + adj, 0.05)
  }

  /** Strength times the blended diversity; `root` is the square-root function. */
  function AggregateStrength(c: MergeConfig, root: real -> real, sigs: seq<Sig>, adj: real): real {
    if c.diversityWeight > 0.0 && sigs != [] then
      var diversity := root(Share(|Types(sigs)|, |sigs|));
      Blended(RawStrength(sigs, adj), c.diversityWeight, diversity)
    else RawStrength(sigs, adj)
  }

  function Blended(raw: real, weight: real, diversity: real): real { raw * (1.0 + weight * (diversity - 1.0)) }

  predicate IsRoot(r: real, x: real) { r >= 0.0 && r * r == x }

  lemma {:induction false} TypesAreFewer(sigs: seq<Sig>)
    ensures |Types(sigs)| <= |sigs|
    ensures sigs != [] ==> |Types(sigs)| > 0
  {
    if sigs != [] {
      var init, last := sigs[..|sigs| - 1], sigs[|sigs| - 1];
      TypesAreFewer(init);
      assert sigs == init + [last];
      assert Types(sigs) == Types(init) + {last.kind};
      assert last.kind in Types(sigs);
    }
  }

  lemma {:induction false} RawStrengthIsNonNegative(sigs: seq<Sig>, adj: real)
    ensures RawStrength(sigs, adj) >= 0.0
  {
    if sigs != [] {
      var s := sigs[|sigs| - 1];
      RawStrengthIsNonNegative(sigs[..|sigs| - 1], adj);
      NonNegativeProduct(Abs(s.score), Max(s.confidence + adj, 0.05));
    }
  }

  lemma ShareBounds(part: nat, whole: nat)
    requires 0 < part <= whole
    ensures 0.0 <= Share(part, whole) <= 1.0
    ensures Share(part, whole) == 1.0 <==> part == whole
  {
    assert Share(part, whole) * whole as real == part as real;
    Cancel(0.0, Share(part, whole), whole as real);
    Cancel(Share(part, whole), 1.0, whole as real);
    if part == whole { Cancel(1.0, Share(part, whole), whole as real); }
  }

  lemma RootOfPart(r: real)
    requires r >= 0.0 && r * r <= 1.0
    ensures r <= 1.0
    ensures r == 1.0 <==> r * r == 1.0
  {
    assert r * r - 1.0 == (r - 1.0) * (r + 1.0);
    if r > 1.0 {
      PositiveProduct(r - 1.0, r + 1.0);
    } else if r < 1.0 {
      PositiveProduct(1.0 - r, r + 1.0);
      assert (1.0 - r) * (r + 1.0) == 1.0 - r * r;
    } else {
      assert r * r == r * 1.0;
    }
  }

  lemma Discount(raw: real, weight: real, diversity: real)
    requires raw >= 0.0 && 0.0 < weight <= 1.0 && 0.0 <= diversity <= 1.0
    ensures 0.0 <= Blended(raw, weight, diversity) <= raw
    ensures raw > 0.0 ==> (Blended(raw, weight, diversity) == raw <==> diversity == 1.0)
  {
    var loss := weight * (1.0 - diversity);
    NonNegativeProduct(weight, 1.0 - diversity);
    NonNegativeProduct(1.0 - weight, 1.0 - diversity);
    assert (1.0 - weight) * (1.0 - diversity) == 1.0 - diversity - loss;
    NonNegativeProduct(raw, loss);
    NonNegativeProduct(raw, 1.0 - loss);
    assert raw * (1.0 + weight * (diversity - 1.0)) == raw - raw * loss;
    assert raw * (1.0 - loss) == raw - raw * loss;
    if raw > 0.0 && diversity < 1.0 {
      PositiveProduct(weight, 1.0 - diversity);
      PositiveProduct(raw, loss);
    }
  }

  /** The diversity blend only discounts: the strength lies between zero and the raw strength, and a
      weighted, non-zero one keeps it whole exactly when no two signals share a type. */
  lemma StrengthIsDiscounted(c: MergeConfig, root: real -> real, sigs: seq<Sig>, adj: real)
    requires 0.0 <= c.diversityWeight <= 1.0
    requires sigs != [] ==> IsRoot(root(Share(|Types(sigs)|, |sigs|)), Share(|Types(sigs)|, |sigs|))
    ensures 0.0 <= AggregateStrength(c, root, sigs, adj) <= RawStrength(sigs, adj)
    ensures c.diversityWeight > 0.0 && RawStrength(sigs, adj) > 0.0 ==>
      (AggregateStrength(c, root, sigs, adj) == RawStrength(sigs, adj) <==> |Types(sigs)| == |sigs|)
  {
    RawStrengthIsNonNegative(sigs, adj);
    TypesAreFewer(sigs);
    if c.diversityWeight > 0.0 && sigs != [] {
      var part := Share(|Types(sigs)|, |sigs|);
      ShareBounds(|Types(sigs)|, |sigs|);
      RootOfPart(root(part));
      Discount(RawStrength(sigs, adj), c.diversityWeight, root(part));
    }
  }

  // ---------------------------------------------------------------- rewrites

  /** The strongest signal of a type: the first with the greatest |score|. */
  function Strongest(sigs: seq<Sig>, k: SignalType): Option<Sig> {
    if sigs == [] then None
    else
      var before, s := Strongest(sigs[..|sigs| - 1], k), sigs[|sigs| - 1];
      if s.kind == k && (before.None? || Abs(s.score) > Abs(before.value.score)) then Some(s) else before
  }

  lemma {:induction false} StrongestMeaning(sigs: seq<Sig>, k: SignalType)
    ensures Strongest(sigs, k).None? <==> k !in Types(sigs)
    ensures Strongest(sigs, k).Some? ==> var m := Strongest(sigs, k).value;
              m in sigs && m.kind == k && forall s :: s in sigs && s.kind == k ==> Abs(s.score) <= Abs(m.score)
  {
    if sigs != [] {
      var init, last := sigs[..|sigs| - 1], sigs[|sigs| - 1];
      StrongestMeaning(init, k);
      assert sigs == init + [last];
      forall s ensures s in sigs <==> s in init || s == last {}
      if k in Types(init) { assert k in Types(sigs); }
      if last.kind == k { assert last.kind in Types(sigs); }
    }
  }

  function FirstPositive(prices: map<string, real>, keys: seq<string>): Option<real> {
    if keys == [] then None
    else if keys[0] in prices && prices[keys[0]] > 0.0 then Some(prices[keys[0]])
    else FirstPositive(prices, keys[1..])
  }

  const PRICE_KEYS: seq<string> := ["current_price", "last", "last_price", "price", "close"]

  /** The forecast was anchored on a price more than 15% away from the live one. */
  predicate StaleForecast(sigs: seq<Sig>) {
    var forecast, ta := Strongest(sigs, PriceForecast), Strongest(sigs, TechnicalTrend);
    && forecast.Some? && ta.Some?
    && var live := FirstPositive(ta.value.prices, PRICE_KEYS);
       live.Some? && "current_price" in forecast.value.prices && forecast.value.prices["current_price"] > 0.0
       && live.value > 0.0
       && Abs(forecast.value.prices["current_price"] - live.value) / live.value > 0.15
  }

  predicate ConfirmedBreakout(sigs: seq<Sig>) {
    var vol, ta := Strongest(sigs, VolumeSpike), Strongest(sigs, TechnicalTrend);
    && vol.Some? && ta.Some?
    && Abs(vol.value.score) >= 2.0
    && ((vol.value.score > 0.0) <==> (ta.value.score > 0.0))
  }

  function Suppressed(s: Sig): Sig {
    s.(score := 0.0, confidence := 0.10, reason := "forecast anchor stale, signal suppressed")
  }

  function Boosted(s: Sig): Sig {
    s.(confidence := Min(s.confidence + 0.10, 1.0), reason := s.reason + " [volume-confirmed]")
  }

  /** Overwrites the first occurrence of `old_`. */
  function ReplaceFirst(sigs: seq<Sig>, old_: Sig, new_: Sig): (r: seq<Sig>)
    ensures |r| == |sigs|
  {
    if sigs == [] then []
    else if sigs[0] == old_ then [new_] + sigs[1..]
    else [sigs[0]] + ReplaceFirst(sigs[1..], old_, new_)
  }

  function AfterStale(sigs: seq<Sig>): seq<Sig> {
    if StaleForecast(sigs) then
      var f := Strongest(sigs, PriceForecast).value;
      ReplaceFirst(sigs, f, Suppressed(f))
    else sigs
  }

  function Rewritten(sigs: seq<Sig>): seq<Sig> {
    if ConfirmedBreakout(sigs) then
      var t := Strongest(sigs, TechnicalTrend).value;
      ReplaceFirst(AfterStale(sigs), t, Boosted(t))
    else AfterStale(sigs)
  }

  lemma {:induction false} ReplaceFirstEffect(sigs: seq<Sig>, old_: Sig, new_: Sig)
    ensures var r := ReplaceFirst(sigs, old_, new_);
      && (forall i :: 0 <= i < |sigs| ==> r[i] == sigs[i] || (sigs[i] == old_ && r[i] == new_))
      && (old_ in sigs ==> new_ in r)
  {
    if sigs != [] && sigs[0] != old_ { ReplaceFirstEffect(sigs[1..], old_, new_); }
  }

  /** A replacement of the same type keeps types, count, sources and validity. */
  lemma ReplaceKeeps(sigs: seq<Sig>, old_: Sig, new_: Sig)
    requires new_.kind == old_.kind && new_.source == old_.source && ValidSig(new_)
    requires forall s :: s in sigs ==> ValidSig(s)
    ensures var r := ReplaceFirst(sigs, old_, new_);
      && |r| == |sigs| && Types(r) == Types(sigs)
      && (forall i :: 0 <= i < |sigs| ==> r[i].kind == sigs[i].kind && r[i].source == sigs[i].source)
      && (forall s :: s in r ==> ValidSig(s))
  {
    var r := ReplaceFirst(sigs, old_, new_);
    ReplaceFirstEffect(sigs, old_, new_);
    forall k | k in Types(sigs) ensures k in Types(r) {
      var i :| 0 <= i < |sigs| && sigs[i].kind == k;
      assert r[i] in r;
    }
    forall k | k in Types(r) ensures k in Types(sigs) {
      var i :| 0 <= i < |r| && r[i].kind == k;
      assert sigs[i] in sigs;
    }
  }

  /** The rewrites preserve the type set, the number of signals, each position's type and source,
      and validity. */
  lemma RewritesPreserve(sigs: seq<Sig>)
    requires forall s :: s in sigs ==> ValidSig(s)
    ensures var r := Rewritten(sigs);
      && |r| == |sigs| && Types(r) == Types(sigs)
      && (forall i :: 0 <= i < |sigs| ==> r[i].kind == sigs[i].kind && r[i].source == sigs[i].source)
      && (forall s :: s in r ==> ValidSig(s))
  {
    StrongestMeaning(sigs, PriceForecast);
    StrongestMeaning(sigs, TechnicalTrend);
    if StaleForecast(sigs) {
      var f := Strongest(sigs, PriceForecast).value;
      ReplaceKeeps(sigs, f, Suppressed(f));
    }
    if ConfirmedBreakout(sigs) {
      var t := Strongest(sigs, TechnicalTrend).value;
      assert ValidSig(t);
      ReplaceKeeps(AfterStale(sigs), t, Boosted(t));
    }
  }

  // ---------------------------------------------------------------- when rewriting breaks uniqueness

  /** The suppressed forecast was bearish and a bullish one from the same source stands beside it. */
  predicate CollidingForecast(sigs: seq<Sig>) {
    StaleForecast(sigs) &&
    var f := Strongest(sigs, PriceForecast).value;
    f.score < 0.0 && exists i :: 0 <= i < |sigs| && KeyOf(sigs[i]) == SigKey(f.source, PriceForecast, true)
  }

  lemma {:induction false} ReplaceOnce(sigs: seq<Sig>, old_: Sig, new_: Sig, p: nat)
    requires p < |sigs| && sigs[p] == old_ && DistinctKeys(sigs)
    ensures ReplaceFirst(sigs, old_, new_) == sigs[p := new_]
  {
    if p > 0 {
      assert KeyOf(sigs[0]) != KeyOf(sigs[p]);
      assert DistinctKeys(sigs[1..]);
      ReplaceOnce(sigs[1..], old_, new_, p - 1);
      assert sigs[p := new_] == [sigs[0]] + sigs[1..][p - 1 := new_];
    }
  }

  /** One signal per (source, type, sign) survives the rewrites exactly when the stale-forecast
      rewrite does not turn a bearish forecast into a second non-negative one of its source. */
  lemma UniqueAfterRewrites(sigs: seq<Sig>)
    requires DistinctKeys(sigs)
    ensures DistinctKeys(Rewritten(sigs)) <==> !CollidingForecast(sigs)
  {
    StrongestMeaning(sigs, TechnicalTrend);
    UniqueAfterStale(sigs);
    if ConfirmedBreakout(sigs) {
      var t := Strongest(sigs, TechnicalTrend).value;
      var a := AfterStale(sigs);
      KeepsTrend(sigs, t);
      var p :| 0 <= p < |a| && a[p] == t;
      BoostKeepsKeys(a, t);
    }
  }

  lemma KeepsTrend(sigs: seq<Sig>, t: Sig)
    requires t in sigs && t.kind == TechnicalTrend
    ensures t in AfterStale(sigs)
  {
    if StaleForecast(sigs) {
      var f := Strongest(sigs, PriceForecast).value;
      StrongestMeaning(sigs, PriceForecast);
      var p :| 0 <= p < |sigs| && sigs[p] == t;
      ReplaceFirstEffect(sigs, f, Suppressed(f));
      assert AfterStale(sigs)[p] == t;
    }
  }

  lemma BoostKeepsKeys(a: seq<Sig>, t: Sig)
    ensures DistinctKeys(ReplaceFirst(a, t, Boosted(t))) <==> DistinctKeys(a)
  {
    var r := ReplaceFirst(a, t, Boosted(t));
    ReplaceFirstEffect(a, t, Boosted(t));
    forall i | 0 <= i < |a| ensures KeyOf(r[i]) == KeyOf(a[i]) {}
  }

  /** The collision happens: a valid, deduplicated group with a live price of 100, a bearish forecast
      anchored at 200 and a weaker bullish one from the same source. */
  lemma ForecastsCollide() returns (sigs: seq<Sig>)
    ensures DistinctKeys(sigs) && CollidingForecast(sigs) && !DistinctKeys(Rewritten(sigs))
    ensures forall s :: s in sigs ==> ValidSig(s)
  {
    var live := Sig("tradingview", TechnicalTrend, 1.0, 0.8, "", map["current_price" := 100.0]);
    var bear := Sig("timesfm", PriceForecast, -2.0, 0.8, "", map["current_price" := 200.0]);
    var bull := Sig("timesfm", PriceForecast, 1.0, 0.8, "", map["current_price" := 100.0]);
    sigs := [live, bear, bull];
    ForecastsLikeTheseCollide(live, bear, bull);
  }

  lemma ForecastsLikeTheseCollide(live: Sig, bear: Sig, bull: Sig)
    requires live.kind == TechnicalTrend && bear.kind == bull.kind == PriceForecast && bear.source == bull.source
    requires bear.score < 0.0 <= bull.score < -bear.score
    requires live.prices == map["current_price" := 100.0] && bear.prices == map["current_price" := 200.0]
    ensures var sigs := [live, bear, bull];
      DistinctKeys(sigs) && CollidingForecast(sigs) && !DistinctKeys(Rewritten(sigs))
  {
    var sigs := [live, bear, bull];
    StrongestOfThree(live, bear, bull);
    StaleAnchor(sigs, live, bear);
    BesideBullish(sigs, bear, 2);
    UniqueAfterRewrites(sigs);
  }

  /** A trend and two forecasts, the first of them the stronger. */
  lemma StrongestOfThree(trend: Sig, first: Sig, second: Sig)
    requires trend.kind == TechnicalTrend && first.kind == second.kind == PriceForecast
    requires Abs(first.score) > Abs(second.score)
    ensures Strongest([trend, first, second], TechnicalTrend) == Some(trend)
    ensures Strongest([trend, first, second], PriceForecast) == Some(first)
  {
    assert [] + [trend] == [trend];
    assert [trend] + [first] == [trend, first] && [trend, first] + [second] == [trend, first, second];
    forall k ensures Strongest([trend], k) == if k == TechnicalTrend then Some(trend) else None {
      LastStrongest([], trend, k);
    }
    LastStrongest([trend], first, TechnicalTrend);
    LastStrongest([trend], first, PriceForecast);
    LastStrongest([trend, first], second, TechnicalTrend);
    LastStrongest([trend, first], second, PriceForecast);
  }

  lemma StaleAnchor(sigs: seq<Sig>, live: Sig, forecast: Sig)
    requires Strongest(sigs, TechnicalTrend) == Some(live) && Strongest(sigs, PriceForecast) == Some(forecast)
    requires live.prices == map["current_price" := 100.0] && forecast.prices == map["current_price" := 200.0]
    ensures StaleForecast(sigs)
  {
    assert FirstPositive(live.prices, PRICE_KEYS) == Some(100.0);
  }

  lemma BesideBullish(sigs: seq<Sig>, bear: Sig, i: nat)
    requires StaleForecast(sigs) && Strongest(sigs, PriceForecast) == Some(bear) && bear.score < 0.0
    requires i < |sigs| && KeyOf(sigs[i]) == SigKey(bear.source, PriceForecast, true)
    ensures CollidingForecast(sigs)
  {}

  lemma LastStrongest(init: seq<Sig>, s: Sig, k: SignalType)
    ensures Strongest(init + [s], k)
         == if s.kind == k && (Strongest(init, k).None? || Abs(s.score) > Abs(Strongest(init, k).value.score))
            then Some(s) else Strongest(init, k)
  {
    assert (init + [s])[..|init|] == init;
  }

  lemma UniqueAfterStale(sigs: seq<Sig>)
    requires DistinctKeys(sigs)
    ensures DistinctKeys(AfterStale(sigs)) <==> !CollidingForecast(sigs)
  {
    if StaleForecast(sigs) {
      var f := Strongest(sigs, PriceForecast).value;
      StrongestMeaning(sigs, PriceForecast);
      var p :| 0 <= p < |sigs| && sigs[p] == f;
      ReplaceOnce(sigs, f, Suppressed(f), p);
      var r := sigs[p := Suppressed(f)];
      if CollidingForecast(sigs) {
        var q :| 0 <= q < |sigs| && sigs[q].kind == PriceForecast && sigs[q].source == f.source && sigs[q].score >= 0.0;
        assert q != p && KeyOf(r[p]) == KeyOf(r[q]);
      } else {
        forall i, j | 0 <= i < j < |r| ensures KeyOf(r[i]) != KeyOf(r[j]) {
          assert KeyOf(sigs[i]) != KeyOf(sigs[j]);
        }
      }
    }
  }

  // ---------------------------------------------------------------- merging and ranking

  function Concat(members: seq<Snap>): seq<Sig> {
    if members == [] then [] else Concat(members[..|members| - 1]) + members[|members| - 1].signals
  }

  datatype Scored = Scored(strength: real, snap: Snap)

  /** One group's merged snapshot, or None when it has too few signal types. */
  function MergeGroup(c: MergeConfig, root: real -> real, timeframe: string, now: real, g: Group): Option<Scored>
    requires g.members != []
  {
    var deduped := Dedup(Concat(g.members));
    if |Types(deduped)| < MinTypes(c, timeframe) then None
    else
      var adj := FreshnessAdj(c, now - g.members[0].timestamp);
      Some(Scored(AggregateStrength(c, root, deduped, adj),
                  Snap(g.key.symbol, g.key.timeframe, g.members[0].timestamp, Rewritten(deduped))))
  }

  /** What merging makes of each group. */
  function Merging(c: MergeConfig, root: real -> real, timeframe: string, now: real): Group -> Option<Scored> {
    (g: Group) => if g.members == [] then None else MergeGroup(c, root, timeframe, now, g)
  }

  /** The results of f on gs, in order, without the failures. */
  function Collect(gs: seq<Group>, f: Group -> Option<Scored>): seq<Scored> {
    if gs == [] then []
    else Collect(gs[..|gs| - 1], f) + match f(gs[|gs| - 1]) case None => [] case Some(x) => [x]
  }

  function StrengthOf(): Scored -> real { (x: Scored) => x.strength }

  function Parsed(entries: seq<Option<Snap>>): seq<Snap> {
    if entries == [] then []
    else Parsed(entries[..|entries| - 1]) + match entries[|entries| - 1] case None => [] case Some(s) => [s]
  }

  function Unreadable(): Option<Snap> -> bool { (entry: Option<Snap>) => entry.None? }

  lemma {:induction false} ParsedCount(entries: seq<Option<Snap>>)
    ensures |Parsed(entries)| + |Keep(entries, Unreadable())| == |entries|
  {
    if entries != [] {
      var init, last := entries[..|entries| - 1], entries[|entries| - 1];
      ParsedCount(init);
      assert entries == init + [last];
      KeepSnoc(init, last, Unreadable());
    }
  }

  /** More than half of the entries unreadable: the merge is abandoned. */
  predicate TooDegraded(entries: seq<Option<Snap>>) {
    entries != [] && Share(|entries| - |Parsed(entries)|, |entries|) > 0.5
  }

  function Candidates(entries: seq<Option<Snap>>): seq<Group> {
    Groups(Keep(Parsed(entries), IsReal()))
  }

  method ParseEntries(entries: seq<Option<Snap>>) returns (snaps: seq<Snap>, failures: nat)
    ensures snaps == Parsed(entries) && failures == |entries| - |Parsed(entries)|
  {
    snaps, failures := [], 0;
    for i := 0 to |entries|
      invariant snaps == Parsed(entries[..i]) && failures == i - |Parsed(entries[..i])|
    {
      assert entries[..i + 1][..i] == entries[..i];
      match entries[i] {
        case None => failures := failures + 1;
        case Some(s) => snaps := snaps + [s];
      }
    }
    assert entries[..|entries|] == entries;
  }

  method GatherSignals(members: seq<Snap>) returns (signals: seq<Sig>)
    ensures signals == Concat(members)
  {
    signals := [];
    for i := 0 to |members|
      invariant signals == Concat(members[..i])
    {
      assert members[..i + 1][..i] == members[..i];
      signals := signals + members[i].signals;
    }
    assert members[..|members|] == members;
  }

  method MergeOne(c: MergeConfig, root: real -> real, timeframe: string, now: real,
      g: Group) returns (r: Option<Scored>)
    requires g.members != []
    ensures r == MergeGroup(c, root, timeframe, now, g)
  {
    var allSignals := GatherSignals(g.members);
    var deduped := DedupSignals(allSignals);
    if |Types(deduped)| < MinTypes(c, timeframe) { return None; }
    var adj := FreshnessAdj(c, now - g.members[0].timestamp);
    var strength := AggregateStrength(c, root, deduped, adj);
    var ta, breakout := Strongest(deduped, TechnicalTrend), ConfirmedBreakout(deduped);
    var signals := deduped;
    if StaleForecast(deduped) {
      var forecast := Strongest(deduped, PriceForecast).value;
      signals := ReplaceFirst(signals, forecast, Suppressed(forecast));
    }
    if breakout {
      signals := ReplaceFirst(signals, ta.value, Boosted(ta.value));
    }
    return Some(Scored(strength, Snap(g.key.symbol, g.key.timeframe, g.members[0].timestamp, signals)));
  }

  method GroupSnapshots(snaps: seq<Snap>) returns (groups: seq<Group>)
    ensures groups == Groups(snaps)
  {
    groups := [];
    for i := 0 to |snaps|
      invariant groups == Groups(snaps[..i])
    {
      assert snaps[..i + 1][..i] == snaps[..i];
      groups := AddToGroup(groups, snaps[i]);
    }
    assert snaps[..|snaps|] == snaps;
  }

  /** `top` holds the strongest `limit` results of f on the groups, in non-increasing order of
      strength, with no symbol and timeframe twice. */
  ghost predicate IsTopOf(f: Group -> Option<Scored>, groups: seq<Group>, limit: nat, top: seq<Scored>) {
    && |top| <= limit
    && NonIncreasing(top, StrengthOf())
    && (forall x :: x in top ==> exists g :: g in groups && f(g) == Some(x))
    && (forall g :: g in groups && f(g).Some? ==>
          f(g).value in top || (|top| == limit && forall x :: x in top ==> x.strength >= f(g).value.strength))
    && (forall i, j :: 0 <= i < j < |top| ==> GroupKeyOf(top[i].snap) != GroupKeyOf(top[j].snap))
  }

  /** What a merge returns, as a statement about its input: the strongest `limit` of the groups of
      real symbols that have enough signal types. */
  ghost predicate IsMerge(c: MergeConfig, root: real -> real, timeframe: string, now: real,
                          entries: seq<Option<Snap>>, limit: nat, top: seq<Scored>)
  {
    IsTopOf(Merging(c, root, timeframe, now), Candidates(entries), limit, top)
  }

  method MergeAll(c: MergeConfig, root: real -> real, timeframe: string, now: real, groups: seq<Group>)
    returns (merged: seq<Scored>)
    requires forall g :: g in groups ==> g.members != []
    ensures merged == Collect(groups, Merging(c, root, timeframe, now))
  {
    merged := [];
    for i := 0 to |groups|
      invariant merged == Collect(groups[..i], Merging(c, root, timeframe, now))
    {
      assert groups[..i + 1][..i] == groups[..i];
      var r := MergeOne(c, root, timeframe, now, groups[i]);
      assert r == Merging(c, root, timeframe, now)(groups[i]);
      if r.Some? { merged := merged + [r.value]; }
    }
    assert groups[..|groups|] == groups;
  }

  method QualityCheck(entries: seq<Option<Snap>>, failures: nat) returns (degraded: bool)
    requires failures == |entries| - |Parsed(entries)|
    ensures degraded == TooDegraded(entries)
  {
    return |entries| > 0 && Share(failures, |entries|) > 0.5;
  }

  method Merge(c: MergeConfig, root: real -> real, timeframe: string, now: real, entries: seq<Option<Snap>>, limit: nat)
    returns (top: seq<Scored>)
    ensures top == Merged(c, root, timeframe, now, entries, limit)
    ensures Answers(c, root, timeframe, now, entries, limit, top)
  {
    MergeMeaning(c, root, timeframe, now, entries, limit);
    var snaps, failures := ParseEntries(entries);
    var degraded := QualityCheck(entries, failures);
    if degraded { return []; }
    top := MergeReal(c, root, timeframe, now, Keep(snaps, IsReal()), limit);
  }

  method MergeReal(c: MergeConfig, root: real -> real, timeframe: string, now: real, snaps: seq<Snap>, limit: nat)
    returns (top: seq<Scored>)
    ensures top == MergedReal(c, root, timeframe, now, snaps, limit)
  {
    var groups := GroupSnapshots(snaps);
    GroupsMeaning(snaps);
    var merged := MergeAll(c, root, timeframe, now, groups);
    top := RankAndCut(merged, limit);
  }

  method RankAndCut(merged: seq<Scored>, limit: nat) returns (top: seq<Scored>)
    ensures top == Top(SortDesc(merged, StrengthOf()), limit)
  {
    top := SortDesc(merged, StrengthOf());
    if |top| > limit { top := top[..limit]; }
  }

  function MergedReal(c: MergeConfig, root: real -> real, timeframe: string, now: real, snaps: seq<Snap>,
                      limit: nat): seq<Scored>
  {
    Top(SortDesc(Collect(Groups(snaps), Merging(c, root, timeframe, now)), StrengthOf()), limit)
  }

  function Merged(c: MergeConfig, root: real -> real, timeframe: string, now: real, entries: seq<Option<Snap>>,
                  limit: nat): seq<Scored>
  {
    if TooDegraded(entries) then []
    else MergedReal(c, root, timeframe, now, Keep(Parsed(entries), IsReal()), limit)
  }

  /** What a merge answers: nothing when more than half of the entries cannot be read, and otherwise the
      strongest surviving groups. */
  ghost predicate Answers(c: MergeConfig, root: real -> real, timeframe: string, now: real,
                          entries: seq<Option<Snap>>, limit: nat, top: seq<Scored>)
  {
    var bad := |Keep(entries, Unreadable())|;
    && (2 * bad > |entries| ==> top == [])
    && (2 * bad <= |entries| ==> IsMerge(c, root, timeframe, now, entries, limit, top))
  }

  lemma HalfOf(part: nat, whole: nat)
    requires whole > 0
    ensures Share(part, whole) > 0.5 <==> 2 * part > whole
  {
    RatioCompare(part as real, whole as real, 0.5);
  }

  lemma DegradedMeaning(entries: seq<Option<Snap>>)
    ensures TooDegraded(entries) <==> 2 * |Keep(entries, Unreadable())| > |entries|
  {
    ParsedCount(entries);
    if entries != [] { HalfOf(|Keep(entries, Unreadable())|, |entries|); }
  }

  lemma ReadableMerge(c: MergeConfig, root: real -> real, timeframe: string, now: real, entries: seq<Option<Snap>>,
                      limit: nat)
    requires !TooDegraded(entries)
    ensures IsMerge(c, root, timeframe, now, entries, limit, Merged(c, root, timeframe, now, entries, limit))
  {
    GroupsMeaning(Keep(Parsed(entries), IsReal()));
    MergingKeepsKeys(c, root, timeframe, now);
    MergeIsTop(Merging(c, root, timeframe, now), Candidates(entries), limit);
  }

  /** Every merge answers, on readable queues and on degraded ones. */
  lemma MergeMeaning(c: MergeConfig, root: real -> real, timeframe: string, now: real, entries: seq<Option<Snap>>,
                     limit: nat)
    ensures Answers(c, root, timeframe, now, entries, limit, Merged(c, root, timeframe, now, entries, limit))
  {
    DegradedMeaning(entries);
    if !TooDegraded(entries) { ReadableMerge(c, root, timeframe, now, entries, limit); }
  }

  ghost predicate KeepsKeys(f: Group -> Option<Scored>) {
    forall g :: f(g).Some? ==> GroupKeyOf(f(g).value.snap) == g.key
  }

  lemma MergingKeepsKeys(c: MergeConfig, root: real -> real, timeframe: string, now: real)
    ensures KeepsKeys(Merging(c, root, timeframe, now))
  {}

  lemma {:induction false} CollectedFrom(gs: seq<Group>, f: Group -> Option<Scored>, x: Scored)
    ensures x in Collect(gs, f) <==> exists g :: g in gs && f(g) == Some(x)
  {
    if gs != [] {
      var init, last := gs[..|gs| - 1], gs[|gs| - 1];
      CollectedFrom(init, f, x);
      assert gs == init + [last];
      if f(last) == Some(x) { assert last in gs; }
    }
  }

  lemma {:induction false} CollectedAreDistinct(gs: seq<Group>, f: Group -> Option<Scored>, i: nat, j: nat)
    requires DistinctGroups(gs) && KeepsKeys(f) && i < j < |Collect(gs, f)|
    ensures GroupKeyOf(Collect(gs, f)[i].snap) != GroupKeyOf(Collect(gs, f)[j].snap)
  {
    var n := |gs| - 1;
    var before := Collect(gs[..n], f);
    if j < |before| {
      CollectedAreDistinct(gs[..n], f, i, j);
    } else {
      CollectedFrom(gs[..n], f, before[i]);
      var g :| g in gs[..n] && f(g) == Some(before[i]);
      var k :| 0 <= k < n && gs[k] == g;
      assert gs[k].key != gs[n].key;
    }
  }

  lemma DistinctPermutes(xs: seq<Scored>, ys: seq<Scored>)
    requires multiset(xs) == multiset(ys)
    requires forall i, j :: 0 <= i < j < |xs| ==> GroupKeyOf(xs[i].snap) != GroupKeyOf(xs[j].snap)
    ensures forall i, j :: 0 <= i < j < |ys| ==> GroupKeyOf(ys[i].snap) != GroupKeyOf(ys[j].snap)
  {
    SameElements(xs, ys);
    DistinctPermuted(xs, ys);
    forall i, j | 0 <= i < j < |ys| ensures GroupKeyOf(ys[i].snap) != GroupKeyOf(ys[j].snap) {
      assert ys[i] in xs && ys[j] in xs;
      var a :| 0 <= a < |xs| && xs[a] == ys[i];
      var b :| 0 <= b < |xs| && xs[b] == ys[j];
      assert a != b;
    }
  }

  function Top(sorted: seq<Scored>, limit: nat): seq<Scored> { if |sorted| > limit then sorted[..limit] else sorted }

  lemma TopOfSorted(sorted: seq<Scored>, limit: nat)
    requires NonIncreasing(sorted, StrengthOf())
    ensures var top := Top(sorted, limit);
      && |top| <= limit && NonIncreasing(top, StrengthOf())
      && (forall x :: x in top ==> x in sorted)
      && (forall y :: y in sorted && y !in top ==> |top| == limit && forall x :: x in top ==> x.strength >= y.strength)
  {
    var top := Top(sorted, limit);
    if |sorted| > limit {
      CutKeepsBest(sorted, limit, StrengthOf());
      forall y, x | y in sorted && y !in top && x in top ensures x.strength >= y.strength {
        var i :| 0 <= i < |sorted| && sorted[i] == y;
        assert i >= limit && sorted[limit..][i - limit] == y;
        assert StrengthOf()(x) >= StrengthOf()(y);
      }
    }
  }

  lemma MergeIsTop(f: Group -> Option<Scored>, groups: seq<Group>, limit: nat)
    requires DistinctGroups(groups) && KeepsKeys(f)
    ensures IsTopOf(f, groups, limit, Top(SortDesc(Collect(groups, f), StrengthOf()), limit))
  {
    var merged := Collect(groups, f);
    var sorted := SortDesc(merged, StrengthOf());
    SortDescSpec(merged, StrengthOf());
    forall i, j | 0 <= i < j < |merged| ensures GroupKeyOf(merged[i].snap) != GroupKeyOf(merged[j].snap) {
      CollectedAreDistinct(groups, f, i, j);
    }
    DistinctPermutes(merged, sorted);
    TopOfSorted(sorted, limit);
    var top := Top(sorted, limit);
    forall x | x in top ensures exists g :: g in groups && f(g) == Some(x) { CollectedFrom(groups, f, x); }
    forall g | g in groups && f(g).Some? ensures f(g).value in sorted { CollectedFrom(groups, f, f(g).value); }
  }

  /** Every snapshot a merge returns: a real symbol, enough distinct types, valid signals, at least
      one per type, merged from all the group's snapshots. */
  lemma MergedSnapshotsAreSound(c: MergeConfig, root: real -> real, timeframe: string, now: real,
                                entries: seq<Option<Snap>>, limit: nat, top: seq<Scored>, x: Scored)
    requires IsMerge(c, root, timeframe, now, entries, limit, top) && x in top
    requires forall s :: s in Parsed(entries) ==> ValidSnap(s)
    ensures !Pseudo(x.snap.symbol)
    ensures |Types(x.snap.signals)| >= MinTypes(c, timeframe)
    ensures forall s :: s in x.snap.signals ==> ValidSig(s)
    ensures exists g :: g in Candidates(entries)
              && g.members == Keep(Keep(Parsed(entries), IsReal()), InGroup(GroupKeyOf(x.snap)))
              && Types(x.snap.signals) == Types(Dedup(Concat(g.members)))
  {
    var snaps := Keep(Parsed(entries), IsReal());
    var g :| g in Candidates(entries) && Merging(c, root, timeframe, now)(g) == Some(x);
    GroupsMeaning(snaps);
    assert g.members[0] in g.members;
    assert !Pseudo(g.members[0].symbol);
    ConcatValid(g.members);
    DedupValid(Concat(g.members));
    RewritesPreserve(Dedup(Concat(g.members)));
  }

  lemma {:induction false} ConcatValid(members: seq<Snap>)
    requires forall s :: s in members ==> ValidSnap(s)
    ensures forall s :: s in Concat(members) ==> ValidSig(s)
  {
    if members != [] {
      ConcatValid(members[..|members| - 1]);
      assert members[|members| - 1] in members;
    }
  }

  lemma {:induction false} DedupValid(sigs: seq<Sig>)
    requires forall s :: s in sigs ==> ValidSig(s)
    ensures forall s :: s in Dedup(sigs) ==> ValidSig(s)
  {
    forall s | s in Dedup(sigs) ensures ValidSig(s) {
      var i :| 0 <= i < |Dedup(sigs)| && Dedup(sigs)[i] == s;
      DedupMeaning(sigs, i);
      var p :| 0 <= p < |sigs| && FirstMaximumAt(sigs, s, p);
    }
  }
}
