/** Engine conflicts: one database peer stamped with several engines keeps only the dominant ones. */
module Engines {
  import opened Text
  import opened Sequences
  import opened Catalog
  import opened Resolving

  datatype Sample = Sample(metric: map<string, string>, value: real)

  function Engine(s: Sample): string {
    FirstNonEmpty([Label(s.metric, "db_system_name"), Label(s.metric, "db_system")])
  }

  function RawHost(s: Sample): string { StripPort(Label(s.metric, "server_address")) }

  function EngineConflictKey(src: DependencyNode, rawHost: string): string {
    JoinKey(src.namespace, src.service) + "\0" + rawHost
  }

  /** The (client workload, peer) pair a sample is about. */
  function PeerKey(res: Resolver): Sample -> string {
    (s: Sample) => EngineConflictKey(res.ResolveClient(s.metric), RawHost(s))
  }

  // Nothing below depends on how samples are grouped, so `peer` is any grouping.

  function Rate(peer: Sample -> string, key: string, engine: string): Sample -> real {
    s => if peer(s) == key && Engine(s) == engine then s.value else 0.0
  }

  /** Observed traffic of one engine on one peer. */
  function Total(peer: Sample -> string, samples: seq<Sample>, key: string, engine: string): real {
    Sum(Rate(peer, key, engine), samples)
  }

  function EnginesOf(peer: Sample -> string, samples: seq<Sample>, key: string): set<string> {
    set s | s in samples && Engine(s) != "" && peer(s) == key :: Engine(s)
  }

  predicate Conflicted(peer: Sample -> string, samples: seq<Sample>, key: string) {
    |EnginesOf(peer, samples, key)| >= 2
  }

  /** No engine of the peer carries more traffic, and this one carries no negative traffic. */
  predicate Dominant(peer: Sample -> string, samples: seq<Sample>, key: string, engine: string) {
    && engine in EnginesOf(peer, samples, key)
    && Total(peer, samples, key, engine) >= 0.0
    && forall e | e in EnginesOf(peer, samples, key) ::
         Total(peer, samples, key, e) <= Total(peer, samples, key, engine)
  }

  /** The conflicted peers, each with the engines to keep. */
  ghost predicate IsWinners(winners: map<string, set<string>>, peer: Sample -> string, samples: seq<Sample>) {
    forall key ::
      && (key in winners <==> Conflicted(peer, samples, key))
      && (key in winners ==> forall e :: e in winners[key] <==> Dominant(peer, samples, key, e))
  }

  // ------------------------------------------------------------- the computation

  function RatesAt(totals: map<string, map<string, real>>, key: string): map<string, real> {
    if key in totals then totals[key] else map[]
  }

  function Bumped(rates: map<string, real>, engine: string, v: real): map<string, real> {
    rates[engine := (if engine in rates then rates[engine] else 0.0) + v]
  }

  ghost predicate RatesExact(rates: map<string, real>, peer: Sample -> string, samples: seq<Sample>, key: string) {
    && rates.Keys == EnginesOf(peer, samples, key)
    && forall e | e in rates :: rates[e] == Total(peer, samples, key, e)
  }

  ghost predicate TotalsExact(
    totals: map<string, map<string, real>>, peer: Sample -> string, samples: seq<Sample>, key: string)
  {
    (key in totals ==> totals[key] != map[]) && RatesExact(RatesAt(totals, key), peer, samples, key)
  }

  lemma RatesStep(rates: map<string, real>, peer: Sample -> string, samples: seq<Sample>, s: Sample, key: string)
    requires RatesExact(rates, peer, samples, key)
    ensures RatesExact(if Engine(s) != "" && peer(s) == key then Bumped(rates, Engine(s), s.value) else rates,
                       peer, samples + [s], key)
  {
    TotalsGrow(peer, samples, s, key);
    if Engine(s) != "" && peer(s) == key {
      RatesBump(rates, peer, samples, s, key);
    } else {
      assert Engine(s) == "" ==> Engine(s) !in EnginesOf(peer, samples, key);
    }
  }

  /** Adding to the rate of one engine, for any exact totals before and after. */
  lemma BumpExact(rates: map<string, real>, before: string -> real, after: string -> real, engine: string, v: real)
    requires (forall e | e in rates :: rates[e] == before(e)) && (engine !in rates ==> before(engine) == 0.0)
    requires forall e :: after(e) == before(e) + (if e == engine then v else 0.0)
    ensures Bumped(rates, engine, v).Keys == rates.Keys + {engine}
    ensures forall e | e in Bumped(rates, engine, v) :: Bumped(rates, engine, v)[e] == after(e)
  {
  }

  function TotalOf(peer: Sample -> string, samples: seq<Sample>, key: string): string -> real {
    (e: string) => Total(peer, samples, key, e)
  }

  lemma RatesBump(rates: map<string, real>, peer: Sample -> string, samples: seq<Sample>, s: Sample, key: string)
    requires RatesExact(rates, peer, samples, key) && Engine(s) != "" && peer(s) == key
    ensures RatesExact(Bumped(rates, Engine(s), s.value), peer, samples + [s], key)
  {
    TotalsGrow(peer, samples, s, key);
    if Engine(s) !in rates { NoTraffic(peer, samples, key, Engine(s)); }
    BumpExact(rates, TotalOf(peer, samples, key), TotalOf(peer, samples + [s], key), Engine(s), s.value);
  }

  /** One more sample adds its engine and its traffic to its own peer only. */
  lemma TotalsGrow(peer: Sample -> string, samples: seq<Sample>, s: Sample, key: string)
    ensures EnginesOf(peer, samples + [s], key) ==
            EnginesOf(peer, samples, key) + (if Engine(s) != "" && peer(s) == key then {Engine(s)} else {})
    ensures forall e :: Total(peer, samples + [s], key, e) ==
              Total(peer, samples, key, e) + (if peer(s) == key && Engine(s) == e then s.value else 0.0)
  {
  }

  lemma {:induction false} NoTraffic(peer: Sample -> string, samples: seq<Sample>, key: string, engine: string)
    requires engine != "" && engine !in EnginesOf(peer, samples, key)
    ensures Total(peer, samples, key, engine) == 0.0
  {
    if samples != [] {
      var n := |samples| - 1;
      assert samples[n] in samples;
      assert forall s | s in samples[..n] :: s in samples;
      NoTraffic(peer, samples[..n], key, engine);
    }
  }

  method EngineTotals(peer: Sample -> string, samples: seq<Sample>) returns (totals: map<string, map<string, real>>)
    ensures forall key :: TotalsExact(totals, peer, samples, key)
  {
    totals := map[];
    for i := 0 to |samples|
      invariant forall key :: TotalsExact(totals, peer, samples[..i], key)
    {
      var s := samples[i];
      ghost var before, pre, upTo := totals, samples[..i], samples[..i + 1];
      var system := Engine(s);
      if system != "" {
        var key := peer(s);
        totals := totals[key := Bumped(RatesAt(totals, key), system, s.value)];
      }
      assert upTo == pre + [s];
      forall key ensures TotalsExact(totals, peer, upTo, key) {
        assert TotalsExact(before, peer, pre, key);
        RatesStep(RatesAt(before, key), peer, pre, s, key);
      }
    }
    assert samples[..|samples|] == samples;
  }

  /** The engines that no other engine, and not zero either, exceeds. */
  method KeepDominant(byEngine: map<string, real>) returns (keep: set<string>)
    ensures forall e :: e in keep <==>
              e in byEngine && byEngine[e] >= 0.0 && forall f | f in byEngine :: byEngine[f] <= byEngine[e]
  {
    var max := 0.0;
    var rest := byEngine.Keys;
    while rest != {}
      invariant rest <= byEngine.Keys && max >= 0.0
      invariant forall f | f in byEngine && f !in rest :: byEngine[f] <= max
      invariant max == 0.0 || exists f :: f in byEngine && byEngine[f] == max
    {
      var e :| e in rest;
      if byEngine[e] > max { max := byEngine[e]; }
      rest := rest - {e};
    }
    keep := {};
    rest := byEngine.Keys;
    while rest != {}
      invariant rest <= byEngine.Keys
      invariant forall e :: e in keep <==> e in byEngine && e !in rest && byEngine[e] >= max
    {
      var e :| e in rest;
      if byEngine[e] >= max { keep := keep + {e}; }
      rest := rest - {e};
    }
  }

  method EngineWinners(peer: Sample -> string, samples: seq<Sample>) returns (winners: map<string, set<string>>)
    ensures IsWinners(winners, peer, samples)
  {
    var totals := EngineTotals(peer, samples);
    winners := map[];
    var rest := totals.Keys;
    while rest != {}
      invariant rest <= totals.Keys
      invariant forall key | key in winners :: key in totals && key !in rest
      invariant forall key | key in totals && key !in rest :: key in winners <==> Conflicted(peer, samples, key)
      invariant forall key | key in winners :: forall e :: e in winners[key] <==> Dominant(peer, samples, key, e)
    {
      var key :| key in rest;
      assert TotalsExact(totals, peer, samples, key);
      if |totals[key].Keys| >= 2 {
        var keep := KeepDominant(totals[key]);
        winners := winners[key := keep];
      }
      rest := rest - {key};
    }
    forall key | key !in totals ensures !Conflicted(peer, samples, key) {
      assert TotalsExact(totals, peer, samples, key);
    }
  }

  // ----------------------------------------------------------------- properties

  /** Order of the samples is irrelevant: the winners of a batch are the winners of any rearrangement. */
  lemma WinnersPermutation(winners: map<string, set<string>>, peer: Sample -> string, a: seq<Sample>, b: seq<Sample>)
    requires multiset(a) == multiset(b) && IsWinners(winners, peer, a)
    ensures IsWinners(winners, peer, b)
  {
    forall key ensures EnginesOf(peer, a, key) == EnginesOf(peer, b, key) { SameEngines(peer, a, b, key); }
    forall key, e ensures Total(peer, a, key, e) == Total(peer, b, key, e) {
      SumPermutation(Rate(peer, key, e), a, b);
    }
    forall key ensures key in winners <==> Conflicted(peer, b, key) {
      assert Conflicted(peer, a, key) <==> Conflicted(peer, b, key);
    }
    forall key, e | key in winners ensures e in winners[key] <==> Dominant(peer, b, key, e) {
      assert Dominant(peer, a, key, e) <==> Dominant(peer, b, key, e);
    }
  }

  lemma SameEngines(peer: Sample -> string, a: seq<Sample>, b: seq<Sample>, key: string)
    requires multiset(a) == multiset(b)
    ensures EnginesOf(peer, a, key) == EnginesOf(peer, b, key)
  {
    assert forall s :: s in a <==> s in multiset(a);
    assert forall s :: s in b <==> s in multiset(b);
  }

  /** A conflict leaves an engine standing exactly when some engine carries non-negative traffic. */
  lemma SomeEngineKept(peer: Sample -> string, samples: seq<Sample>, key: string)
    ensures (exists e :: Dominant(peer, samples, key, e)) <==>
            exists e :: e in EnginesOf(peer, samples, key) && Total(peer, samples, key, e) >= 0.0
  {
    if e :| e in EnginesOf(peer, samples, key) && Total(peer, samples, key, e) >= 0.0 {
      var top := Greatest(peer, samples, key, EnginesOf(peer, samples, key));
      assert Dominant(peer, samples, key, top);
    }
  }

  lemma {:induction false} Greatest(peer: Sample -> string, samples: seq<Sample>, key: string, engines: set<string>)
    returns (top: string)
    requires engines != {}
    ensures top in engines
    ensures forall e | e in engines :: Total(peer, samples, key, e) <= Total(peer, samples, key, top)
    decreases engines
  {
    var x :| x in engines;
    if engines == {x} {
      top := x;
    } else {
      var y := Greatest(peer, samples, key, engines - {x});
      top := if Total(peer, samples, key, x) > Total(peer, samples, key, y) then x else y;
      assert engines == engines - {x} + {x};
    }
  }

  /** Counts are non-negative, so on real data no conflict ever removes the last engine. */
  lemma NonNegativeKeepsOne(peer: Sample -> string, samples: seq<Sample>, key: string)
    requires forall s | s in samples :: s.value >= 0.0
    requires Conflicted(peer, samples, key)
    ensures exists e :: Dominant(peer, samples, key, e)
  {
    assert EnginesOf(peer, samples, key) != {};
    var e :| e in EnginesOf(peer, samples, key);
    NonNegativeTotal(peer, samples, key, e);
    SomeEngineKept(peer, samples, key);
  }

  lemma {:induction false} NonNegativeTotal(peer: Sample -> string, samples: seq<Sample>, key: string, engine: string)
    requires forall s | s in samples :: s.value >= 0.0
    ensures Total(peer, samples, key, engine) >= 0.0
  {
    if samples != [] {
      assert samples[|samples| - 1] in samples;
      NonNegativeTotal(peer, samples[..|samples| - 1], key, engine);
    }
  }

  /** The reconciliation keeps this sample. */
  predicate Survives(peer: Sample -> string, samples: seq<Sample>, s: Sample) {
    Engine(s) != "" && Conflicted(peer, samples, peer(s)) ==>
      Dominant(peer, samples, peer(s), Engine(s))
  }

  function Survivors(peer: Sample -> string, samples: seq<Sample>): seq<Sample> {
    Filter(s => Survives(peer, samples, s), samples)
  }

  /** An engine that is kept keeps all its traffic. */
  lemma KeptTotals(peer: Sample -> string, samples: seq<Sample>, key: string, engine: string)
    requires engine != ""
    requires Conflicted(peer, samples, key) ==> Dominant(peer, samples, key, engine)
    ensures Total(peer, Survivors(peer, samples), key, engine) == Total(peer, samples, key, engine)
  {
    SumFilter(Rate(peer, key, engine), s => Survives(peer, samples, s), samples);
  }

  lemma SurvivorEngines(peer: Sample -> string, samples: seq<Sample>, key: string, engine: string)
    requires engine in EnginesOf(peer, Survivors(peer, samples), key)
    ensures engine in EnginesOf(peer, samples, key)
    ensures Conflicted(peer, samples, key) ==> Dominant(peer, samples, key, engine)
  {
    var s :| s in Survivors(peer, samples) && Engine(s) == engine && peer(s) == key;
    FilterIn(s => Survives(peer, samples, s), samples, s);
  }

  /** Reconciling twice changes nothing: every survivor survives among the survivors. */
  lemma ReconciliationFixpoint(peer: Sample -> string, samples: seq<Sample>, s: Sample)
    requires s in Survivors(peer, samples)
    ensures Survives(peer, Survivors(peer, samples), s)
  {
    var kept := Survivors(peer, samples);
    var key, engine := peer(s), Engine(s);
    if engine != "" && Conflicted(peer, kept, key) {
      assert engine in EnginesOf(peer, kept, key);
      forall e | e in EnginesOf(peer, kept, key)
        ensures e in EnginesOf(peer, samples, key)
        ensures Conflicted(peer, samples, key) ==> Dominant(peer, samples, key, e)
        ensures Total(peer, kept, key, e) == Total(peer, samples, key, e)
      {
        SurvivorEngines(peer, samples, key, e);
        KeptTotals(peer, samples, key, e);
      }
      SubsetSize(EnginesOf(peer, kept, key), EnginesOf(peer, samples, key));
      assert Dominant(peer, kept, key, engine);
    }
  }

  lemma {:induction false} SubsetSize(a: set<string>, b: set<string>)
    requires a <= b
    ensures |a| <= |b|
  {
    if a != {} {
      var x :| x in a;
      SubsetSize(a - {x}, b - {x});
    }
  }
}
