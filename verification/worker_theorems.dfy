/** What holds after every sequence of worker and request steps. */
module WorkerTheorems {
  import opened Text
  import opened Sequences
  import opened Catalog
  import opened Probing
  import opened Serving
  import opened Workers
  import Collecting
  import Scanning
  import opened Pipeline
  import opened Outcomes

  // ------------------------------------------------------------------ safety of runs

  /** Every run keeps the invariant: the store is the initial, empty snapshot or what probing one published catalog
      gave, the numbers of the probed catalogs never decrease, and every response stems from one catalog. */
  lemma {:induction false} RunSafe(sys: System, events: seq<Event>)
    ensures Inv(sys, Run(sys, events))
  {
    if events != [] {
      RunSafe(sys, events[..|events| - 1]);
      StepKeeps(sys, Run(sys, events[..|events| - 1]), events[|events| - 1]);
    }
  }

  lemma RunAppend(sys: System, xs: seq<Event>, ys: seq<Event>)
    ensures Run(sys, xs + ys) == Fold(Step(sys), Run(sys, xs), ys)
  {
    FoldAppend(Step(sys), Init(), xs, ys);
  }

  lemma {:induction false} FoldExtends(sys: System, s: State, ys: seq<Event>)
    ensures Extends(s, Fold(Step(sys), s, ys))
  {
    if ys != [] {
      FoldExtends(sys, s, ys[..|ys| - 1]);
      StepExtends(sys, Fold(Step(sys), s, ys[..|ys| - 1]), ys[|ys| - 1]);
    }
  }

  /** The catalogs of the collections that succeeded. */
  function Collections(events: seq<Event>): seq<CatalogView> {
    if events == [] then []
    else
      var last := events[|events| - 1];
      Collections(events[..|events| - 1]) + (if last.CollectOk? then [last.cat] else [])
  }

  /** The catalog served is that of the last collection that succeeded, whatever failed or was probed since. */
  lemma {:induction false} LastCatalogKept(sys: System, events: seq<Event>)
    ensures
      var s, collected := Run(sys, events), Collections(events);
      && s.published == collected
      && s.live == (if collected == [] then None else Some(collected[|collected| - 1]))
  {
    RunSafe(sys, events);
    if events != [] {
      LastCatalogKept(sys, events[..|events| - 1]);
      assert Collections(events[..|events| - 1]) + [] == Collections(events[..|events| - 1]);
    }
  }

  /** The service is ready exactly when some collection has succeeded, so once ready it stays ready. */
  lemma StaysReady(sys: System, xs: seq<Event>, ys: seq<Event>)
    ensures Ready(Run(sys, xs)) <==> exists e :: e in xs && e.CollectOk?
    ensures Ready(Run(sys, xs)) ==> Ready(Run(sys, xs + ys))
  {
    LastCatalogKept(sys, xs);
    LastCatalogKept(sys, xs + ys);
    CollectedSome(xs);
    CollectedSome(xs + ys);
  }

  lemma {:induction false} CollectedSome(events: seq<Event>)
    ensures Collections(events) != [] <==> exists e :: e in events && e.CollectOk?
  {
    if events != [] {
      CollectedSome(events[..|events| - 1]);
      assert events == events[..|events| - 1] + [events[|events| - 1]];
    }
  }

  /** The number of the catalog whose verdicts the store holds; -1 while it is empty. */
  function StoreRank(s: State): int
    requires s.stored != []
  {
    Rank(s.stored[|s.stored| - 1])
  }

  /** As a run goes on, the catalog behind the store never gets older, and is always a published one. */
  lemma StoreNeverOlder(sys: System, xs: seq<Event>, ys: seq<Event>)
    ensures
      var s, t := Run(sys, xs), Run(sys, xs + ys);
      && s.stored != [] && t.stored != [] && StoreRank(s) <= StoreRank(t) < |t.published|
      && (StoreRank(t) == -1 ==> t.store == map[])
      && (StoreRank(t) >= 0 ==>
            var o := t.stored[|t.stored| - 1].origin.value;
            o.index == StoreRank(t) && sys.outcome(t.published[o.index], o.net, t.store))
  {
    var s, t := Run(sys, xs), Run(sys, xs + ys);
    RunSafe(sys, xs);
    RunSafe(sys, xs + ys);
    RunAppend(sys, xs, ys);
    FoldExtends(sys, s, ys);
    assert s.stored[|s.stored| - 1] == t.stored[|s.stored| - 1];
    assert Grounded(sys, t.published, t.stored[|t.stored| - 1]);
  }

  // -------------------------------------------------------- requests in quiet periods

  /** All lookups saw the n-th snapshot. */
  predicate AllAt(looks: seq<nat>, n: nat) { forall k | 0 <= k < |looks| :: looks[k] == n }

  /** Since state `s` no probe cycle has ended; what was requested since saw one snapshot. */
  ghost predicate Quiet(s: State, t: State) {
    && s.stored != [] && t.stored == s.stored && s.sent <= t.sent
    && (forall id | id in t.open && id !in s.open :: AllAt(t.open[id].looks, |s.stored| - 1))
    && (forall k | |s.sent| <= k < |t.sent| && t.sent[k].request !in s.open :: AllAt(t.sent[k].looks, |s.stored| - 1))
  }

  lemma QuietStep(sys: System, s: State, t: State, e: Event)
    requires Quiet(s, t) && !e.TickEnd?
    ensures Quiet(s, Step(sys)(t, e))
  {
    match e
    case Look(id) =>
      if id in t.open && id !in s.open {
        assert AllAt(t.open[id].looks, |s.stored| - 1);
        assert AllAt(t.open[id].looks + [|s.stored| - 1], |s.stored| - 1);
      }
    case Arrive(id) =>
      assert AllAt([], |s.stored| - 1);
    case Respond(id) =>
      var t' := Step(sys)(t, e);
      assert forall k | 0 <= k < |t.sent| :: t'.sent[k] == t.sent[k];
      if t' != t {
        assert t'.sent[|t.sent|] == Answer(sys, id, t.open[id]);
        assert id !in s.open ==> AllAt(t.open[id].looks, |s.stored| - 1);
      }
    case CollectOk(_) =>
    case CollectFail =>
    case TickBegin =>
  }

  /** A request that arrives and is answered while no probe cycle ends sees one verdict snapshot. */
  lemma {:induction false} QuietRun(sys: System, s: State, ys: seq<Event>)
    requires s.stored != [] && forall e | e in ys :: !e.TickEnd?
    ensures Quiet(s, Fold(Step(sys), s, ys))
  {
    if ys != [] {
      assert ys[|ys| - 1] in ys;
      QuietRun(sys, s, ys[..|ys| - 1]);
      QuietStep(sys, s, Fold(Step(sys), s, ys[..|ys| - 1]), ys[|ys| - 1]);
    }
  }

  /** ... so what it serves is computed from that snapshot alone, and if that stems from probing the very catalog
      the request loaded, the snapshot is an outcome of probing it. */
  lemma QuietResponse(sys: System, xs: seq<Event>, ys: seq<Event>, n: nat) returns (seen: seq<Verdicts>)
    requires forall e | e in ys :: !e.TickEnd?
    requires
      var s, t := Run(sys, xs), Run(sys, xs + ys);
      s.stored != [] && |s.sent| <= n < |t.sent| && t.sent[n].request !in s.open
    ensures
      var s, r := Run(sys, xs), Run(sys, xs + ys).sent[n];
      var cat := ViewOf(sys.cluster, r.source);
      && r.meta == MetaOf(cat) && r.data == sys.serve(cat, seen)
      && |seen| == sys.lookups(cat) && (forall m | 0 <= m < |seen| :: seen[m] == s.store)
      && (StoreRank(s) >= 0 && r.source.Some? && r.source.value.index == StoreRank(s) ==>
            sys.outcome(cat, s.stored[|s.stored| - 1].origin.value.net, s.store))
  {
    var s, t := Run(sys, xs), Run(sys, xs + ys);
    var r := t.sent[n];
    RunSafe(sys, xs);
    RunSafe(sys, xs + ys);
    RunAppend(sys, xs, ys);
    QuietRun(sys, s, ys);
    assert ResponseInv(sys, t, r) && AllAt(r.looks, |s.stored| - 1);
    assert Grounded(sys, t.published, t.stored[|s.stored| - 1]);
    seen := SnapshotsAt(t.stored, r.looks);
  }

  /** A response whose lookups all saw the m-th snapshot is computed from it alone, and if that stems from probing the
      very catalog the request loaded, it is an outcome of probing it. */
  lemma FromOneSnapshot(sys: System, t: State, r: Response, m: nat) returns (seen: seq<Verdicts>)
    requires Inv(sys, t) && r in t.sent && m < |t.stored| && AllAt(r.looks, m)
    ensures
      var cat, x := ViewOf(sys.cluster, r.source), t.stored[m];
      && r.meta == MetaOf(cat) && r.data == sys.serve(cat, seen)
      && |seen| == sys.lookups(cat) && (forall k | 0 <= k < |seen| :: seen[k] == x.results)
      && (x.origin.Some? && r.source.Some? && r.source.value.index == x.origin.value.index ==>
            sys.outcome(cat, x.origin.value.net, x.results))
  {
    assert ResponseInv(sys, t, r);
    assert Grounded(sys, t.published, t.stored[m]);
    seen := SnapshotsAt(t.stored, r.looks);
  }

  // ------------------------------------------------------------------- end to end

  /** The service: cycles end with the verdicts of every target of the catalog probed, and requests overlay the
      snapshots they saw. */
  ghost function Service(cluster: string): System {
    System(cluster,
           (cat: CatalogView, net: Network, results: Verdicts) => Covers(results, net, CatalogTargets(cat.apps)),
           (cat: CatalogView) => CatalogLookups(cat.apps),
           (cat: CatalogView, seen: seq<Verdicts>) => ServeApps(cat.apps, SeenBy(seen)))
  }

  function SeenBy(seen: seq<Verdicts>): Seen { (n: nat) => if n < |seen| then seen[n] else map[] }

  /** Every response is what the overlay makes of the catalog while the store is replaced between its lookups: by the
      snapshots those lookups read. */
  lemma ResponseOverlays(cluster: string, events: seq<Event>, n: nat) returns (arrivals: Arrivals)
    requires n < |Run(Service(cluster), events).sent|
    ensures
      var t := Run(Service(cluster), events);
      var r := t.sent[n];
      && r.data == ServeApps(ViewOf(cluster, r.source).apps, SeenFrom(map[], arrivals))
      && forall k | 0 <= k < |r.looks| :: r.looks[k] < |t.stored| && arrivals(k) == Some(t.stored[r.looks[k]].results)
  {
    var t := Run(Service(cluster), events);
    RunSafe(Service(cluster), events);
    assert ResponseInv(Service(cluster), t, t.sent[n]);
    var seen := SnapshotsAt(t.stored, t.sent[n].looks);
    arrivals := ArrivalsOf(seen);
    ServeAppsAlike(ViewOf(cluster, t.sent[n].source).apps, SeenBy(seen), SeenFrom(map[], arrivals));
  }

  function ArrivalsOf(seen: seq<Verdicts>): Arrivals { (k: nat) => Some(SeenBy(seen)(k)) }

  lemma {:induction false} LookupsWithin(services: seq<ServiceRef>, k: nat, n: nat)
    requires k < n <= |services|
    ensures Serving.Lookups(services, k) + |services[k].externalHosts| <= Serving.Lookups(services, n)
  {
    if k < n - 1 { LookupsWithin(services, k, n - 1); }
  }

  lemma {:induction false} AppWithin(apps: seq<ApplicationEntry>, i: nat)
    requires i < |apps|
    ensures CatalogLookups(apps[..i]) + AppLookups(apps[i]) <= CatalogLookups(apps)
  {
    var n := |apps| - 1;
    if i < n {
      AppWithin(apps[..n], i);
      assert apps[..n][..i] == apps[..i];
    }
  }

  /** A catalog of one collection. */
  ghost predicate Wellformed(cat: CatalogView, cfg: Collecting.Config, snap: Scanning.Snapshot) {
    CollectedFrom(cat.apps, cfg, snap) && WellNamed(snap)
  }

  /** End to end, over every interleaving: a response whose lookups all saw one snapshot, and one that stems from
      probing the catalog the request loaded, shows for every service, in the order of its hosts, exactly the outcomes
      of requesting those whose owner did not opt out. */
  lemma EndToEnd(cluster: string, events: seq<Event>, t: State, n: nat, r: Response, m: nat, source: Loaded,
                 net: Network, cfg: Collecting.Config, snap: Scanning.Snapshot, i: nat, k: nat)
    requires t == Run(Service(cluster), events) && n < |t.sent| && r == t.sent[n] && r.source == Some(source)
    requires m < |t.stored| && AllAt(r.looks, m) && t.stored[m].origin == Some(Origin(source.index, net))
    requires Wellformed(source.cat, cfg, snap) && ServiceAt(source.cat.apps, i, k)
    ensures i < |r.data| && k < |r.data[i].services|
    ensures ShowsVerdicts(source.cat.apps[i].namespace, source.cat.apps[i].services[k], net,
                          r.data[i].services[k].reachability)
    ensures OutcomesShown(source.cat.apps[i].services[k], net, r.data[i].services[k].reachability)
  {
    RunSafe(Service(cluster), events);
    var seen := FromOneSnapshot(Service(cluster), t, r, m);
    Settled(source.cat, t.stored[m].results, net, seen, cfg, snap, i, k);
    ShownOutcomes(source.cat.apps[i].namespace, source.cat.apps[i].services[k], net,
                  r.data[i].services[k].reachability);
  }

  lemma ServedVerdicts(app: ApplicationEntry, seen: Seen, t: nat, k: nat)
    requires k < |app.services| && app.services[k].reachability == []
    ensures k < |ServeApp(app, seen, t).services|
    ensures ServeApp(app, seen, t).services[k].reachability == VerdictsAt(app.namespace, app.services, seen, t, k)
  {
  }

  lemma LooksUnchanged(cat: CatalogView, results: Verdicts, seen: seq<Verdicts>, i: nat, k: nat)
    requires ServiceAt(cat.apps, i, k) && |seen| == CatalogLookups(cat.apps) &&
             forall n | 0 <= n < |seen| :: seen[n] == results
    ensures Unchanging(SeenBy(seen), results, CatalogLookups(cat.apps[..i]) + Serving.Lookups(cat.apps[i].services, k),
                       |cat.apps[i].services[k].externalHosts|)
  {
    AppWithin(cat.apps, i);
    LookupsWithin(cat.apps[i].services, k, |cat.apps[i].services|);
  }

  lemma NoneShownYet(cfg: Collecting.Config, snap: Scanning.Snapshot, apps: seq<ApplicationEntry>, i: nat, k: nat)
    requires CollectedFrom(apps, cfg, snap) && ServiceAt(apps, i, k)
    ensures apps[i].services[k].reachability == []
  {
    var s := ServiceOfApp(cfg, snap, apps, i, k);
  }

  /** What a request on a catalog shows for one service: the verdicts found at the service's own lookups. */
  lemma ServedAt(cfg: Collecting.Config, snap: Scanning.Snapshot, apps: seq<ApplicationEntry>, seen: Seen, i: nat,
                 k: nat)
    requires CollectedFrom(apps, cfg, snap) && ServiceAt(apps, i, k)
    ensures
      var data := ServeApps(apps, seen);
      && i < |data| && k < |data[i].services|
      && data[i].services[k].reachability ==
         VerdictsAt(apps[i].namespace, apps[i].services, seen, CatalogLookups(apps[..i]), k)
  {
    NoneShownYet(cfg, snap, apps, i, k);
    ServedVerdicts(apps[i], seen, CatalogLookups(apps[..i]), k);
  }

  /** What is served from one snapshot, taken by probing the catalog itself. */
  lemma Settled(cat: CatalogView, results: Verdicts, net: Network, seen: seq<Verdicts>, cfg: Collecting.Config,
                snap: Scanning.Snapshot, i: nat, k: nat)
    requires Covers(results, net, CatalogTargets(cat.apps)) && Wellformed(cat, cfg, snap) && ServiceAt(cat.apps, i, k)
    requires |seen| == CatalogLookups(cat.apps) && forall n | 0 <= n < |seen| :: seen[n] == results
    ensures
      var app, data := cat.apps[i], ServeApps(cat.apps, SeenBy(seen));
      && i < |data| && k < |data[i].services|
      && ShowsVerdicts(app.namespace, app.services[k], net, data[i].services[k].reachability)
  {
    LooksUnchanged(cat, results, seen, i, k);
    ProbeToServe(cfg, snap, cat.apps, net, results, i, k, SeenBy(seen), CatalogLookups(cat.apps[..i]));
    ServedAt(cfg, snap, cat.apps, SeenBy(seen), i, k);
  }
}
