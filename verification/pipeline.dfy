/** From scan to served verdicts: the catalog that is collected is the one the prober and the API agree on. */
module Pipeline {
  import opened Text
  import opened Sequences
  import opened Catalog
  import opened Scanning
  import opened Ingresses
  import opened Collecting
  import opened Assembling
  import opened AssemblyTheorems
  import opened Probing
  import opened Serving
  import Mounts
  import Swagger
  import OverlayIntegrity
  import OverlayAccounting

  function Undocumented(svc: ServiceRef): ServiceRef { svc.(apiDocs := []) }

  /** An application as it was assembled: without API documents and without telemetry. */
  function Bare(app: ApplicationEntry): ApplicationEntry { Identity(app).(services := Map(Undocumented, app.services)) }

  /** The applications collected from a scan, whatever API documents and telemetry were added since. */
  ghost predicate CollectedFrom(apps: seq<ApplicationEntry>, cfg: Config, snap: Snapshot) {
    multiset(Map(Bare, apps)) == multiset(Entries(cfg, snap))
  }

  /** What Kubernetes and DNS naming guarantee of a scan. */
  ghost predicate WellNamed(snap: Snapshot) {
    && UniqueServices(snap.scan.services) && SafeSnapshot(snap)
    && forall s | s in snap.scan.services :: SlashFree(s.namespace) && SlashFree(s.name)
  }

  /** Every service reference of an entry stands for a scanned service of the entry's namespace. */
  lemma ServiceOfEntry(cfg: Config, snap: Snapshot, app: ApplicationEntry, ref: ServiceRef) returns (s: ServiceInfo)
    requires app in Entries(cfg, snap) && ref in app.services
    ensures s in snap.scan.services && s.namespace == app.namespace && ref == RefAt(snap)(s)
  {
    var all, ws, orphans := snap.scan.services, snap.scan.workloads, Orphans(snap);
    var f, g := WorkloadEntry(cfg, RefAt(snap), all), OrphanEntry(cfg, RefAt(snap));
    MapIn(f, ws, app);
    MapIn(g, orphans, app);
    if w :| w in ws && f(w) == app {
      MapIn(RefAt(snap), Filter(Targets(w), all), ref);
      s :| s in Filter(Targets(w), all) && RefAt(snap)(s) == ref;
      FilterIn(Targets(w), all, s);
    } else {
      s :| s in orphans && g(s) == app;
      FilterIn(Not(Claimed(ws)), all, s);
    }
  }

  lemma ServiceOfApp(cfg: Config, snap: Snapshot, apps: seq<ApplicationEntry>, i: nat, k: nat) returns (s: ServiceInfo)
    requires CollectedFrom(apps, cfg, snap) && ServiceAt(apps, i, k)
    ensures s in snap.scan.services && s.namespace == apps[i].namespace &&
            Undocumented(apps[i].services[k]) == RefAt(snap)(s)
  {
    var bare := Map(Bare, apps)[i];
    assert bare in multiset(Map(Bare, apps));
    assert bare in multiset(Entries(cfg, snap));
    s := ServiceOfEntry(cfg, snap, bare, bare.services[k]);
  }

  /** A collected catalog is consistent: workloads that share a service share its routes. */
  lemma CollectedConsistent(cfg: Config, snap: Snapshot, apps: seq<ApplicationEntry>)
    requires CollectedFrom(apps, cfg, snap) && WellNamed(snap)
    ensures Consistent(apps)
  {
    forall i: nat, k: nat | ServiceAt(apps, i, k)
      ensures SlashFree(apps[i].namespace) && SlashFree(apps[i].services[k].name)
    {
      var s := ServiceOfApp(cfg, snap, apps, i, k);
    }
    forall i: nat, k: nat, j: nat, l: nat | ServiceAt(apps, i, k) && ServiceAt(apps, j, l) &&
      NamedAlike(apps, i, k, j, l)
      ensures apps[i].services[k].routes == apps[j].services[l].routes
    {
      var s := ServiceOfApp(cfg, snap, apps, i, k);
      var t := ServiceOfApp(cfg, snap, apps, j, l);
      SameService(snap.scan.services, s, t);
    }
  }

  /** The prober considers exactly the hosts that the catalog shows. */
  lemma HostsConsidered(hosts: seq<string>, routes: seq<RouteRef>, h: string)
    requires HostsAreRouted(hosts, routes)
    ensures h in hosts <==> WinnerIndex(routes, h).Some?
  {
    WinnerExact(routes, h);
    if h in hosts {
      var r :| r in routes && h in r.hosts;
      var i :| 0 <= i < |routes| && routes[i] == r;
      assert Carries(routes[i], h);
    }
    if i: nat :| WinnerIndex(routes, h) == Some(i) { assert routes[i] in routes && WinsHost(routes, h, i); }
  }

  /** The owner of the winning route of host `h` did not opt out of probing. */
  function Probed(svc: ServiceRef): string -> bool {
    (h: string) =>
      match WinnerIndex(svc.routes, h)
      case Some(i) => !OptedOut(WinnerOf(svc.routes[i]))
      case None => false
  }

  /** The verdict of probing host `h` as its winning route configures it. */
  function VerdictOf(namespace: string, svc: ServiceRef, net: Network): string -> Option<ReachabilityResult> {
    (h: string) =>
      match WinnerIndex(svc.routes, h)
      case Some(i) =>
        var t := TargetFor(namespace, svc.name, h, WinnerOf(svc.routes[i]));
        Some(Verdict(t, FinalReply(net, t)))
      case None => None
  }

  function Present<T>(x: T): Option<T> { Some(x) }

  lemma OwnIsProbed(namespace: string, svc: ServiceRef, h: string, net: Network)
    ensures OwnVerdict(namespace, svc, h, net) == if Probed(svc)(h) then VerdictOf(namespace, svc, net)(h) else None
    ensures Probed(svc)(h) ==> VerdictOf(namespace, svc, net)(h).Some?
  {
  }

  lemma PresentNext<T>(front: seq<T>, v: Option<T>)
    ensures Map(Present, front + (match v case Some(x) => [x] case None => [])) ==
            Map(Present, front) + (if v.Some? then [v] else [])
  {
  }

  lemma {:induction false} ExpectedIsFiltered(namespace: string, svc: ServiceRef, hosts: seq<string>, net: Network)
    ensures Map(Present, Expected(namespace, svc, hosts, net)) ==
            Map(VerdictOf(namespace, svc, net), Filter(Probed(svc), hosts))
  {
    if hosts != [] {
      var n := |hosts| - 1;
      ExpectedIsFiltered(namespace, svc, hosts[..n], net);
      MapFilterNext(VerdictOf(namespace, svc, net), Probed(svc), hosts, n);
      assert hosts[..n + 1] == hosts;
      OwnIsProbed(namespace, svc, hosts[n], net);
      PresentNext(Expected(namespace, svc, hosts[..n], net), OwnVerdict(namespace, svc, hosts[n], net));
    }
  }

  /** A service shows, in the order of its external hosts, the verdict of each host unless the owner of that host's
      winning route opted out; and its external hosts are exactly the hosts with a winning route. */
  ghost predicate ShowsVerdicts(namespace: string, svc: ServiceRef, net: Network, shown: seq<ReachabilityResult>) {
    && Map(Present, shown) == Map(VerdictOf(namespace, svc, net), Filter(Probed(svc), svc.externalHosts))
    && forall h :: h in svc.externalHosts <==> WinnerIndex(svc.routes, h).Some?
  }

  lemma ShowsExpected(cfg: Config, snap: Snapshot, apps: seq<ApplicationEntry>, net: Network, i: nat, k: nat)
    requires CollectedFrom(apps, cfg, snap) && WellNamed(snap) && ServiceAt(apps, i, k)
    ensures
      var namespace, svc := apps[i].namespace, apps[i].services[k];
      ShowsVerdicts(namespace, svc, net, Expected(namespace, svc, svc.externalHosts, net))
  {
    var svc := apps[i].services[k];
    ExpectedIsFiltered(apps[i].namespace, svc, svc.externalHosts, net);
    var s := ServiceOfApp(cfg, snap, apps, i, k);
    HostsMatchRoutes(snap, s);
    forall h ensures h in svc.externalHosts <==> WinnerIndex(svc.routes, h).Some? {
      HostsConsidered(svc.externalHosts, svc.routes, h);
    }
  }

  /** Probe-to-serve agreement: collect a catalog, probe it in any completion order, and serve a service while
      the store still holds the outcome. */
  lemma ProbeToServe(cfg: Config, snap: Snapshot, apps: seq<ApplicationEntry>, net: Network, results: Verdicts,
                     i: nat, k: nat, seen: Seen, t: nat)
    requires CollectedFrom(apps, cfg, snap) && WellNamed(snap) && ServiceAt(apps, i, k)
    requires Covers(results, net, CatalogTargets(apps))
    requires Unchanging(seen, results, t + Serving.Lookups(apps[i].services, k), |apps[i].services[k].externalHosts|)
    ensures ShowsVerdicts(apps[i].namespace, apps[i].services[k], net,
                          VerdictsAt(apps[i].namespace, apps[i].services, seen, t, k))
  {
    CollectedConsistent(cfg, snap, apps);
    ServedAsProbed(apps, net, results, i, k, seen, t);
    ShowsExpected(cfg, snap, apps, net, i, k);
  }

  /** Two probe cycles over one collected catalog and one network agree, however their probes interleave. */
  lemma CycleDeterministic(cfg: Config, snap: Snapshot, apps: seq<ApplicationEntry>, net: Network, a: Verdicts,
                           b: Verdicts)
    requires CollectedFrom(apps, cfg, snap) && WellNamed(snap)
    requires Covers(a, net, CatalogTargets(apps)) && Covers(b, net, CatalogTargets(apps))
    ensures a == b
  {
    CollectedConsistent(cfg, snap, apps);
    ProbeDeterministic(apps, net, a, b);
  }

  /** In a collected catalog an API document has an external URL exactly when its service has an external host. */
  lemma ExternalURLIffHost(cfg: Config, snap: Snapshot, apps: seq<ApplicationEntry>, i: nat, k: nat, path: string)
    requires CollectedFrom(apps, cfg, snap) && WellNamed(snap) && ServiceAt(apps, i, k) && Mounts.StartsWithSlash(path)
    ensures
      var svc := apps[i].services[k];
      Mounts.URLOf(Mounts.Chosen(Mounts.AllMounts(svc.routes), path)).Some? <==> svc.externalHosts != []
  {
    var svc := apps[i].services[k];
    var s := ServiceOfApp(cfg, snap, apps, i, k);
    HostsMatchRoutes(snap, s);
    assert Mounts.NamedHosts(svc.routes);
    var m := Mounts.ExternalURLExact(svc.routes, path);
    HostedRoute(svc.externalHosts, svc.routes);
  }

  lemma HostedRoute(hosts: seq<string>, routes: seq<RouteRef>)
    requires HostsAreRouted(hosts, routes)
    ensures hosts != [] <==> exists r :: r in routes && r.hosts != []
  {
    if hosts != [] { assert hosts[0] in hosts; }
    if r :| r in routes && r.hosts != [] { assert r.hosts[0] in hosts; }
  }

  // ------------------------------------------------------------ what collection adds

  lemma BareEntry(cfg: Config, snap: Snapshot, app: ApplicationEntry)
    requires app in Entries(cfg, snap)
    ensures Bare(app) == app
  {
    forall ref | ref in app.services ensures Undocumented(ref) == ref { var s := ServiceOfEntry(cfg, snap, app, ref); }
    MapIdentity(Undocumented, app.services);
    var all, ws := snap.scan.services, snap.scan.workloads;
    MapIn(WorkloadEntry(cfg, RefAt(snap), all), ws, app);
    MapIn(OrphanEntry(cfg, RefAt(snap)), Orphans(snap), app);
  }

  lemma BareEntries(cfg: Config, snap: Snapshot)
    ensures Map(Bare, Entries(cfg, snap)) == Entries(cfg, snap)
  {
    forall app | app in Entries(cfg, snap) ensures Bare(app) == app { BareEntry(cfg, snap, app); }
    MapIdentity(Bare, Entries(cfg, snap));
  }

  /** API discovery and the telemetry overlay leave the assembled part of every application alone, so the published
      catalog is one collected from the scan. */
  lemma PublishedIsCollected(cfg: Config, snap: Snapshot, built: seq<ApplicationEntry>,
                             documented: seq<ApplicationEntry>,
                             found: Swagger.Key -> seq<APIDocInfo>, published: seq<ApplicationEntry>)
    requires multiset(built) == multiset(Entries(cfg, snap))
    requires Swagger.Recorded(built, documented, found) && OverlayIntegrity.AllEnriched(documented, published)
    ensures CollectedFrom(published, cfg, snap)
  {
    MapPermutation(Bare, built, Entries(cfg, snap));
    BareEntries(cfg, snap);
    forall i | 0 <= i < |built| ensures Bare(published[i]) == Bare(built[i]) {
      DocumentedBare(built, documented, found, i);
      EnrichedBare(documented[i], published[i]);
    }
    assert Map(Bare, published) == Map(Bare, built);
  }

  lemma EnrichedBare(was: ApplicationEntry, now: ApplicationEntry)
    requires OverlayIntegrity.Enriched(was, now)
    ensures Bare(now) == Bare(was)
  {
    assert Identity(was).services == was.services && Identity(now).services == now.services;
  }

  /** What the telemetry overlay is given carries no rates yet. */
  lemma CollectedUnrated(cfg: Config, snap: Snapshot, built: seq<ApplicationEntry>, documented: seq<ApplicationEntry>,
                         found: Swagger.Key -> seq<APIDocInfo>)
    requires multiset(built) == multiset(Entries(cfg, snap)) && Swagger.Recorded(built, documented, found)
    ensures OverlayAccounting.Unrated(documented)
  {
    forall i | 0 <= i < |built| ensures documented[i].requestRate == 0.0 && documented[i].errorRate == 0.0 {
      assert built[i] in multiset(Entries(cfg, snap));
      MapIn(WorkloadEntry(cfg, RefAt(snap), snap.scan.services), snap.scan.workloads, built[i]);
      MapIn(OrphanEntry(cfg, RefAt(snap)), Orphans(snap), built[i]);
    }
  }

  lemma DocumentedBare(built: seq<ApplicationEntry>, documented: seq<ApplicationEntry>,
                       found: Swagger.Key -> seq<APIDocInfo>, i: nat)
    requires Swagger.Recorded(built, documented, found) && i < |built|
    ensures Bare(documented[i]) == Bare(built[i])
  {
    forall j | 0 <= j < |built[i].services|
      ensures Undocumented(documented[i].services[j]) == Undocumented(built[i].services[j])
    {
      var key := Swagger.Key(i, j);
      assert Swagger.ServiceAt(built, key);
      assert Swagger.Documented(built[i].services[j], documented[i].services[j], found(key));
    }
    assert Map(Undocumented, documented[i].services) == Map(Undocumented, built[i].services);
  }
}
