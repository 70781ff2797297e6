/** The catalog does not depend on the scan schedule, and accounts for every service. */
module AssemblyTheorems {
  import opened Text
  import opened Sequences
  import opened Catalog
  import opened Scanning
  import opened Ingresses
  import opened Collecting
  import opened Assembling
  import opened NetworkPolicies

  // -------------------------------------------------------------- schedule independence

  predicate SlashFreeScan(scan: Scan) {
    && (forall s | s in scan.services :: SlashFree(s.namespace))
    && (forall ing | ing in scan.ingresses :: SlashFree(ing.namespace))
    && (forall np | np in scan.netPolicies :: SlashFree(np.namespace))
  }

  /** An Ingress of another namespace has nothing for this key. */
  lemma ForeignIngress(ing: IngressInfo, ns: string, name: string)
    requires SlashFree(ing.namespace) && SlashFree(ns) && ing.namespace != ns
    ensures IngressHosts(JoinKey(ns, name))(ing) == [] && IngressRefs(JoinKey(ns, name))(ing) == []
  {
    var key := JoinKey(ns, name);
    if svc :| BackendOf(ing.namespace, key) == Some(svc) {
      BackendOfKey(ing.namespace, svc, key);
      KeyInjective(ing.namespace, svc, ns, name, '/');
      assert false;
    }
  }

  lemma LocalIngresses(ings: seq<IngressInfo>, ns: string, name: string)
    requires SlashFree(ns) && forall ing | ing in ings :: SlashFree(ing.namespace)
    ensures
      var key, own := JoinKey(ns, name), Filter(InNamespace(IngressNs, ns), ings);
      && Flatten(Map(IngressHosts(key), ings)) == Flatten(Map(IngressHosts(key), own))
      && Flatten(Map(IngressRefs(key), ings)) == Flatten(Map(IngressRefs(key), own))
  {
    var key, p := JoinKey(ns, name), InNamespace(IngressNs, ns);
    forall ing | ing in ings && !p(ing) ensures IngressHosts(key)(ing) == [] && IngressRefs(key)(ing) == [] {
      assert p(ing) == (IngressNs(ing) == ns);
      ForeignIngress(ing, ns, name);
    }
    FlattenSkip(IngressHosts(key), p, ings);
    FlattenSkip(IngressRefs(key), p, ings);
  }

  /** Snapshots of one cluster that differ in the scan schedule only. */
  ghost predicate SameSnapshot(a: Snapshot, b: Snapshot) {
    && SameScan(a.scan, b.scan) && a.ingressRoutes == b.ingressRoutes
    && SlashFreeScan(a.scan) && SlashFreeScan(b.scan)
  }

  lemma RefIndependent(a: Snapshot, b: Snapshot, s: ServiceInfo)
    requires SameSnapshot(a, b) && SlashFree(s.namespace)
    ensures RefAt(a)(s) == RefAt(b)(s)
  {
    LocalIngresses(a.scan.ingresses, s.namespace, s.name);
    LocalIngresses(b.scan.ingresses, s.namespace, s.name);
  }

  lemma TargetsLocal(services: seq<ServiceInfo>, w: WorkloadInfo)
    ensures Filter(Targets(w), services) == Filter(Targets(w), Filter(InNamespace(ServiceNs, w.namespace), services))
  {
    var p := InNamespace(ServiceNs, w.namespace);
    forall s: ServiceInfo | Targets(w)(s) ensures p(s) { assert p(s) == (ServiceNs(s) == w.namespace); }
    FilterFilter(Targets(w), p, services);
  }

  lemma TargetsIndependent(a: seq<ServiceInfo>, b: seq<ServiceInfo>, w: WorkloadInfo)
    requires SameByNamespace(ServiceNs, a, b)
    ensures Filter(Targets(w), a) == Filter(Targets(w), b)
  {
    TargetsLocal(a, w);
    TargetsLocal(b, w);
  }

  lemma EntriesViaIndependent(cfg: Config, ref: ServiceInfo -> ServiceRef, a: Snapshot, b: Snapshot)
    requires SameScan(a.scan, b.scan)
    ensures multiset(EntriesVia(cfg, ref, a)) == multiset(EntriesVia(cfg, ref, b))
  {
    SameByNamespaceMultiset(WorkloadNs, a.scan.workloads, b.scan.workloads);
    SameByNamespaceMultiset(ServiceNs, a.scan.services, b.scan.services);
    var f, g := WorkloadEntry(cfg, ref, a.scan.services), WorkloadEntry(cfg, ref, b.scan.services);
    forall w ensures f(w) == g(w) { TargetsIndependent(a.scan.services, b.scan.services, w); }
    MapCongruent(f, g, a.scan.workloads);
    MapPermutation(g, a.scan.workloads, b.scan.workloads);
    OrphansIndependent(a, b);
    MapPermutation(OrphanEntry(cfg, ref), Orphans(a), Orphans(b));
  }

  lemma OrphansIndependent(a: Snapshot, b: Snapshot)
    requires multiset(a.scan.workloads) == multiset(b.scan.workloads) &&
             multiset(a.scan.services) == multiset(b.scan.services)
    ensures multiset(Orphans(a)) == multiset(Orphans(b))
  {
    var p, q := Not(Claimed(a.scan.workloads)), Not(Claimed(b.scan.workloads));
    forall w ensures w in a.scan.workloads <==> w in b.scan.workloads {
      assert w in a.scan.workloads <==> w in multiset(a.scan.workloads);
    }
    FilterCongruent(p, q, a.scan.services);
    FilterPermutation(q, a.scan.services, b.scan.services);
  }

  /** Whatever order the namespace scans finish in, the catalog holds the same entries, down to the order of
      services, hosts and routes inside each of them, and the same NetworkPolicy edges. */
  lemma ScanOrderIrrelevant(cfg: Config, names: seq<string>, scans: seq<Scan>, routes: seq<IngressRouteInfo>,
                            a: seq<nat>, b: seq<nat>)
    requires |scans| == |names| && forall i, j | 0 <= i < j < |names| :: names[i] != names[j]
    requires forall i | 0 <= i < |scans| :: SlashFree(names[i]) && Local(scans[i], names[i])
    requires Schedule(a, |scans|) && Schedule(b, |scans|)
    ensures
      var one, two := Snapshot(names, Merged(At(scans, a)), routes), Snapshot(names, Merged(At(scans, b)), routes);
      && multiset(Entries(cfg, one)) == multiset(Entries(cfg, two))
      && multiset(PolicyEdges(cfg.cluster, one.scan)) == multiset(PolicyEdges(cfg.cluster, two.scan))
  {
    var one, two := Snapshot(names, Merged(At(scans, a)), routes), Snapshot(names, Merged(At(scans, b)), routes);
    ScheduleIndependent(names, scans, a, b);
    MergedSlashFree(names, scans, a);
    MergedSlashFree(names, scans, b);
    PolicyEdgesIndependent(cfg.cluster, one.scan, two.scan);
    forall s | s in one.scan.services ensures RefAt(one)(s) == RefAt(two)(s) { RefIndependent(one, two, s); }
    EntriesCongruent(cfg, RefAt(one), RefAt(two), one);
    EntriesViaIndependent(cfg, RefAt(two), one, two);
  }

  lemma {:induction false} MergedSlashFree(names: seq<string>, scans: seq<Scan>, order: seq<nat>)
    requires |scans| == |names| && forall i | 0 <= i < |scans| :: SlashFree(names[i]) && Local(scans[i], names[i])
    requires forall k | 0 <= k < |order| :: order[k] < |scans|
    ensures SlashFreeScan(Merged(At(scans, order)))
  {
    if order != [] {
      var n := |order| - 1;
      MergedSlashFree(names, scans, order[..n]);
      assert At(scans, order)[..n] == At(scans, order[..n]);
    }
  }

  // ------------------------------------------------------------- service accounting

  /** Service names are unique within a namespace. */
  ghost predicate UniqueServices(services: seq<ServiceInfo>) {
    forall i, j | 0 <= i < j < |services| ::
      services[i].namespace != services[j].namespace || services[i].name != services[j].name
  }

  lemma SameService(services: seq<ServiceInfo>, s: ServiceInfo, t: ServiceInfo)
    requires UniqueServices(services) && s in services && t in services
    requires s.namespace == t.namespace && s.name == t.name
    ensures s == t
  {
  }

  /** A catalog holds one entry per workload and one per unclaimed service, nothing more. */
  lemma EntryCount(cfg: Config, snap: Snapshot, apps: seq<ApplicationEntry>)
    requires multiset(apps) == multiset(Entries(cfg, snap))
    ensures |apps| == |snap.scan.workloads| + |Orphans(snap)|
    ensures forall s :: multiset(Orphans(snap))[s] ==
              if exists w | w in snap.scan.workloads :: Reached(w)(s) then 0 else multiset(snap.scan.services)[s]
  {
    assert |multiset(apps)| == |multiset(Entries(cfg, snap))|;
    forall s
      ensures multiset(Orphans(snap))[s] ==
              if exists w | w in snap.scan.workloads :: Reached(w)(s) then 0 else multiset(snap.scan.services)[s]
    {
      ClaimedReached(snap.scan.workloads, s);
      FilterCount(Not(Claimed(snap.scan.workloads)), snap.scan.services, s);
    }
  }

  lemma ClaimedReached(ws: seq<WorkloadInfo>, s: ServiceInfo)
    ensures Claimed(ws)(s) <==> exists w | w in ws :: Reached(w)(s)
  {
    forall w: WorkloadInfo { TargetsReached(w, s); }
  }

  lemma CountSnoc<T>(s: seq<T>, y: T, x: T)
    ensures multiset(s + [y])[x] == multiset(s)[x] + (if x == y then 1 else 0)
  {
  }

  lemma {:induction false} CountMapped<T, U>(f: T -> U, xs: seq<T>, x: T)
    requires forall y | y in xs && f(y) == f(x) :: y == x
    ensures multiset(Map(f, xs))[f(x)] == multiset(xs)[x]
  {
    if xs != [] {
      var n := |xs| - 1;
      assert xs[n] in xs;
      forall y | y in xs[..n] && f(y) == f(x) ensures y == x { assert y in xs; }
      CountMapped(f, xs[..n], x);
      assert xs == xs[..n] + [xs[n]];
      CountSnoc(xs[..n], xs[n], x);
      CountSnoc(Map(f, xs[..n]), f(xs[n]), f(x));
    }
  }

  lemma {:induction false} CountOnce(services: seq<ServiceInfo>, s: ServiceInfo)
    requires UniqueServices(services) && s in services
    ensures multiset(services)[s] == 1
  {
    var n := |services| - 1;
    var front := services[..n];
    assert services == front + [services[n]];
    if s == services[n] {
      assert s !in front;
    } else {
      CountOnce(front, s);
    }
  }

  /** Workloads of one kind have unique names within a namespace, and none is of kind Service. */
  ghost predicate UniqueWorkloads(ws: seq<WorkloadInfo>) {
    && (forall w | w in ws :: w.kind != "Service")
    && (forall v, w | v in ws && w in ws && v.namespace == w.namespace && v.name == w.name && v.kind == w.kind ::
          v == w)
  }

  predicate EntryOf(w: WorkloadInfo, app: ApplicationEntry) {
    app.namespace == w.namespace && app.name == w.name && app.kind == w.kind
  }

  /** An element that occurs once, and whose image only it has, is kept once or not at all. */
  lemma CountKept<T, U>(f: T -> U, p: T -> bool, all: seq<T>, x: T)
    requires multiset(all)[x] == 1 && forall y | y in all && f(y) == f(x) :: y == x
    ensures multiset(Map(f, Filter(p, all)))[f(x)] == if p(x) then 1 else 0
  {
    forall y | y in Filter(p, all) && f(y) == f(x) ensures y == x { FilterIn(p, all, y); }
    CountMapped(f, Filter(p, all), x);
    FilterCount(p, all, x);
  }

  /** How often a service is attached to a workload of its namespace. */
  lemma AttachedCount(services: seq<ServiceInfo>, f: ServiceInfo -> ServiceRef, w: WorkloadInfo, s: ServiceInfo)
    requires UniqueServices(services) && s in services && s.namespace == w.namespace
    requires forall t :: f(t).name == t.name
    ensures multiset(Map(f, Filter(Targets(w), services)))[f(s)] == if Targets(w)(s) then 1 else 0
  {
    var all := Filter(InNamespace(ServiceNs, w.namespace), services);
    LocalOnce(services, w.namespace, s);
    forall t | t in all && f(t) == f(s) ensures t == s {
      OfNamespace(services, t, w.namespace);
      SameService(services, s, t);
    }
    CountKept(f, Targets(w), all, s);
    TargetsLocal(services, w);
  }

  lemma LocalOnce(services: seq<ServiceInfo>, ns: string, s: ServiceInfo)
    requires UniqueServices(services) && s in services && s.namespace == ns
    ensures multiset(Filter(InNamespace(ServiceNs, ns), services))[s] == 1
  {
    FilterCount(InNamespace(ServiceNs, ns), services, s);
    CountOnce(services, s);
    assert InNamespace(ServiceNs, ns)(s) == (ServiceNs(s) == ns);
  }

  /** The entries of one workload among those built from workloads and unclaimed services. */
  lemma OnlyEntry(g: WorkloadInfo -> ApplicationEntry, o: ServiceInfo -> ApplicationEntry, ws: seq<WorkloadInfo>,
                  orphans: seq<ServiceInfo>, apps: seq<ApplicationEntry>, w: WorkloadInfo)
    requires multiset(apps) == multiset(Map(g, ws) + Map(o, orphans))
    requires UniqueWorkloads(ws) && w in ws
    requires (forall v :: EntryOf(v, g(v))) && forall t :: o(t).kind == "Service"
    ensures g(w) in apps && forall app | app in apps && EntryOf(w, app) :: app == g(w)
  {
    forall app ensures app in apps <==> app in Map(g, ws) || app in Map(o, orphans) {
      assert app in apps <==> app in multiset(apps);
    }
    MapIn(g, ws, g(w));
    forall app | app in apps && EntryOf(w, app) ensures app == g(w) {
      MapIn(g, ws, app);
      MapIn(o, orphans, app);
    }
  }

  lemma AttachedVia(cfg: Config, f: ServiceInfo -> ServiceRef, snap: Snapshot, apps: seq<ApplicationEntry>,
                    w: WorkloadInfo, s: ServiceInfo)
    requires multiset(apps) == multiset(EntriesVia(cfg, f, snap)) && forall t :: f(t).name == t.name
    requires UniqueServices(snap.scan.services) && UniqueWorkloads(snap.scan.workloads)
    requires w in snap.scan.workloads && s in snap.scan.services && s.namespace == w.namespace
    ensures exists app :: app in apps && EntryOf(w, app)
    ensures forall app | app in apps && EntryOf(w, app) ::
              multiset(app.services)[f(s)] == if Targets(w)(s) then 1 else 0
  {
    var g := WorkloadEntry(cfg, f, snap.scan.services);
    OnlyEntry(g, OrphanEntry(cfg, f), snap.scan.workloads, Orphans(snap), apps, w);
    AttachedCount(snap.scan.services, f, w, s);
    assert EntryOf(w, g(w)) && g(w) in apps;
  }

  /** Every application of a workload in the assembled catalog carries a service of its namespace exactly once when
      the service's selector matches the workload, and never otherwise; there is such an application. */
  lemma AttachedExactly(cfg: Config, snap: Snapshot, apps: seq<ApplicationEntry>, w: WorkloadInfo, s: ServiceInfo)
    requires multiset(apps) == multiset(Entries(cfg, snap))
    requires UniqueServices(snap.scan.services) && UniqueWorkloads(snap.scan.workloads)
    requires w in snap.scan.workloads && s in snap.scan.services && s.namespace == w.namespace
    ensures exists app :: app in apps && EntryOf(w, app)
    ensures forall app | app in apps && EntryOf(w, app) ::
              multiset(app.services)[RefAt(snap)(s)] == if Reached(w)(s) then 1 else 0
  {
    AttachedVia(cfg, RefAt(snap), snap, apps, w, s);
    TargetsReached(w, s);
  }

  /** A service is an entry of its own exactly once when no workload claims it, and never otherwise. */
  lemma OrphanExactlyOnce(cfg: Config, snap: Snapshot, s: ServiceInfo)
    requires UniqueServices(snap.scan.services) && s in snap.scan.services
    requires forall w | w in snap.scan.workloads :: w.kind != "Service"
    ensures multiset(Entries(cfg, snap))[OrphanEntry(cfg, RefAt(snap))(s)] ==
            if exists w | w in snap.scan.workloads :: Reached(w)(s) then 0 else 1
  {
    ClaimedReached(snap.scan.workloads, s);
    var f, p, all := OrphanEntry(cfg, RefAt(snap)), Not(Claimed(snap.scan.workloads)), snap.scan.services;
    var g := WorkloadEntry(cfg, RefAt(snap), all);
    MapIn(g, snap.scan.workloads, f(s));
    assert f(s) !in Map(g, snap.scan.workloads);
    forall t | t in Orphans(snap) && f(t) == f(s) ensures t == s {
      FilterIn(p, all, t);
      SameService(all, s, t);
    }
    CountMapped(f, Orphans(snap), s);
    FilterCount(p, all, s);
    CountOnce(all, s);
  }

  // ----------------------------------------------------------- hosts and routes agree

  /** The hosts of a service are exactly the hosts of its routes, and none is empty. */
  ghost predicate HostsAreRouted(hosts: seq<string>, routes: seq<RouteRef>) {
    && (forall h | h in hosts :: h != "" && exists r :: r in routes && h in r.hosts)
    && (forall r | r in routes :: forall h | h in r.hosts :: h in hosts)
  }

  /** A host without the delimiters of the route key. */
  predicate SafeHost(h: string) { h != "" && '|' !in h && ',' !in h }

  predicate SafeRoute(r: RouteRef) { '|' !in r.name && forall h | h in r.hosts :: SafeHost(h) }

  ghost predicate SafeSnapshot(snap: Snapshot) {
    && (forall ing | ing in snap.scan.ingresses ::
          HostsMatchPairs(ing) && '|' !in ing.name &&
          forall svc | svc in ing.serviceRoutes :: forall p | p in ing.serviceRoutes[svc] :: SafeHost(p.host))
    && (forall ir | ir in snap.ingressRoutes ::
          '|' !in ir.name && forall rule | rule in ir.routes :: forall h | h in rule.hosts :: SafeHost(h))
  }

  /** Routes with the same key carry the same hosts. */
  lemma RouteKeyHosts(a: RouteRef, b: RouteRef)
    requires SafeRoute(a) && SafeRoute(b) && RouteKey(a) == RouteKey(b)
    ensures a.hosts == b.hosts
  {
    var p, q := Join(a.hosts, ","), Join(b.hosts, ",");
    KeyInjective(a.name, p + "|" + Join(a.pathPrefixes, ","), b.name, q + "|" + Join(b.pathPrefixes, ","), '|');
    JoinLacks(a.hosts);
    JoinLacks(b.hosts);
    KeyInjective(p, Join(a.pathPrefixes, ","), q, Join(b.pathPrefixes, ","), '|');
    JoinInjective(a.hosts, b.hosts, ',');
  }

  lemma {:induction false} JoinLacks(parts: seq<string>)
    requires forall p | p in parts :: '|' !in p
    ensures '|' !in Join(parts, ",")
  {
    if parts != [] {
      assert parts[0] in parts;
      JoinLacks(parts[1..]);
    }
  }

  lemma IngressRouted(ing: IngressInfo, key: string)
    requires HostsMatchPairs(ing) && '|' !in ing.name
    requires forall svc | svc in ing.serviceRoutes :: forall p | p in ing.serviceRoutes[svc] :: SafeHost(p.host)
    ensures HostsAreRouted(IngressHosts(key)(ing), IngressRefs(key)(ing))
    ensures forall r | r in IngressRefs(key)(ing) :: SafeRoute(r)
  {
    match BackendOf(ing.namespace, key)
    case None =>
    case Some(svc) =>
      var hosts, pairs := Get(ing.serviceHosts, svc), Get(ing.serviceRoutes, svc);
      assert SameHosts(hosts, pairs);
      forall r | r in Map(IngressRef(ing), pairs) ensures SafeRoute(r) && forall h | h in r.hosts :: h in hosts {
        MapIn(IngressRef(ing), pairs, r);
      }
      forall h | h in hosts ensures h != "" && exists r :: r in Map(IngressRef(ing), pairs) && h in r.hosts {
        var p :| p in pairs && p.host == h;
        MapIn(IngressRef(ing), pairs, IngressRef(ing)(p));
        assert h in IngressRef(ing)(p).hosts;
      }
  }

  lemma RoutedAppend(hosts: seq<string>, routes: seq<RouteRef>, hosts': seq<string>, routes': seq<RouteRef>)
    requires HostsAreRouted(hosts, routes) && HostsAreRouted(hosts', routes')
    ensures HostsAreRouted(hosts + hosts', routes + routes')
  {
  }

  lemma {:induction false} RuleRouted(ir: IngressRouteInfo, key: string, rule: IngressRouteRule, services: seq<string>)
    requires '|' !in ir.name && forall h | h in rule.hosts :: SafeHost(h)
    ensures HostsAreRouted(RuleHosts(ir.namespace, key, rule, services), RuleRefs(ir, key, rule, services))
    ensures forall r | r in RuleRefs(ir, key, rule, services) :: SafeRoute(r)
  {
    if services != [] {
      var front := services[..|services| - 1];
      RuleRouted(ir, key, rule, front);
      assert RuleRef(ir, rule) in [RuleRef(ir, rule)];
      assert HostsAreRouted(rule.hosts, [RuleRef(ir, rule)]);
      RoutedAppend(RuleHosts(ir.namespace, key, rule, front), RuleRefs(ir, key, rule, front), rule.hosts,
                   [RuleRef(ir, rule)]);
    }
  }

  lemma {:induction false} RouteRouted(ir: IngressRouteInfo, key: string, rules: seq<IngressRouteRule>)
    requires '|' !in ir.name && forall rule | rule in rules :: forall h | h in rule.hosts :: SafeHost(h)
    ensures HostsAreRouted(RouteHosts(ir, key, rules), RouteRefs(ir, key, rules))
    ensures forall r | r in RouteRefs(ir, key, rules) :: SafeRoute(r)
  {
    if rules != [] {
      var front, rule := rules[..|rules| - 1], rules[|rules| - 1];
      assert rule in rules;
      RouteRouted(ir, key, front);
      RuleRouted(ir, key, rule, rule.services);
      RoutedAppend(RouteHosts(ir, key, front), RouteRefs(ir, key, front),
                   RuleHosts(ir.namespace, key, rule, rule.services), RuleRefs(ir, key, rule, rule.services));
    }
  }

  lemma {:induction false} FlattenRouted<T>(f: T -> seq<string>, g: T -> seq<RouteRef>, xs: seq<T>)
    requires forall x | x in xs :: HostsAreRouted(f(x), g(x)) && forall r | r in g(x) :: SafeRoute(r)
    ensures HostsAreRouted(Flatten(Map(f, xs)), Flatten(Map(g, xs)))
    ensures forall r | r in Flatten(Map(g, xs)) :: SafeRoute(r)
  {
    if xs != [] {
      var front, x := xs[..|xs| - 1], xs[|xs| - 1];
      assert x in xs && xs == front + [x];
      FlattenRouted(f, g, front);
      FlattenMapSnoc(f, front, x);
      FlattenMapSnoc(g, front, x);
      RoutedAppend(Flatten(Map(f, front)), Flatten(Map(g, front)), f(x), g(x));
    }
  }

  lemma DedupRouted(hosts: seq<string>, routes: seq<RouteRef>)
    requires HostsAreRouted(hosts, routes) && forall r | r in routes :: SafeRoute(r)
    ensures HostsAreRouted(DedupBy(Id, hosts), DedupBy(RouteKey, routes))
  {
    forall h ensures h in DedupBy(Id, hosts) <==> h in hosts { DedupMembers(hosts, h); }
    AddAllByKeys(RouteKey, [], routes);
    forall h | h in hosts ensures exists r :: r in DedupBy(RouteKey, routes) && h in r.hosts {
      var r :| r in routes && h in r.hosts;
      assert HasKey(RouteKey, routes, RouteKey(r));
      var kept :| kept in DedupBy(RouteKey, routes) && RouteKey(kept) == RouteKey(r);
      DedupOrigin(RouteKey, routes, kept);
      RouteKeyHosts(kept, r);
    }
  }

  /** In a scanned catalog the external hosts of a service and the hosts of its routes are the same. */
  lemma HostsMatchRoutes(snap: Snapshot, s: ServiceInfo)
    requires SafeSnapshot(snap)
    ensures HostsAreRouted(RefAt(snap)(s).externalHosts, RefAt(snap)(s).routes)
  {
    var key, ings, irs := JoinKey(s.namespace, s.name), snap.scan.ingresses, snap.ingressRoutes;
    forall ing | ing in ings
      ensures HostsAreRouted(IngressHosts(key)(ing), IngressRefs(key)(ing)) &&
              forall r | r in IngressRefs(key)(ing) :: SafeRoute(r)
    {
      IngressRouted(ing, key);
    }
    forall ir | ir in irs
      ensures HostsAreRouted(IngressRouteHosts(key)(ir), IngressRouteRefs(key)(ir))
      ensures forall r | r in IngressRouteRefs(key)(ir) :: SafeRoute(r)
    {
      RouteRouted(ir, key, ir.routes);
    }
    FlattenRouted(IngressHosts(key), IngressRefs(key), ings);
    FlattenRouted(IngressRouteHosts(key), IngressRouteRefs(key), irs);
    var h1, r1 := Flatten(Map(IngressHosts(key), ings)), Flatten(Map(IngressRefs(key), ings));
    var h2, r2 := Flatten(Map(IngressRouteHosts(key), irs)), Flatten(Map(IngressRouteRefs(key), irs));
    RoutedAppend(h1, r1, h2, r2);
    DedupRouted(h1 + h2, r1 + r2);
  }
}
