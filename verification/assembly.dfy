/** Applications out of workloads and services: every service is attached where its selector matches, or
    appears on its own. */
module Assembling {
  import opened Text
  import opened Sequences
  import opened Catalog
  import opened Scanning
  import opened Ingresses
  import opened Collecting

  // ---------------------------------------------------------------- route index

  method IndexIngressRoute(ir: IngressRouteInfo, hosts: map<string, seq<string>>, routes: map<string, seq<RouteRef>>)
    returns (hosts': map<string, seq<string>>, routes': map<string, seq<RouteRef>>)
    ensures forall k :: Get(hosts', k) == AddAllBy(Id, Get(hosts, k), IngressRouteHosts(k)(ir))
    ensures forall k :: Get(routes', k) == AddAllBy(RouteKey, Get(routes, k), IngressRouteRefs(k)(ir))
  {
    hosts', routes' := hosts, routes;
    for i := 0 to |ir.routes|
      invariant forall k :: Get(hosts', k) == AddAllBy(Id, Get(hosts, k), RouteHosts(ir, k, ir.routes[..i]))
      invariant forall k :: Get(routes', k) == AddAllBy(RouteKey, Get(routes, k), RouteRefs(ir, k, ir.routes[..i]))
    {
      hosts', routes' := IndexRule(ir, ir.routes[i], hosts', routes');
      forall k ensures Get(hosts', k) == AddAllBy(Id, Get(hosts, k), RouteHosts(ir, k, ir.routes[..i + 1])) {
        GrowRuleHosts(Get(hosts, k), ir, k, i);
      }
      forall k ensures Get(routes', k) == AddAllBy(RouteKey, Get(routes, k), RouteRefs(ir, k, ir.routes[..i + 1])) {
        GrowRuleRefs(Get(routes, k), ir, k, i);
      }
    }
    assert ir.routes[..|ir.routes|] == ir.routes;
  }

  lemma GrowRuleHosts(base: seq<string>, ir: IngressRouteInfo, k: string, i: nat)
    requires i < |ir.routes|
    ensures AddAllBy(Id, base, RouteHosts(ir, k, ir.routes[..i + 1])) ==
            AddAllBy(Id, AddAllBy(Id, base, RouteHosts(ir, k, ir.routes[..i])),
                     RuleHosts(ir.namespace, k, ir.routes[i], ir.routes[i].services))
  {
    assert ir.routes[..i + 1][..i] == ir.routes[..i];
    AddAllByAppend(Id, base, RouteHosts(ir, k, ir.routes[..i]),
                   RuleHosts(ir.namespace, k, ir.routes[i], ir.routes[i].services));
  }

  lemma GrowRuleRefs(base: seq<RouteRef>, ir: IngressRouteInfo, k: string, i: nat)
    requires i < |ir.routes|
    ensures AddAllBy(RouteKey, base, RouteRefs(ir, k, ir.routes[..i + 1])) ==
            AddAllBy(RouteKey, AddAllBy(RouteKey, base, RouteRefs(ir, k, ir.routes[..i])),
                     RuleRefs(ir, k, ir.routes[i], ir.routes[i].services))
  {
    assert ir.routes[..i + 1][..i] == ir.routes[..i];
    AddAllByAppend(RouteKey, base, RouteRefs(ir, k, ir.routes[..i]),
                   RuleRefs(ir, k, ir.routes[i], ir.routes[i].services));
  }

  ghost predicate Indexes(hosts: map<string, seq<string>>, routes: map<string, seq<RouteRef>>, snap: Snapshot) {
    (forall k :: Get(hosts, k) == HostsAt(snap, k)) && (forall k :: Get(routes, k) == RoutesAt(snap, k))
  }

  method IndexIngresses(ings: seq<IngressInfo>)
    returns (hosts: map<string, seq<string>>, routes: map<string, seq<RouteRef>>)
    ensures forall k :: Get(hosts, k) == DedupBy(Id, Flatten(Map(IngressHosts(k), ings)))
    ensures forall k :: Get(routes, k) == DedupBy(RouteKey, Flatten(Map(IngressRefs(k), ings)))
  {
    hosts, routes := map[], map[];
    for i := 0 to |ings|
      invariant forall k :: Get(hosts, k) == DedupBy(Id, Flatten(Map(IngressHosts(k), ings[..i])))
      invariant forall k :: Get(routes, k) == DedupBy(RouteKey, Flatten(Map(IngressRefs(k), ings[..i])))
    {
      hosts, routes := IndexIngress(ings[i], hosts, routes);
      forall k ensures Get(hosts, k) == DedupBy(Id, Flatten(Map(IngressHosts(k), ings[..i + 1]))) {
        GrowFlat(Id, [], IngressHosts(k), ings, i);
      }
      forall k ensures Get(routes, k) == DedupBy(RouteKey, Flatten(Map(IngressRefs(k), ings[..i + 1]))) {
        GrowFlat(RouteKey, [], IngressRefs(k), ings, i);
      }
    }
    assert ings[..|ings|] == ings;
  }

  method IndexIngressRoutes(irs: seq<IngressRouteInfo>, hosts: map<string, seq<string>>,
                            routes: map<string, seq<RouteRef>>)
    returns (hosts': map<string, seq<string>>, routes': map<string, seq<RouteRef>>)
    ensures forall k :: Get(hosts', k) == AddAllBy(Id, Get(hosts, k), Flatten(Map(IngressRouteHosts(k), irs)))
    ensures forall k :: Get(routes', k) == AddAllBy(RouteKey, Get(routes, k), Flatten(Map(IngressRouteRefs(k), irs)))
  {
    hosts', routes' := hosts, routes;
    for i := 0 to |irs|
      invariant forall k :: Get(hosts', k) == AddAllBy(Id, Get(hosts, k), Flatten(Map(IngressRouteHosts(k), irs[..i])))
      invariant forall k ::
                  Get(routes', k) == AddAllBy(RouteKey, Get(routes, k), Flatten(Map(IngressRouteRefs(k), irs[..i])))
    {
      hosts', routes' := IndexIngressRoute(irs[i], hosts', routes');
      forall k ensures Get(hosts', k) == AddAllBy(Id, Get(hosts, k), Flatten(Map(IngressRouteHosts(k), irs[..i + 1]))) {
        GrowFlat(Id, Get(hosts, k), IngressRouteHosts(k), irs, i);
      }
      forall k
        ensures Get(routes', k) == AddAllBy(RouteKey, Get(routes, k), Flatten(Map(IngressRouteRefs(k), irs[..i + 1])))
      {
        GrowFlat(RouteKey, Get(routes, k), IngressRouteRefs(k), irs, i);
      }
    }
    assert irs[..|irs|] == irs;
  }

  method BuildIndex(snap: Snapshot) returns (hosts: map<string, seq<string>>, routes: map<string, seq<RouteRef>>)
    ensures Indexes(hosts, routes, snap)
  {
    var ings, irs := snap.scan.ingresses, snap.ingressRoutes;
    hosts, routes := IndexIngresses(ings);
    hosts, routes := IndexIngressRoutes(irs, hosts, routes);
    forall k ensures Get(hosts, k) == HostsAt(snap, k) {
      AddAllByAppend(Id, [], Flatten(Map(IngressHosts(k), ings)), Flatten(Map(IngressRouteHosts(k), irs)));
    }
    forall k ensures Get(routes, k) == RoutesAt(snap, k) {
      AddAllByAppend(RouteKey, [], Flatten(Map(IngressRefs(k), ings)), Flatten(Map(IngressRouteRefs(k), irs)));
    }
  }

  // --------------------------------------------------------------------- entries

  function RefAt(snap: Snapshot): ServiceInfo -> ServiceRef {
    (s: ServiceInfo) =>
      var key := JoinKey(s.namespace, s.name);
      ServiceRef(s.name, s.kind, s.clusterIP, s.ports, HostsAt(snap, key), RoutesAt(snap, key), [], [])
  }

  function RefFrom(hosts: map<string, seq<string>>, routes: map<string, seq<RouteRef>>): ServiceInfo -> ServiceRef {
    (s: ServiceInfo) =>
      var key := JoinKey(s.namespace, s.name);
      ServiceRef(s.name, s.kind, s.clusterIP, s.ports, Get(hosts, key), Get(routes, key), [], [])
  }

  /** A workload with the services that target it, in scan order. */
  function WorkloadEntry(cfg: Config, ref: ServiceInfo -> ServiceRef,
                         services: seq<ServiceInfo>): WorkloadInfo -> ApplicationEntry {
    (w: WorkloadInfo) => EntryWith(cfg, w, Map(ref, Filter(Targets(w), services)))
  }

  function EntryWith(cfg: Config, w: WorkloadInfo, services: seq<ServiceRef>): ApplicationEntry {
    ApplicationEntry(cfg.cluster, w.namespace, w.name, w.kind, Label(cfg.capability, w.namespace),
                     w.replicas, w.readyReplicas, cfg.resolve(w.namespace, w.labels, w.annotations),
                     services, [], [], "", 0.0, 0.0, w.labels, w.annotations)
  }

  /** A service that no workload claims. */
  function OrphanEntry(cfg: Config, ref: ServiceInfo -> ServiceRef): ServiceInfo -> ApplicationEntry {
    (s: ServiceInfo) =>
      ApplicationEntry(cfg.cluster, s.namespace, s.name, "Service", Label(cfg.capability, s.namespace), 0, 0,
                       Attribution(None, []), [ref(s)], [], [], "", 0.0, 0.0, map[], map[])
  }

  function Claimed(ws: seq<WorkloadInfo>): ServiceInfo -> bool { (s: ServiceInfo) => ClaimedBy(ws, s) }
  function Not<T>(p: T -> bool): T -> bool { (x: T) => !p(x) }

  /** The services that no workload of the scan claims. */
  function Orphans(snap: Snapshot): seq<ServiceInfo> { Filter(Not(Claimed(snap.scan.workloads)), snap.scan.services) }

  function EntriesVia(cfg: Config, ref: ServiceInfo -> ServiceRef, snap: Snapshot): seq<ApplicationEntry> {
    Map(WorkloadEntry(cfg, ref, snap.scan.services), snap.scan.workloads) + Map(OrphanEntry(cfg, ref), Orphans(snap))
  }

  /** One entry per workload and one per unclaimed service. */
  function Entries(cfg: Config, snap: Snapshot): seq<ApplicationEntry> { EntriesVia(cfg, RefAt(snap), snap) }

  predicate EntryLess(a: ApplicationEntry, b: ApplicationEntry) {
    if a.namespace != b.namespace then LexLess(a.namespace, b.namespace) else LexLess(a.name, b.name)
  }

  lemma EntryOrder()
    ensures StrictWeakOrder(EntryLess)
  {
    forall a: ApplicationEntry ensures !EntryLess(a, a) { LexIrreflexive(a.name); }
    forall a, b, c | EntryLess(a, b) && EntryLess(b, c) ensures EntryLess(a, c) { EntryLessTransitive(a, b, c); }
    forall a, b, c | EntryLess(a, c) ensures EntryLess(a, b) || EntryLess(b, c) {
      if !EntryLess(a, b) && !EntryLess(b, c) { EntryIncomparable(a, b, c); }
    }
  }

  lemma EntryLessTransitive(a: ApplicationEntry, b: ApplicationEntry, c: ApplicationEntry)
    requires EntryLess(a, b) && EntryLess(b, c)
    ensures EntryLess(a, c)
  {
    if a.namespace == b.namespace == c.namespace {
      LexTransitive(a.name, b.name, c.name);
    } else if a.namespace != b.namespace && b.namespace != c.namespace {
      LexTransitive(a.namespace, b.namespace, c.namespace);
      LexIrreflexive(c.namespace);
    }
  }

  lemma EntryIncomparable(a: ApplicationEntry, b: ApplicationEntry, c: ApplicationEntry)
    requires !EntryLess(a, b) && !EntryLess(b, c)
    ensures !EntryLess(a, c)
  {
    LexTotal(a.namespace, b.namespace);
    LexTotal(b.namespace, c.namespace);
    LexTotal(a.name, b.name);
    LexTotal(b.name, c.name);
    if EntryLess(a, c) {
      if a.namespace != b.namespace || a.name != b.name { EntryLessTransitive(b, a, c); }
    }
  }

  // -------------------------------------------------------------------- assembly

  datatype SvcRecord = SvcRecord(info: ServiceInfo, claimed: bool)

  function RecordWith(claimed: ServiceInfo -> bool): ServiceInfo -> SvcRecord {
    (s: ServiceInfo) => SvcRecord(s, claimed(s))
  }

  /** The services by namespace, in scan order, each with its claimed flag. */
  ghost predicate Grouped(byNs: map<string, seq<SvcRecord>>, claimed: ServiceInfo -> bool, services: seq<ServiceInfo>) {
    forall ns :: Get(byNs, ns) == Map(RecordWith(claimed), Filter(InNamespace(ServiceNs, ns), services))
  }

  method GroupServices(services: seq<ServiceInfo>, ghost claimed: ServiceInfo -> bool)
    returns (byNs: map<string, seq<SvcRecord>>)
    requires forall s | s in services :: !claimed(s)
    ensures Grouped(byNs, claimed, services)
  {
    byNs := map[];
    for i := 0 to |services|
      invariant Grouped(byNs, claimed, services[..i])
    {
      var s := services[i];
      ghost var before, upTo := byNs, services[..i + 1];
      assert s in services;
      byNs := byNs[s.namespace := Get(byNs, s.namespace) + [SvcRecord(s, false)]];
      forall ns ensures Get(byNs, ns) == Map(RecordWith(claimed), Filter(InNamespace(ServiceNs, ns), upTo)) {
        assert Get(before, ns) == Map(RecordWith(claimed), Filter(InNamespace(ServiceNs, ns), services[..i]));
        MapFilterNext(RecordWith(claimed), InNamespace(ServiceNs, ns), services, i);
      }
    }
    assert services[..|services|] == services;
  }

  /** Match one workload against the services of its namespace, flagging those it claims. */
  method MatchServices(w: WorkloadInfo, recs: seq<SvcRecord>, ref: ServiceInfo -> ServiceRef,
                       ghost infos: seq<ServiceInfo>,
                       ghost target: ServiceInfo -> bool, ghost before: ServiceInfo -> bool,
                       ghost after: ServiceInfo -> bool)
    returns (recs': seq<SvcRecord>, refs: seq<ServiceRef>)
    requires recs == Map(RecordWith(before), infos)
    requires forall s | s in infos :: s.namespace == w.namespace && target(s) == Reached(w)(s)
    requires forall s | s in infos :: after(s) == (before(s) || target(s))
    ensures recs' == Map(RecordWith(after), infos)
    ensures refs == Map(ref, Filter(target, infos))
  {
    recs', refs := [], [];
    for k := 0 to |recs|
      invariant recs' == Map(RecordWith(after), infos[..k])
      invariant refs == Map(ref, Filter(target, infos[..k]))
    {
      var rec := recs[k];
      assert rec == RecordWith(before)(infos[k]) && infos[k] in infos;
      MapNext(RecordWith(after), infos, k);
      MapFilterNext(ref, target, infos, k);
      TargetsReached(w, infos[k]);
      if rec.info.selector != map[] && SelectorMatches(rec.info.selector, PodLabels(w)) {
        rec := rec.(claimed := true);
        refs := refs + [ref(rec.info)];
      }
      recs' := recs' + [rec];
    }
    assert infos[..|infos|] == infos;
  }

  lemma ClaimStep(ws: seq<WorkloadInfo>, w: WorkloadInfo, s: ServiceInfo)
    ensures Claimed(ws + [w])(s) == (Claimed(ws)(s) || Targets(w)(s))
  {
  }

  /** Matching a workload leaves the services of the other namespaces as they were. */
  lemma GroupedStep(byNs: map<string, seq<SvcRecord>>, before: ServiceInfo -> bool, after: ServiceInfo -> bool,
                    services: seq<ServiceInfo>, namespace: string, recs: seq<SvcRecord>)
    requires Grouped(byNs, before, services)
    requires forall s: ServiceInfo | s.namespace != namespace :: after(s) == before(s)
    requires recs == Map(RecordWith(after), Filter(InNamespace(ServiceNs, namespace), services))
    ensures Grouped(byNs[namespace := recs], after, services)
  {
    forall ns | ns != namespace
      ensures Get(byNs, ns) == Map(RecordWith(after), Filter(InNamespace(ServiceNs, ns), services))
    {
      var own := Filter(InNamespace(ServiceNs, ns), services);
      assert Get(byNs, ns) == Map(RecordWith(before), own);
      forall s | s in own ensures RecordWith(before)(s) == RecordWith(after)(s) {
        OfNamespace(services, s, ns);
      }
      MapCongruent(RecordWith(before), RecordWith(after), own);
    }
  }

  /** Match one more workload. */
  method MatchWorkload(cfg: Config, w: WorkloadInfo, byNs: map<string, seq<SvcRecord>>, ref: ServiceInfo -> ServiceRef,
                       ghost services: seq<ServiceInfo>, ghost before: ServiceInfo -> bool,
                       ghost after: ServiceInfo -> bool)
    returns (entry: ApplicationEntry, byNs': map<string, seq<SvcRecord>>)
    requires Grouped(byNs, before, services)
    requires forall s :: after(s) == (before(s) || Targets(w)(s))
    ensures entry == WorkloadEntry(cfg, ref, services)(w) && Grouped(byNs', after, services)
  {
    ghost var here := Filter(InNamespace(ServiceNs, w.namespace), services);
    forall s | s in here ensures s.namespace == w.namespace && Targets(w)(s) == Reached(w)(s) {
      OfNamespace(services, s, w.namespace);
      TargetsReached(w, s);
    }
    assert Get(byNs, w.namespace) == Map(RecordWith(before), here);
    var recs, refs := MatchServices(w, Get(byNs, w.namespace), ref, here, Targets(w), before, after);
    FilterFilter(Targets(w), InNamespace(ServiceNs, w.namespace), services);
    GroupedStep(byNs, before, after, services, w.namespace, recs);
    byNs' := byNs[w.namespace := recs];
    entry := EntryWith(cfg, w, refs);
  }

  /** Match the workloads in scan order. */
  method MatchWorkloads(cfg: Config, ws: seq<WorkloadInfo>, services: seq<ServiceInfo>, ref: ServiceInfo -> ServiceRef)
    returns (apps: seq<ApplicationEntry>, byNs: map<string, seq<SvcRecord>>)
    ensures apps == Map(WorkloadEntry(cfg, ref, services), ws)
    ensures Grouped(byNs, Claimed(ws), services)
  {
    byNs := GroupServices(services, Claimed([]));
    apps := [];
    for i := 0 to |ws|
      invariant apps == Map(WorkloadEntry(cfg, ref, services), ws[..i])
      invariant Grouped(byNs, Claimed(ws[..i]), services)
    {
      ghost var pre, upTo := ws[..i], ws[..i + 1];
      assert upTo == pre + [ws[i]];
      forall s ensures Claimed(upTo)(s) == (Claimed(pre)(s) || Targets(ws[i])(s)) { ClaimStep(pre, ws[i], s); }
      var entry;
      entry, byNs := MatchWorkload(cfg, ws[i], byNs, ref, services, Claimed(pre), Claimed(upTo));
      MapNext(WorkloadEntry(cfg, ref, services), ws, i);
      apps := apps + [entry];
    }
    assert ws[..|ws|] == ws;
  }

  function InNamespaces(p: ServiceInfo -> bool, namespaces: set<string>): ServiceInfo -> bool {
    (s: ServiceInfo) => p(s) && s.namespace in namespaces
  }

  method OrphansOf(cfg: Config, recs: seq<SvcRecord>, ref: ServiceInfo -> ServiceRef,
                   ghost claimed: ServiceInfo -> bool, ghost infos: seq<ServiceInfo>)
    returns (entries: seq<ApplicationEntry>)
    requires recs == Map(RecordWith(claimed), infos)
    ensures entries == Map(OrphanEntry(cfg, ref), Filter(Not(claimed), infos))
  {
    entries := [];
    for k := 0 to |recs|
      invariant entries == Map(OrphanEntry(cfg, ref), Filter(Not(claimed), infos[..k]))
    {
      assert recs[k] == RecordWith(claimed)(infos[k]);
      MapFilterNext(OrphanEntry(cfg, ref), Not(claimed), infos, k);
      if recs[k].claimed { continue; }
      entries := entries + [OrphanEntry(cfg, ref)(recs[k].info)];
    }
    assert infos[..|infos|] == infos;
  }

  /** `entries` are, in some order, the entries of the services with property `p` in the given namespaces. */
  ghost predicate Emitted(entries: seq<ApplicationEntry>, f: ServiceInfo -> ApplicationEntry, p: ServiceInfo -> bool,
                          all: seq<ServiceInfo>, namespaces: set<string>)
  {
    multiset(entries) == multiset(Map(f, Filter(InNamespaces(p, namespaces), all)))
  }

  lemma EmittedStep(entries: seq<ApplicationEntry>, more: seq<ApplicationEntry>, f: ServiceInfo -> ApplicationEntry,
                    p: ServiceInfo -> bool, all: seq<ServiceInfo>, done: set<string>, ns: string)
    requires ns !in done && Emitted(entries, f, p, all, done)
    requires more == Map(f, Filter(p, Filter(InNamespace(ServiceNs, ns), all)))
    ensures Emitted(entries + more, f, p, all, done + {ns})
  {
    FilterUnion(InNamespaces(p, done), InNamespaces(p, {ns}), InNamespaces(p, done + {ns}), all);
    WithinOne(p, all, ns);
    MapUnion(f, Filter(InNamespaces(p, done + {ns}), all), Filter(InNamespaces(p, done), all),
             Filter(InNamespaces(p, {ns}), all));
  }

  lemma OfNamespace(all: seq<ServiceInfo>, s: ServiceInfo, ns: string)
    ensures s in Filter(InNamespace(ServiceNs, ns), all) <==> s in all && s.namespace == ns
  {
    FilterIn(InNamespace(ServiceNs, ns), all, s);
    assert InNamespace(ServiceNs, ns)(s) == (ServiceNs(s) == ns);
  }

  lemma WithinOne(p: ServiceInfo -> bool, all: seq<ServiceInfo>, ns: string)
    ensures Filter(InNamespaces(p, {ns}), all) == Filter(p, Filter(InNamespace(ServiceNs, ns), all))
  {
    var q, r := InNamespaces(p, {ns}), InNamespace(ServiceNs, ns);
    forall s: ServiceInfo ensures q(s) == (p(s) && s.namespace == ns) && r(s) == (s.namespace == ns) {
      assert r(s) == (ServiceNs(s) == ns);
    }
    FilterFilter(q, r, all);
    forall s | s in Filter(r, all) ensures q(s) == p(s) { FilterIn(r, all, s); }
    FilterCongruent(q, p, Filter(r, all));
  }

  /** Emit the unclaimed services, namespace by namespace in whatever order the map yields them. */
  method EmitOrphans(cfg: Config, byNs: map<string, seq<SvcRecord>>, ref: ServiceInfo -> ServiceRef,
                     ghost claimed: ServiceInfo -> bool, ghost all: seq<ServiceInfo>)
    returns (entries: seq<ApplicationEntry>)
    requires Grouped(byNs, claimed, all)
    ensures multiset(entries) == multiset(Map(OrphanEntry(cfg, ref), Filter(Not(claimed), all)))
  {
    entries := [];
    var rest := byNs.Keys;
    ghost var done: set<string> := {};
    FilterNone(InNamespaces(Not(claimed), {}), all);
    while rest != {}
      invariant done !! rest && done + rest == byNs.Keys
      invariant Emitted(entries, OrphanEntry(cfg, ref), Not(claimed), all, done)
      decreases rest
    {
      var ns :| ns in rest;
      ghost var here := Filter(InNamespace(ServiceNs, ns), all);
      assert Get(byNs, ns) == Map(RecordWith(claimed), here);
      var more := OrphansOf(cfg, Get(byNs, ns), ref, claimed, here);
      EmittedStep(entries, more, OrphanEntry(cfg, ref), Not(claimed), all, done, ns);
      entries := entries + more;
      rest, done := rest - {ns}, done + {ns};
    }
    AllGrouped(byNs, claimed, all);
  }

  lemma AllGrouped(byNs: map<string, seq<SvcRecord>>, claimed: ServiceInfo -> bool, all: seq<ServiceInfo>)
    requires Grouped(byNs, claimed, all)
    ensures Filter(InNamespaces(Not(claimed), byNs.Keys), all) == Filter(Not(claimed), all)
  {
    forall s | s in all ensures InNamespaces(Not(claimed), byNs.Keys)(s) == Not(claimed)(s) {
      OfNamespace(all, s, s.namespace);
      assert Get(byNs, s.namespace) == Map(RecordWith(claimed), Filter(InNamespace(ServiceNs, s.namespace), all));
    }
    FilterCongruent(InNamespaces(Not(claimed), byNs.Keys), Not(claimed), all);
  }

  lemma EntriesCongruent(cfg: Config, f: ServiceInfo -> ServiceRef, g: ServiceInfo -> ServiceRef, snap: Snapshot)
    requires forall s | s in snap.scan.services :: f(s) == g(s)
    ensures EntriesVia(cfg, f, snap) == EntriesVia(cfg, g, snap)
  {
    var all := snap.scan.services;
    forall w ensures WorkloadEntry(cfg, f, all)(w) == WorkloadEntry(cfg, g, all)(w) {
      forall s | s in Filter(Targets(w), all) ensures f(s) == g(s) { FilterIn(Targets(w), all, s); }
      MapCongruent(f, g, Filter(Targets(w), all));
    }
    MapCongruent(WorkloadEntry(cfg, f, all), WorkloadEntry(cfg, g, all), snap.scan.workloads);
    var p := Not(Claimed(snap.scan.workloads));
    forall s | s in Filter(p, all) ensures f(s) == g(s) { FilterIn(p, all, s); }
    MapCongruent(OrphanEntry(cfg, f), OrphanEntry(cfg, g), Orphans(snap));
  }

  method BuildApplications(cfg: Config, snap: Snapshot) returns (apps: seq<ApplicationEntry>)
    ensures multiset(apps) == multiset(Entries(cfg, snap))
    ensures SortedBy(EntryLess, apps)
  {
    var hosts, routes := BuildIndex(snap);
    var ref := RefFrom(hosts, routes);
    var entries, byNs := MatchWorkloads(cfg, snap.scan.workloads, snap.scan.services, ref);
    var orphans := EmitOrphans(cfg, byNs, ref, Claimed(snap.scan.workloads), snap.scan.services);
    assert multiset(entries + orphans) == multiset(EntriesVia(cfg, ref, snap));
    forall s ensures ref(s) == RefAt(snap)(s) {}
    EntriesCongruent(cfg, ref, RefAt(snap), snap);
    EntryOrder();
    apps := SortSlice(entries + orphans, EntryLess);
  }
}
