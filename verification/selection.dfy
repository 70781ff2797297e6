/** What the assembled catalog shows of a scan, over the fields of the scanned objects. */
module Selection {
  import opened Text
  import opened Sequences
  import opened Catalog
  import opened Scanning
  import opened Ingresses
  import opened Collecting
  import opened Assembling
  import opened AssemblyTheorems

  // ------------------------------------------------------------------- applications

  lemma EntriesOf(cfg: Config, snap: Snapshot, apps: seq<ApplicationEntry>, app: ApplicationEntry)
    requires multiset(apps) == multiset(Entries(cfg, snap))
    ensures app in apps <==>
            (exists w :: w in snap.scan.workloads && WorkloadEntry(cfg, RefAt(snap), snap.scan.services)(w) == app) ||
            (exists s :: s in Orphans(snap) && OrphanEntry(cfg, RefAt(snap))(s) == app)
  {
    assert app in apps <==> app in multiset(apps);
    MapIn(WorkloadEntry(cfg, RefAt(snap), snap.scan.services), snap.scan.workloads, app);
    MapIn(OrphanEntry(cfg, RefAt(snap)), Orphans(snap), app);
  }

  /** What a workload's application shows: the workload's own fields, what the outside says about it, and, in scan
      order, the services that select it. */
  ghost predicate ShowsWorkload(cfg: Config, snap: Snapshot, w: WorkloadInfo, app: ApplicationEntry) {
    && app.cluster == cfg.cluster && app.namespace == w.namespace && app.name == w.name && app.kind == w.kind
    && app.replicas == w.replicas && app.readyReplicas == w.readyReplicas
    && app.labels == w.labels && app.annotations == w.annotations
    && app.capabilityID == Label(cfg.capability, w.namespace)
    && app.attribution == cfg.resolve(w.namespace, w.labels, w.annotations)
    && app.services == Map(RefAt(snap), Filter(Reached(w), snap.scan.services))
    && app.kafkaTopics == [] && app.databases == [] && app.runtime == "" && app.requestRate == 0.0 &&
      app.errorRate == 0.0
  }

  /** What the application of a service without workloads shows: the service. */
  ghost predicate ShowsOrphan(cfg: Config, snap: Snapshot, s: ServiceInfo, app: ApplicationEntry) {
    && app.cluster == cfg.cluster && app.namespace == s.namespace && app.name == s.name && app.kind == "Service"
    && app.replicas == 0 && app.readyReplicas == 0 && app.labels == map[] && app.annotations == map[]
    && app.capabilityID == Label(cfg.capability, s.namespace) && app.attribution == Attribution(None, [])
    && app.services == [RefAt(snap)(s)]
    && app.kafkaTopics == [] && app.databases == [] && app.runtime == "" && app.requestRate == 0.0 &&
      app.errorRate == 0.0
  }

  lemma WorkloadShown(cfg: Config, snap: Snapshot, w: WorkloadInfo)
    ensures forall app ::
              ShowsWorkload(cfg, snap, w, app) <==> app == WorkloadEntry(cfg, RefAt(snap), snap.scan.services)(w)
  {
    forall s: ServiceInfo { TargetsReached(w, s); }
    FilterCongruent(Targets(w), Reached(w), snap.scan.services);
  }

  lemma OrphanShown(cfg: Config, snap: Snapshot, s: ServiceInfo)
    ensures forall app :: ShowsOrphan(cfg, snap, s, app) <==> app == OrphanEntry(cfg, RefAt(snap))(s)
    ensures s in Orphans(snap) <==>
            s in snap.scan.services && forall w | w in snap.scan.workloads :: !Reached(w)(s)
  {
    forall w: WorkloadInfo { TargetsReached(w, s); }
    FilterIn(Not(Claimed(snap.scan.workloads)), snap.scan.services, s);
  }

  lemma WorkloadHasApp(cfg: Config, snap: Snapshot, apps: seq<ApplicationEntry>, w: WorkloadInfo)
    requires multiset(apps) == multiset(Entries(cfg, snap)) && w in snap.scan.workloads
    ensures exists app :: app in apps && ShowsWorkload(cfg, snap, w, app)
  {
    var app := WorkloadEntry(cfg, RefAt(snap), snap.scan.services)(w);
    EntriesOf(cfg, snap, apps, app);
    WorkloadShown(cfg, snap, w);
  }

  lemma OrphanHasApp(cfg: Config, snap: Snapshot, apps: seq<ApplicationEntry>, s: ServiceInfo)
    requires multiset(apps) == multiset(Entries(cfg, snap))
    requires s in snap.scan.services && forall w | w in snap.scan.workloads :: !Reached(w)(s)
    ensures exists app :: app in apps && ShowsOrphan(cfg, snap, s, app)
  {
    var app := OrphanEntry(cfg, RefAt(snap))(s);
    OrphanShown(cfg, snap, s);
    EntriesOf(cfg, snap, apps, app);
  }

  /** Where an application comes from: a workload, or a service that selects none. */
  ghost predicate Stems(cfg: Config, snap: Snapshot, app: ApplicationEntry) {
    (exists w :: w in snap.scan.workloads && ShowsWorkload(cfg, snap, w, app)) ||
    exists s :: s in snap.scan.services && ShowsOrphan(cfg, snap, s, app) &&
                forall w | w in snap.scan.workloads :: !Reached(w)(s)
  }

  lemma AppStems(cfg: Config, snap: Snapshot, apps: seq<ApplicationEntry>, app: ApplicationEntry)
    requires multiset(apps) == multiset(Entries(cfg, snap)) && app in apps
    ensures Stems(cfg, snap, app)
  {
    EntriesOf(cfg, snap, apps, app);
    if w :| w in snap.scan.workloads && WorkloadEntry(cfg, RefAt(snap), snap.scan.services)(w) == app {
      WorkloadStems(cfg, snap, app, w);
    } else {
      var s :| s in Orphans(snap) && OrphanEntry(cfg, RefAt(snap))(s) == app;
      OrphanStems(cfg, snap, app, s);
    }
  }

  lemma WorkloadStems(cfg: Config, snap: Snapshot, app: ApplicationEntry, w: WorkloadInfo)
    requires w in snap.scan.workloads && WorkloadEntry(cfg, RefAt(snap), snap.scan.services)(w) == app
    ensures Stems(cfg, snap, app)
  {
    WorkloadShown(cfg, snap, w);
  }

  lemma OrphanStems(cfg: Config, snap: Snapshot, app: ApplicationEntry, s: ServiceInfo)
    requires s in Orphans(snap) && OrphanEntry(cfg, RefAt(snap))(s) == app
    ensures Stems(cfg, snap, app)
  {
    OrphanShown(cfg, snap, s);
  }

  /** The assembled catalog: every application is that of a workload, or that of a service that selects no workload; and
      each of these has one. */
  lemma CatalogShows(cfg: Config, snap: Snapshot, apps: seq<ApplicationEntry>)
    requires multiset(apps) == multiset(Entries(cfg, snap))
    ensures forall w | w in snap.scan.workloads :: exists app :: app in apps && ShowsWorkload(cfg, snap, w, app)
    ensures forall s | s in snap.scan.services && (forall w | w in snap.scan.workloads :: !Reached(w)(s)) ::
              exists app :: app in apps && ShowsOrphan(cfg, snap, s, app)
    ensures forall app | app in apps :: Stems(cfg, snap, app)
  {
    forall w | w in snap.scan.workloads { WorkloadHasApp(cfg, snap, apps, w); }
    forall s | s in snap.scan.services && (forall w | w in snap.scan.workloads :: !Reached(w)(s)) {
      OrphanHasApp(cfg, snap, apps, s);
    }
    forall app | app in apps { AppStems(cfg, snap, apps, app); }
  }

  // --------------------------------------------------------------- hosts and routes

  /** An Ingress of the service's namespace routes the host to it. */
  ghost predicate IngressExposes(snap: Snapshot, s: ServiceInfo, h: string) {
    exists ing :: ing in snap.scan.ingresses && ing.namespace == s.namespace &&
                  s.name in ing.serviceHosts && h in ing.serviceHosts[s.name]
  }

  /** A rule of an IngressRoute of the service's namespace names the service and the host. */
  ghost predicate RuleExposes(snap: Snapshot, s: ServiceInfo, h: string) {
    exists ir, rule :: ir in snap.ingressRoutes && ir.namespace == s.namespace && rule in ir.routes &&
                       s.name in rule.services && h in rule.hosts
  }

  /** What an Ingress of the service's namespace makes of one of its paths. */
  ghost predicate IngressGives(snap: Snapshot, s: ServiceInfo, r: RouteRef) {
    exists ing, path :: ing in snap.scan.ingresses && ing.namespace == s.namespace && s.name in ing.serviceRoutes &&
      path in ing.serviceRoutes[s.name] &&
      r == RouteRef(ing.name, "Ingress", [path.host], if path.path == "" then [] else [path.path], [], false,
                    ing.annotations)
  }

  ghost predicate RuleGives(snap: Snapshot, s: ServiceInfo, r: RouteRef) {
    exists ir, rule :: ir in snap.ingressRoutes && ir.namespace == s.namespace && rule in ir.routes &&
      s.name in rule.services &&
      r == RouteRef(ir.name, "IngressRoute", rule.hosts, rule.pathPrefixes, ir.entryPoints, ir.tls, ir.annotations)
  }

  lemma OwnKey(namespace: string, name: string, ns: string, service: string)
    requires SlashFree(namespace) && SlashFree(ns)
    ensures JoinKey(ns, service) == JoinKey(namespace, name) <==> ns == namespace && service == name
    ensures BackendOf(ns, JoinKey(namespace, name)) == if ns == namespace then Some(name) else None
  {
    if JoinKey(ns, service) == JoinKey(namespace, name) { KeyInjective(ns, service, namespace, name, '/'); }
    var back := BackendOf(ns, JoinKey(namespace, name));
    BackendOfKey(ns, name, JoinKey(namespace, name));
    if back.Some? {
      BackendOfKey(ns, back.value, JoinKey(namespace, name));
      KeyInjective(ns, back.value, namespace, name, '/');
    }
  }

  lemma {:induction false} RuleHostsIn(namespace: string, key: string, rule: IngressRouteRule, services: seq<string>,
                                       h: string)
    ensures h in RuleHosts(namespace, key, rule, services) <==>
            h in rule.hosts && exists svc :: svc in services && JoinKey(namespace, svc) == key
  {
    if services != [] {
      var n := |services| - 1;
      RuleHostsIn(namespace, key, rule, services[..n], h);
      assert services == services[..n] + [services[n]];
    }
  }

  lemma {:induction false} RouteHostsIn(ir: IngressRouteInfo, key: string, rules: seq<IngressRouteRule>, h: string)
    ensures h in RouteHosts(ir, key, rules) <==>
            exists rule :: rule in rules && h in RuleHosts(ir.namespace, key, rule, rule.services)
  {
    if rules != [] {
      var n := |rules| - 1;
      RouteHostsIn(ir, key, rules[..n], h);
      assert rules == rules[..n] + [rules[n]];
    }
  }

  lemma {:induction false} RuleRefsIn(ir: IngressRouteInfo, key: string, rule: IngressRouteRule, services: seq<string>,
                                      r: RouteRef)
    ensures r in RuleRefs(ir, key, rule, services) <==>
            r == RuleRef(ir, rule) && exists svc :: svc in services && JoinKey(ir.namespace, svc) == key
  {
    if services != [] {
      var n := |services| - 1;
      RuleRefsIn(ir, key, rule, services[..n], r);
      assert services == services[..n] + [services[n]];
    }
  }

  lemma {:induction false} RouteRefsIn(ir: IngressRouteInfo, key: string, rules: seq<IngressRouteRule>, r: RouteRef)
    ensures r in RouteRefs(ir, key, rules) <==>
            exists rule :: rule in rules && r in RuleRefs(ir, key, rule, rule.services)
  {
    if rules != [] {
      var n := |rules| - 1;
      RouteRefsIn(ir, key, rules[..n], r);
      assert rules == rules[..n] + [rules[n]];
    }
  }

  ghost predicate SlashFreeSources(snap: Snapshot) {
    && (forall ing | ing in snap.scan.ingresses :: SlashFree(ing.namespace))
    && (forall ir | ir in snap.ingressRoutes :: SlashFree(ir.namespace))
  }

  lemma IngressHostsIn(snap: Snapshot, s: ServiceInfo, h: string)
    requires SlashFree(s.namespace) && SlashFreeSources(snap)
    ensures h in Flatten(Map(IngressHosts(JoinKey(s.namespace, s.name)), snap.scan.ingresses)) <==>
            IngressExposes(snap, s, h)
  {
    FlattenMapIn(IngressHosts(JoinKey(s.namespace, s.name)), snap.scan.ingresses, h);
    forall ing | ing in snap.scan.ingresses { OwnKey(s.namespace, s.name, ing.namespace, s.name); }
  }

  lemma IngressRefsIn(snap: Snapshot, s: ServiceInfo, r: RouteRef)
    requires SlashFree(s.namespace) && SlashFreeSources(snap)
    ensures r in Flatten(Map(IngressRefs(JoinKey(s.namespace, s.name)), snap.scan.ingresses)) <==>
            IngressGives(snap, s, r)
  {
    FlattenMapIn(IngressRefs(JoinKey(s.namespace, s.name)), snap.scan.ingresses, r);
    forall ing | ing in snap.scan.ingresses
      ensures r in IngressRefs(JoinKey(s.namespace, s.name))(ing) <==>
              ing.namespace == s.namespace &&
                exists path :: path in Get(ing.serviceRoutes, s.name) && r == IngressRef(ing)(path)
    {
      OwnKey(s.namespace, s.name, ing.namespace, s.name);
      MapIn(IngressRef(ing), Get(ing.serviceRoutes, s.name), r);
    }
  }

  lemma RouteHostsOne(ir: IngressRouteInfo, s: ServiceInfo, h: string)
    requires SlashFree(s.namespace) && SlashFree(ir.namespace)
    ensures h in RouteHosts(ir, JoinKey(s.namespace, s.name), ir.routes) <==>
            ir.namespace == s.namespace &&
              exists rule :: rule in ir.routes && s.name in rule.services && h in rule.hosts
  {
    var key := JoinKey(s.namespace, s.name);
    RouteHostsIn(ir, key, ir.routes, h);
    forall rule: IngressRouteRule { RuleHostsIn(ir.namespace, key, rule, rule.services, h); }
    forall svc { OwnKey(s.namespace, s.name, ir.namespace, svc); }
  }

  lemma RouteRefsOne(ir: IngressRouteInfo, s: ServiceInfo, r: RouteRef)
    requires SlashFree(s.namespace) && SlashFree(ir.namespace)
    ensures r in RouteRefs(ir, JoinKey(s.namespace, s.name), ir.routes) <==>
            ir.namespace == s.namespace &&
            exists rule :: rule in ir.routes && s.name in rule.services && r == RuleRef(ir, rule)
  {
    var key := JoinKey(s.namespace, s.name);
    RouteRefsIn(ir, key, ir.routes, r);
    forall rule: IngressRouteRule { RuleRefsIn(ir, key, rule, rule.services, r); }
    forall svc { OwnKey(s.namespace, s.name, ir.namespace, svc); }
  }

  lemma RouteHostsFrom(snap: Snapshot, s: ServiceInfo, h: string)
    requires SlashFree(s.namespace) && SlashFreeSources(snap)
    ensures h in Flatten(Map(IngressRouteHosts(JoinKey(s.namespace, s.name)), snap.ingressRoutes)) <==>
            RuleExposes(snap, s, h)
  {
    var key := JoinKey(s.namespace, s.name);
    FlattenMapIn(IngressRouteHosts(key), snap.ingressRoutes, h);
    forall ir | ir in snap.ingressRoutes { RouteHostsOne(ir, s, h); }
  }

  lemma RouteRefsFrom(snap: Snapshot, s: ServiceInfo, r: RouteRef)
    requires SlashFree(s.namespace) && SlashFreeSources(snap)
    ensures r in Flatten(Map(IngressRouteRefs(JoinKey(s.namespace, s.name)), snap.ingressRoutes)) <==>
            RuleGives(snap, s, r)
  {
    var key := JoinKey(s.namespace, s.name);
    FlattenMapIn(IngressRouteRefs(key), snap.ingressRoutes, r);
    forall ir | ir in snap.ingressRoutes { RouteRefsOne(ir, s, r); }
  }

  lemma HostsShown(snap: Snapshot, s: ServiceInfo)
    requires SlashFree(s.namespace) && SlashFreeSources(snap)
    ensures
      var hosts := HostsAt(snap, JoinKey(s.namespace, s.name));
      DistinctBy(Id, hosts) && forall h :: h in hosts <==> IngressExposes(snap, s, h) || RuleExposes(snap, s, h)
  {
    var key := JoinKey(s.namespace, s.name);
    var a, b := Flatten(Map(IngressHosts(key), snap.scan.ingresses)),
    Flatten(Map(IngressRouteHosts(key), snap.ingressRoutes));
    AddAllByKeys(Id, [], a + b);
    forall h ensures h in DedupBy(Id, a + b) <==> IngressExposes(snap, s, h) || RuleExposes(snap, s, h) {
      DedupMembers(a + b, h);
      IngressHostsIn(snap, s, h);
      RouteHostsFrom(snap, s, h);
    }
  }

  lemma KeptRefs(refs: seq<RouteRef>, given: RouteRef -> bool)
    requires forall r :: r in refs <==> given(r)
    ensures forall r | r in DedupBy(RouteKey, refs) :: given(r)
    ensures forall r | given(r) :: HasKey(RouteKey, DedupBy(RouteKey, refs), RouteKey(r))
  {
    AddAllByKeys(RouteKey, [], refs);
    forall r | given(r) ensures HasKey(RouteKey, refs, RouteKey(r)) { assert r in refs; }
  }

  lemma RoutesShown(snap: Snapshot, s: ServiceInfo)
    requires SlashFree(s.namespace) && SlashFreeSources(snap)
    ensures
      var routes := RoutesAt(snap, JoinKey(s.namespace, s.name));
      && (forall r | r in routes :: IngressGives(snap, s, r) || RuleGives(snap, s, r))
      && (forall r | IngressGives(snap, s, r) || RuleGives(snap, s, r) :: HasKey(RouteKey, routes, RouteKey(r)))
  {
    var key := JoinKey(s.namespace, s.name);
    var a, b := Flatten(Map(IngressRefs(key), snap.scan.ingresses)),
    Flatten(Map(IngressRouteRefs(key), snap.ingressRoutes));
    var given := (r: RouteRef) => IngressGives(snap, s, r) || RuleGives(snap, s, r);
    forall r: RouteRef ensures r in a + b <==> given(r) {
      IngressRefsIn(snap, s, r);
      RouteRefsFrom(snap, s, r);
    }
    KeptRefs(a + b, given);
    forall r | IngressGives(snap, s, r) || RuleGives(snap, s, r)
      ensures HasKey(RouteKey, DedupBy(RouteKey, a + b), RouteKey(r))
    {
      assert given(r);
    }
  }

  /** What the catalog shows of a service: its own fields; exactly the hosts that an Ingress or IngressRoute of its
      namespace routes to it, each once; and routes that these objects give it, one for each key. */
  lemma ServiceShown(snap: Snapshot, s: ServiceInfo)
    requires SlashFree(s.namespace) && SlashFreeSources(snap)
    ensures
      var ref := RefAt(snap)(s);
      && ref.name == s.name && ref.kind == s.kind && ref.clusterIP == s.clusterIP && ref.ports == s.ports
      && ref.apiDocs == [] && ref.reachability == [] && DistinctBy(Id, ref.externalHosts)
      && (forall h :: h in ref.externalHosts <==> IngressExposes(snap, s, h) || RuleExposes(snap, s, h))
      && (forall r | r in ref.routes :: IngressGives(snap, s, r) || RuleGives(snap, s, r))
      && (forall r | IngressGives(snap, s, r) || RuleGives(snap, s, r) :: HasKey(RouteKey, ref.routes, RouteKey(r)))
  {
    HostsShown(snap, s);
    RoutesShown(snap, s);
  }

  /** A route whose name and parts are free of the delimiters of the route key. */
  predicate PlainRoute(r: RouteRef) {
    SafeRoute(r) && forall p | p in r.pathPrefixes :: SafeHost(p)
  }

  /** Routes share a key exactly when they agree in name, hosts and path prefixes. */
  lemma RouteKeyExact(a: RouteRef, b: RouteRef)
    requires PlainRoute(a) && PlainRoute(b)
    ensures RouteKey(a) == RouteKey(b) <==> a.name == b.name && a.hosts == b.hosts && a.pathPrefixes == b.pathPrefixes
  {
    if RouteKey(a) == RouteKey(b) {
      RouteKeyHosts(a, b);
      var hosts, p, q := Join(a.hosts, ","), Join(a.pathPrefixes, ","), Join(b.pathPrefixes, ",");
      KeyInjective(a.name, hosts + "|" + p, b.name, hosts + "|" + q, '|');
      JoinLacks(a.hosts);
      KeyInjective(hosts, p, hosts, q, '|');
      JoinInjective(a.pathPrefixes, b.pathPrefixes, ',');
    }
  }
}
