/** A response can mix two verdict snapshots: a run in which a probe cycle ends between two lookups of one request. */
module MixedResponse {
  import opened Text
  import opened Sequences
  import opened Catalog
  import opened Scanning
  import opened Collecting
  import opened Assembling
  import opened AssemblyTheorems
  import opened Pipeline
  import opened Probing
  import opened Serving
  import opened Workers
  import opened WorkerTheorems

  // ------------------------------------------------- a scan with one routed service

  const HOSTS := ["a", "b"]
  const RULE := IngressRouteRule(HOSTS, [], ["svc"])
  const ROUTED := IngressRouteInfo("ns", "r", [], false, map[], [RULE])
  const INFO := ServiceInfo("ns", "svc", "ClusterIP", "", map[], [])
  const SNAP := Snapshot(["ns"], Scan([INFO], [], [], []), [ROUTED])

  function Cfg(): Config {
    Config("c", map[],
           (ns: string, labels: map<string, string>, annotations: map<string, string>) => Attribution(None, []))
  }

  // ------------------------------------------------ and the catalog collected from it

  const ROUTE := RouteRef("r", "IngressRoute", HOSTS, [], [], false, map[])
  const SVC := ServiceRef("svc", "ClusterIP", "", [], HOSTS, [ROUTE], [], [])
  const APP := ApplicationEntry(
    "c", "ns", "svc", "Service", "", 0, 0, Attribution(None, []), [SVC], [], [], "", 0.0, 0.0, map[], map[])
  const CATALOG := CatalogView(1, 1, "c", [APP])

  lemma DedupOne<T, K>(key: T -> K, x: T)
    ensures DedupBy(key, [x]) == [x]
  {
    assert [x][..0] == [] && AddAllBy(key, [], []) == [];
    assert AddBy(key, [], x) == [] + [x];
  }

  lemma DedupTwo<T, K>(key: T -> K, x: T, y: T)
    requires key(x) != key(y)
    ensures DedupBy(key, [x, y]) == [x, y]
  {
    DedupOne(key, x);
    assert [x, y][..1] == [x];
    assert AddBy(key, [x], y) == [x] + [y];
  }

  lemma OneRule(key: string)
    requires key == JoinKey("ns", "svc")
    ensures IngressRouteHosts(key)(ROUTED) == HOSTS && IngressRouteRefs(key)(ROUTED) == [ROUTE]
  {
    var services, rules := ["svc"], [RULE];
    assert services[..0] == [] && rules[..0] == [];
    assert RuleHosts("ns", key, RULE, []) == [] && RuleRefs(ROUTED, key, RULE, []) == [];
    assert RuleHosts("ns", key, RULE, services) == [] + HOSTS;
    assert RuleRefs(ROUTED, key, RULE, services) == [] + [ROUTE];
    assert Collecting.RouteHosts(ROUTED, key, []) == [] && RouteRefs(ROUTED, key, []) == [];
    assert Collecting.RouteHosts(ROUTED, key, rules) == [] + RuleHosts("ns", key, RULE, services);
    assert RouteRefs(ROUTED, key, rules) == [] + RuleRefs(ROUTED, key, RULE, services);
  }

  lemma FlattenOne<T, U>(f: T -> seq<U>, x: T)
    ensures Flatten(Map(f, [x])) == f(x)
  {
    FlattenMapSnoc(f, [], x);
    assert [] + [x] == [x];
  }

  lemma RoutedService()
    ensures RefAt(SNAP)(INFO) == SVC
  {
    var key := JoinKey("ns", "svc");
    OneRule(key);
    FlattenOne(IngressRouteHosts(key), ROUTED);
    FlattenOne(IngressRouteRefs(key), ROUTED);
    DedupTwo(Id, "a", "b");
    DedupOne(RouteKey, ROUTE);
    assert [] + HOSTS == ["a", "b"] && [] + [ROUTE] == [ROUTE];
    assert HostsAt(SNAP, key) == HOSTS;
    assert RoutesAt(SNAP, key) == [ROUTE];
  }

  lemma OneEntry()
    ensures Entries(Cfg(), SNAP) == [APP]
  {
    RoutedService();
    var services, ref := [INFO], RefAt(SNAP);
    assert services[..0] == [];
    assert !Claimed([])(INFO);
    assert Filter(Not(Claimed([])), services) == [] + [INFO];
    assert Orphans(SNAP) == services;
    assert OrphanEntry(Cfg(), ref)(INFO) == APP;
    assert Map(OrphanEntry(Cfg(), ref), services) == [APP];
    assert Map(WorkloadEntry(Cfg(), ref, services), []) == [];
  }

  lemma SafelyNamed()
    ensures WellNamed(SNAP)
  {
    assert SlashFree("ns") && SlashFree("svc") && '|' !in "r";
    assert forall h | h in HOSTS :: h == "a" || h == "b";
    assert SafeHost("a") && SafeHost("b");
  }

  /** The catalog is what one collection can publish. */
  lemma Collectable()
    ensures Wellformed(CATALOG, Cfg(), SNAP)
  {
    OneEntry();
    SafelyNamed();
    assert APP in Entries(Cfg(), SNAP);
    BareEntry(Cfg(), SNAP, APP);
    assert Map(Bare, [APP]) == [APP];
  }

  // --------------------------------------------------------------------- two cycles

  function Up(): Network { (verb: string, url: string, attempt: nat) => Status(200) }
  function Down(): Network { (verb: string, url: string, attempt: nat) => Failed("timeout") }

  function KeyOf(h: string): string { StoreKey("ns", "svc", h) }

  function TargetAt(h: string): Target { TargetFor("ns", "svc", h, WinnerOf(ROUTE)) }

  function VerdictsOver(net: Network): Verdicts {
    map[KeyOf("a") := Verdict(TargetAt("a"), FinalReply(net, TargetAt("a"))),
        KeyOf("b") := Verdict(TargetAt("b"), FinalReply(net, TargetAt("b")))]
  }

  lemma OneRoute(h: string)
    ensures WinnerIndex([ROUTE], h) == if h in {"a", "b"} then Some(0) else None
  {
  }

  lemma OnlyTargets(t: Target)
    ensures t in CatalogTargets(CATALOG.apps) <==> t in {TargetAt("a"), TargetAt("b")}
  {
    OneRoute("a");
    OneRoute("b");
    if t in CatalogTargets(CATALOG.apps) {
      var i, k, h := CatalogTargetFrom(CATALOG.apps, t);
      OneRoute(h);
    }
    if t == TargetAt("a") { CatalogTargetIn(CATALOG.apps, t, 0, 0, "a"); }
    if t == TargetAt("b") { CatalogTargetIn(CATALOG.apps, t, 0, 0, "b"); }
  }

  lemma KeysDiffer()
    ensures KeyOf("a") != KeyOf("b")
  {
    if KeyOf("a") == KeyOf("b") { StoreKeyInjective("ns", "svc", "a", "ns", "svc", "b"); }
  }

  lemma OwnKey(h: string)
    ensures TargetAt(h).key == KeyOf(h)
  {
  }

  lemma CycleCovers(net: Network)
    ensures Covers(VerdictsOver(net), net, CatalogTargets(CATALOG.apps))
  {
    var targets, a, b := CatalogTargets(CATALOG.apps), TargetAt("a"), TargetAt("b");
    KeysDiffer();
    OwnKey("a");
    OwnKey("b");
    forall t ensures t in targets <==> t == a || t == b { OnlyTargets(t); }
    TwoCovered(net, targets, a, b);
  }

  lemma TwoCovered(net: Network, targets: multiset<Target>, a: Target, b: Target)
    requires (forall t :: t in targets <==> t == a || t == b) && a.key != b.key
    ensures Covers(map[a.key := Verdict(a, FinalReply(net, a)), b.key := Verdict(b, FinalReply(net, b))], net, targets)
  {
  }

  /** What a request serves whose two lookups saw the snapshots `x` and `y`. */
  function Served(x: Verdicts, y: Verdicts): seq<ApplicationEntry> { ServeApps(CATALOG.apps, SeenBy([x, y])) }

  function Lookup(m: Verdicts, h: string): seq<ReachabilityResult> { if KeyOf(h) in m then [m[KeyOf(h)]] else [] }

  lemma ServedPair(x: Verdicts, y: Verdicts)
    ensures |Served(x, y)| == 1 && |Served(x, y)[0].services| == 1
    ensures Served(x, y)[0].services[0].reachability == Lookup(x, "a") + Lookup(y, "b")
  {
    var seen := SeenBy([x, y]);
    assert CatalogLookups(CATALOG.apps[..0]) == 0;
    FoundPair(x, y);
    assert VerdictsAt("ns", [SVC], seen, 0, 0) == Found("ns", "svc", HOSTS, seen, 0);
  }

  lemma FoundPair(x: Verdicts, y: Verdicts)
    ensures Found("ns", "svc", HOSTS, SeenBy([x, y]), 0) == Lookup(x, "a") + Lookup(y, "b")
  {
  }

  /** Collect, probe, look once, probe again, look again, answer. */
  function Events(cat: CatalogView, up: Network, x: Verdicts, down: Network, y: Verdicts): seq<Event> {
    [CollectOk(cat), TickBegin, TickEnd(x, up), Arrive(0), Look(0)] + [TickBegin, TickEnd(y, down), Look(0), Respond(0)]
  }

  function Loading(cat: CatalogView, x: Verdicts, up: Network): State {
    State(Some(cat), x, None, map[0 := Request(Some(Loaded(cat, 0)), [x], [1])], [], [cat],
          [Stored(map[], None), Stored(x, Some(Origin(0, up)))])
  }

  lemma LoadsOnly(s: State, cat: CatalogView)
    requires s.live == Some(cat) && s.published == [cat]
    ensures Load(s) == Some(Loaded(cat, 0))
  {
  }

  lemma LooksUp(sys: System, s: State, req: Request)
    requires s.open == map[0 := req] && |req.seen| < Wanted(sys, req.source) && |s.stored| > 0
    ensures Step(sys)(s, Look(0)) ==
            s.(open := map[0 := Request(req.source, req.seen + [s.store], req.looks + [|s.stored| - 1])])
  {
  }

  lemma FirstLook(sys: System, cat: CatalogView, up: Network, x: Verdicts)
    requires sys.outcome(cat, up, x) && sys.lookups(cat) == 2
    ensures Fold(Step(sys), Init(), [CollectOk(cat), TickBegin, TickEnd(x, up), Arrive(0), Look(0)]) ==
            Loading(cat, x, up)
  {
    var f, base := Step(sys), [Stored(map[], None)];
    var more := base + [Stored(x, Some(Origin(0, up)))];
    var s1 := State(Some(cat), map[], None, map[], [], [cat], base);
    var s2 := State(Some(cat), map[], Some(Loaded(cat, 0)), map[], [], [cat], base);
    var s3 := State(Some(cat), x, None, map[], [], [cat], more);
    var s4 := State(Some(cat), x, None, map[0 := Request(Some(Loaded(cat, 0)), [], [])], [], [cat], more);
    LoadsOnly(s1, cat);
    LoadsOnly(s3, cat);
    assert f(Init(), CollectOk(cat)) == s1;
    assert f(s1, TickBegin) == s2;
    assert f(s2, TickEnd(x, up)) == s3;
    assert f(s3, Arrive(0)) == s4;
    LooksUp(sys, s4, s4.open[0]);
    assert [] + [x] == [x] && [] + [1] == [1] && |more| == 2;
    assert f(s4, Look(0)) == Loading(cat, x, up);
    FoldFive(f, Init(), CollectOk(cat), TickBegin, TickEnd(x, up), Arrive(0), Look(0));
  }

  lemma FoldFive<S, X>(f: (S, X) -> S, s: S, a: X, b: X, c: X, d: X, e: X)
    ensures Fold(f, s, [a, b, c, d, e]) == f(f(f(f(f(s, a), b), c), d), e)
  {
    FoldFour(f, s, a, b, c, d);
    FoldSnoc(f, s, [a, b, c, d], e);
    assert [a, b, c, d] + [e] == [a, b, c, d, e];
  }

  lemma FoldFour<S, X>(f: (S, X) -> S, s: S, a: X, b: X, c: X, d: X)
    ensures Fold(f, s, [a, b, c, d]) == f(f(f(f(s, a), b), c), d)
  {
    FoldSnoc(f, s, [], a);
    FoldSnoc(f, s, [a], b);
    FoldSnoc(f, s, [a, b], c);
    FoldSnoc(f, s, [a, b, c], d);
    assert [] + [a] == [a] && [a] + [b] == [a, b] && [a, b] + [c] == [a, b, c] && [a, b, c] + [d] == [a, b, c, d];
  }

  lemma SecondLook(sys: System, cat: CatalogView, up: Network, x: Verdicts, down: Network, y: Verdicts)
    requires sys.outcome(cat, down, y) && sys.lookups(cat) == 2
    ensures
      var t := Fold(Step(sys), Loading(cat, x, up), [TickBegin, TickEnd(y, down), Look(0), Respond(0)]);
      && t.stored == Loading(cat, x, up).stored + [Stored(y, Some(Origin(0, down)))]
      && t.sent == [Response(0, MetaOf(cat), sys.serve(cat, [x, y]), Some(Loaded(cat, 0)), [1, 2])]
  {
    var f, s := Step(sys), Loading(cat, x, up);
    var l, more := Loaded(cat, 0), s.stored + [Stored(y, Some(Origin(0, down)))];
    var s1, s2 := s.(tick := Some(l)), s.(store := y, stored := more);
    var s3 := s2.(open := map[0 := Request(Some(l), [x, y], [1, 2])]);
    LoadsOnly(s, cat);
    assert f(s, TickBegin) == s1;
    assert f(s1, TickEnd(y, down)) == s2;
    LooksUp(sys, s2, s2.open[0]);
    assert [x] + [y] == [x, y] && [1] + [2] == [1, 2];
    assert f(s2, Look(0)) == s3;
    assert |s3.open[0].seen| == 2;
    assert f(s3, Respond(0)).sent == [Answer(sys, 0, s3.open[0])];
    FoldFour(f, Loading(cat, x, up), TickBegin, TickEnd(y, down), Look(0), Respond(0));
  }

  /** Some response of the run shows what no snapshot the store ever held would show. */
  ghost predicate Mixes(sys: System, cat: CatalogView, events: seq<Event>) {
    var t := Run(sys, events);
    && |t.sent| == 1 && t.sent[0].source == Some(Loaded(cat, 0)) && t.sent[0].looks == [1, 2]
    && forall k | 0 <= k < |t.stored| :: t.sent[0].data != sys.serve(cat, [t.stored[k].results, t.stored[k].results])
  }

  lemma MixedRun(sys: System, cat: CatalogView, up: Network, x: Verdicts, down: Network, y: Verdicts)
    requires sys.outcome(cat, up, x) && sys.outcome(cat, down, y) && sys.lookups(cat) == 2
    requires sys.serve(cat, [x, y]) !in {sys.serve(cat, [map[], map[]]), sys.serve(cat, [x, x]), sys.serve(cat, [y, y])}
    ensures Mixes(sys, cat, Events(cat, up, x, down, y))
  {
    FirstLook(sys, cat, up, x);
    SecondLook(sys, cat, up, x, down, y);
    FoldAppend(Step(sys), Init(), [CollectOk(cat), TickBegin, TickEnd(x, up), Arrive(0), Look(0)],
               [TickBegin, TickEnd(y, down), Look(0), Respond(0)]);
  }

  lemma ServiceOver(net: Network)
    ensures Service("c").outcome(CATALOG, net, VerdictsOver(net))
  {
    CycleCovers(net);
  }

  lemma ServiceServes(x: Verdicts, y: Verdicts)
    ensures Service("c").serve(CATALOG, [x, y]) == Served(x, y) && Service("c").lookups(CATALOG) == 2
  {
    assert AppLookups(CATALOG.apps[0]) == Serving.Lookups([SVC], 0) + |HOSTS|;
    assert CatalogLookups(CATALOG.apps[..0]) == 0;
  }

  lemma ServiceMixes(x: Verdicts, y: Verdicts)
    requires Served(x, y) != Served(x, x) && Served(x, y) != Served(y, y) && Served(x, y) != Served(map[], map[])
    ensures
      var sys := Service("c");
      sys.serve(CATALOG, [x, y]) !in
        {sys.serve(CATALOG, [map[], map[]]), sys.serve(CATALOG, [x, x]), sys.serve(CATALOG, [y, y])}
  {
  }

  /** A response need not show one snapshot: on this catalog, collected from a scan, it shows one host as the first
      cycle found it and the other as the second did. */
  lemma ResponseMixesSnapshots() returns (events: seq<Event>)
    ensures Wellformed(CATALOG, Cfg(), SNAP) && Mixes(Service("c"), CATALOG, events)
  {
    Collectable();
    events := Events(CATALOG, Up(), VerdictsOver(Up()), Down(), VerdictsOver(Down()));
    ServiceOver(Up());
    ServiceOver(Down());
    ServiceServes(map[], map[]);
    MixIsNeither();
    ServiceMixes(VerdictsOver(Up()), VerdictsOver(Down()));
    MixedRun(Service("c"), CATALOG, Up(), VerdictsOver(Up()), Down(), VerdictsOver(Down()));
  }

  lemma MixIsNeither()
    ensures
      var x, y := VerdictsOver(Up()), VerdictsOver(Down());
      Served(x, y) != Served(x, x) && Served(x, y) != Served(y, y) && Served(x, y) != Served(map[], map[])
  {
    var x, y := VerdictsOver(Up()), VerdictsOver(Down());
    ServedPair(x, y);
    ServedPair(x, x);
    ServedPair(y, y);
    ServedPair(map[], map[]);
    CodesDiffer("a");
    CodesDiffer("b");
    assert (Lookup(x, "a") + Lookup(y, "b"))[0] == Lookup(x, "a")[0] &&
      (Lookup(x, "a") + Lookup(y, "b"))[1] == Lookup(y, "b")[0];
    assert (Lookup(x, "a") + Lookup(x, "b"))[1] == Lookup(x, "b")[0];
    assert (Lookup(y, "a") + Lookup(y, "b"))[0] == Lookup(y, "a")[0];
  }

  lemma CodesDiffer(h: string)
    requires h in {"a", "b"}
    ensures Lookup(VerdictsOver(Up()), h) != Lookup(VerdictsOver(Down()), h)
    ensures |Lookup(VerdictsOver(Up()), h)| == |Lookup(VerdictsOver(Down()), h)| == 1
  {
  }
}
