/** Workloads do not interfere: what the overlay records for one workload is a function of that workload's own
    samples. */
module OverlayIsolation {
  import opened Text
  import opened Sequences
  import opened Catalog
  import opened Resolving
  import opened Engines
  import opened OverlaySpec
  import opened OverlayIntegrity

  // ----------------------------------------------------------- delimiter-joined keys

  predicate KeySafe(s: string) { '/' !in s && '\0' !in s }

  /** Names as the Kubernetes API server admits them, as far as the joined keys care. */
  predicate KubernetesNames(apps: seq<ApplicationEntry>) {
    SlashFreeNames(apps) &&
    forall i | 0 <= i < |apps| :: apps[i].namespace != "" && KeySafe(apps[i].namespace) && KeySafe(apps[i].name)
  }

  /** Nodes as the resolver produces them for such names. */
  predicate PlainNode(cluster: string, n: DependencyNode) {
    if n.external then n == ExternalNode(n.service)
    else n.cluster == cluster && n.namespace != "" && KeySafe(n.namespace) && KeySafe(n.service)
  }

  lemma ClientPlain(ctx: Context, cluster: string, apps: seq<ApplicationEntry>, s: Sample)
    requires Built(ctx.res, cluster, apps) && KubernetesNames(apps)
    ensures PlainNode(cluster, Client(ctx, s))
  {
    ClientSound(ctx.res, cluster, apps, s.metric);
  }

  lemma JoinKeySeparates(cluster: string, w: DependencyNode, n: DependencyNode)
    requires PlainNode(cluster, w) && PlainNode(cluster, n) && !w.external
    requires NodeJoinKey(w) == NodeJoinKey(n)
    ensures w == n
  {
    KeyInjective(w.namespace, w.service, n.namespace, n.service, '/');
  }

  lemma EngineKeySeparates(cluster: string, w: DependencyNode, a: string, n: DependencyNode, b: string)
    requires PlainNode(cluster, w) && PlainNode(cluster, n) && !w.external
    requires EngineConflictKey(w, a) == EngineConflictKey(n, b)
    ensures w == n
  {
    var k := EngineConflictKey(w, a);
    assert k == w.namespace + ['/'] + (w.service + "\0" + a);
    assert k == n.namespace + ['/'] + (n.service + "\0" + b);
    KeyInjective(w.namespace, w.service + "\0" + a, n.namespace, n.service + "\0" + b, '/');
    assert !n.external;
    KeyInjective(w.service, a, n.service, b, '\0');
  }

  lemma EdgeKeySeparates(cluster: string, e: DependencyEdge, f: DependencyEdge)
    requires PlainNode(cluster, e.source) && PlainNode(cluster, f.source) && !e.source.external
    requires EdgeKey(e) == EdgeKey(f)
    ensures e.source == f.source
  {
    var w, n := e.source, f.source;
    var a := BoolStr(w.external) + "|" + (NodeKey(e.target) + "|" + (e.kind + "|" + e.origin));
    var b := BoolStr(n.external) + "|" + (NodeKey(f.target) + "|" + (f.kind + "|" + f.origin));
    assert EdgeKey(e) == w.namespace + ['/'] + (w.service + "/" + a);
    assert EdgeKey(f) == n.namespace + ['/'] + (n.service + "/" + b);
    KeyInjective(w.namespace, w.service + "/" + a, n.namespace, n.service + "/" + b, '/');
    assert !n.external;
    KeyInjective(w.service, a, n.service, b, '/');
  }

  // ------------------------------------------------------------------- steady DNS

  /** DNS that answers the same query the same way every time. */
  ghost predicate Steady(net: Network) {
    forall t, u, x :: net.ptr(t, x) == net.ptr(u, x) && net.forward(t, x) == net.forward(u, x)
  }

  /** The caches hold what DNS answers. */
  ghost predicate Truthful(net: Network, c: Caches) {
    && (forall ip | ip in c.ptr :: c.ptr[ip] == FirstName(net.ptr(0, ip)))
    && (forall h | h in c.hosts :: c.hosts[h] == UsableIPs(net, net.forward(0, h)))
  }

  lemma LookupsTruthful(net: Network, c: Caches, x: string)
    requires Steady(net) && Truthful(net, c)
    ensures Truthful(net, ReverseLookup(net, c, x)) && Truthful(net, ForwardLookup(net, c, x))
  {
    assert net.ptr(c.clock, x) == net.ptr(0, x) && net.forward(c.clock, x) == net.forward(0, x);
  }

  lemma ExternalHostAlike(net: Network, c: Caches, d: Caches, host: string)
    requires Steady(net) && Truthful(net, c) && Truthful(net, d)
    ensures Truthful(net, ExternalHost(net, c, host).caches)
    ensures ExternalHost(net, c, host).host == ExternalHost(net, d, host).host
    ensures ExternalHost(net, c, host).keep == ExternalHost(net, d, host).keep
  {
    LookupsTruthful(net, c, host);
    LookupsTruthful(net, d, host);
  }

  // ------------------------------------------------------ what one workload sees

  function From(w: DependencyNode): DependencyEdge -> bool { (e: DependencyEdge) => e.source == w }

  function Mine(ctx: Context, w: DependencyNode): Sample -> bool { (s: Sample) => Client(ctx, s) == w }

  ghost predicate PlainSources(cluster: string, edges: seq<DependencyEdge>) {
    forall e | e in edges :: PlainNode(cluster, e.source)
  }

  ghost predicate Tidy(ctx: Context, cluster: string, st: State) {
    Truthful(ctx.net, st.caches) && PlainSources(cluster, st.edges)
  }

  /** Two states look the same to workload `w`: its edges, its HTTP peers, its application entry. */
  ghost predicate SameFor(ctx: Context, w: DependencyNode, a: State, b: State) {
    && Filter(From(w), a.edges) == Filter(From(w), b.edges)
    && Peers(a.peers, NodeJoinKey(w)) == Peers(b.peers, NodeJoinKey(w))
    && |a.apps| == |b.apps|
    && (AppOf(ctx, a.apps, w).Some? ==> a.apps[AppOf(ctx, a.apps, w).value] == b.apps[AppOf(ctx, a.apps, w).value])
  }

  ghost predicate Alike(ctx: Context, cluster: string, w: DependencyNode, a: State, b: State) {
    Tidy(ctx, cluster, a) && Tidy(ctx, cluster, b) && SameFor(ctx, w, a, b)
  }

  /** Two keys never share an application entry. */
  ghost predicate IndexInjective(index: map<string, nat>) {
    forall k, l | k in index && l in index && index[k] == index[l] :: k == l
  }

  lemma IndexedInjective(ctx: Context, cluster: string, apps: seq<ApplicationEntry>)
    requires ContextOf(ctx, cluster, apps)
    ensures IndexInjective(ctx.index)
  {
    forall k, l | k in ctx.index && l in ctx.index && ctx.index[k] == ctx.index[l] ensures k == l {
      assert Indexed(ctx.index, apps, k) && Indexed(ctx.index, apps, l);
    }
  }

  lemma AddEdgeFor(cluster: string, w: DependencyNode, edges: seq<DependencyEdge>, e: DependencyEdge)
    requires PlainSources(cluster, edges) && PlainNode(cluster, e.source) && PlainNode(cluster, w) && !w.external
    ensures PlainSources(cluster, AddBy(EdgeKey, edges, e))
    ensures Filter(From(w), AddBy(EdgeKey, edges, e)) ==
            if e.source == w then AddBy(EdgeKey, Filter(From(w), edges), e) else Filter(From(w), edges)
  {
    forall f | f in edges && EdgeKey(e) == EdgeKey(f) ensures From(w)(e) == From(w)(f) {
      if e.source == w { EdgeKeySeparates(cluster, e, f); }
      if f.source == w { EdgeKeySeparates(cluster, f, e); }
    }
    FilterAddBy(From(w), EdgeKey, edges, e);
  }

  /** An effect of another workload is invisible to `w`. */
  lemma OthersEffect(ctx: Context, cluster: string, w: DependencyNode, st: State, eff: Effect)
    requires IndexInjective(ctx.index) && PlainNode(cluster, w) && !w.external && Tidy(ctx, cluster, st)
    requires eff.Emit? ==> PlainNode(cluster, eff.edge.source) && eff.edge.source != w
    ensures Alike(ctx, cluster, w, ApplyEffect(ctx, st, eff), st)
  {
    if eff.Emit? {
      AddEdgeFor(cluster, w, st.edges, eff.edge);
      if NodeJoinKey(w) == NodeJoinKey(eff.edge.source) { JoinKeySeparates(cluster, w, eff.edge.source); }
    }
  }

  /** The same effect of `w` itself keeps two states alike. */
  lemma OwnEffect(ctx: Context, cluster: string, w: DependencyNode, a: State, b: State, eff: Effect)
    requires PlainNode(cluster, w) && !w.external && Alike(ctx, cluster, w, a, b)
    requires eff.Emit? ==> eff.edge.source == w
    ensures Alike(ctx, cluster, w, ApplyEffect(ctx, a, eff), ApplyEffect(ctx, b, eff))
  {
    if eff.Emit? {
      AddEdgeFor(cluster, w, a.edges, eff.edge);
      AddEdgeFor(cluster, w, b.edges, eff.edge);
    }
  }

  lemma RecordExact(ctx: Context, st: State, key: string, peerHost: string, k: string)
    requires Steady(ctx.net) && Truthful(ctx.net, st.caches)
    ensures Truthful(ctx.net, RecordPeer(ctx, st, key, peerHost).caches)
    ensures RecordPeer(ctx, st, key, peerHost).edges == st.edges && RecordPeer(ctx, st, key, peerHost).apps == st.apps
    ensures Peers(RecordPeer(ctx, st, key, peerHost).peers, k) == Peers(st.peers, k) +
              if k != key then {}
              else (if peerHost == "" then {} else {peerHost}) +
                   (if ctx.net.isBareIP(peerHost) then {}
                    else set h | h in UsableIPs(ctx.net, ctx.net.forward(0, peerHost)) && h != "")
  {
    LookupsTruthful(ctx.net, st.caches, peerHost);
    var c := ForwardLookup(ctx.net, st.caches, peerHost);
    AddPeersExact(AddPeer(st.peers, key, peerHost), key, c.hosts[peerHost], k);
  }

  // ------------------------------------------------------------- the two phases

  lemma HttpOwn(ctx: Context, cluster: string, w: DependencyNode, a: State, b: State, s: Sample)
    requires Steady(ctx.net) && PlainNode(cluster, w) && !w.external && Client(ctx, s) == w
    requires Alike(ctx, cluster, w, a, b)
    ensures Alike(ctx, cluster, w, HttpSample(ctx, a, s), HttpSample(ctx, b, s))
  {
    var raw, key := RawHost(s), NodeJoinKey(w);
    ExternalHostAlike(ctx.net, a.caches, b.caches, raw);
    ExternalHostAlike(ctx.net, b.caches, a.caches, raw);
    var p, q := ExternalHost(ctx.net, a.caches, raw), ExternalHost(ctx.net, b.caches, raw);
    var name := HttpPeerHost(s, p.host);
    RecordExact(ctx, a.(caches := p.caches), key, name, key);
    RecordExact(ctx, b.(caches := q.caches), key, name, key);
    EgressShape(ctx, s, {}, p.host, p.keep);
    OwnEffect(ctx, cluster, w, RecordPeer(ctx, a.(caches := p.caches), key, name),
              RecordPeer(ctx, b.(caches := q.caches), key, name), HttpEffect(ctx, s, p.host, p.keep));
  }

  lemma HttpOther(ctx: Context, cluster: string, w: DependencyNode, st: State, s: Sample)
    requires IndexInjective(ctx.index) && Steady(ctx.net) && PlainNode(cluster, w) && !w.external
    requires PlainNode(cluster, Client(ctx, s)) && Client(ctx, s) != w && Tidy(ctx, cluster, st)
    ensures Alike(ctx, cluster, w, HttpSample(ctx, st, s), st)
  {
    var key := NodeJoinKey(Client(ctx, s));
    if key == NodeJoinKey(w) { JoinKeySeparates(cluster, w, Client(ctx, s)); }
    ExternalHostAlike(ctx.net, st.caches, st.caches, RawHost(s));
    var p := ExternalHost(ctx.net, st.caches, RawHost(s));
    var name := HttpPeerHost(s, p.host);
    RecordExact(ctx, st.(caches := p.caches), key, name, NodeJoinKey(w));
    EgressShape(ctx, s, {}, p.host, p.keep);
    OthersEffect(ctx, cluster, w, RecordPeer(ctx, st.(caches := p.caches), key, name),
                 HttpEffect(ctx, s, p.host, p.keep));
  }

  lemma DatabaseOwn(ctx: Context, cluster: string, w: DependencyNode, a: State, b: State, s: Sample)
    requires Steady(ctx.net) && PlainNode(cluster, w) && !w.external && Client(ctx, s) == w
    requires Alike(ctx, cluster, w, a, b)
    ensures Alike(ctx, cluster, w, DatabaseSample(ctx, a, s), DatabaseSample(ctx, b, s))
  {
    ExternalHostAlike(ctx.net, a.caches, b.caches, RawHost(s));
    ExternalHostAlike(ctx.net, b.caches, a.caches, RawHost(s));
    var p, q := ExternalHost(ctx.net, a.caches, RawHost(s)), ExternalHost(ctx.net, b.caches, RawHost(s));
    var http := Peers(a.peers, NodeJoinKey(w));
    EgressShape(ctx, s, http, p.host, p.keep);
    OwnEffect(ctx, cluster, w, a.(caches := p.caches), b.(caches := q.caches),
              DatabaseEffect(ctx, http, s, p.host, p.keep));
  }

  lemma DatabaseOther(ctx: Context, cluster: string, w: DependencyNode, st: State, s: Sample)
    requires IndexInjective(ctx.index) && Steady(ctx.net) && PlainNode(cluster, w) && !w.external
    requires PlainNode(cluster, Client(ctx, s)) && Client(ctx, s) != w && Tidy(ctx, cluster, st)
    ensures Alike(ctx, cluster, w, DatabaseSample(ctx, st, s), st)
  {
    ExternalHostAlike(ctx.net, st.caches, st.caches, RawHost(s));
    var p := ExternalHost(ctx.net, st.caches, RawHost(s));
    var http := Peers(st.peers, NodeJoinKey(Client(ctx, s)));
    EgressShape(ctx, s, http, p.host, p.keep);
    OthersEffect(ctx, cluster, w, st.(caches := p.caches), DatabaseEffect(ctx, http, s, p.host, p.keep));
  }

  // ------------------------------------------------------------ engine conflicts

  /** The conflict at a peer of `w` is settled by the samples of `w` alone. */
  lemma ConflictIsLocal(ctx: Context, cluster: string, w: DependencyNode, all: seq<Sample>, raw: string)
    requires PlainNode(cluster, w) && !w.external && forall s | s in all :: PlainNode(cluster, Client(ctx, s))
    ensures
      var key := EngineConflictKey(w, raw);
      var own := Filter(Mine(ctx, w), all);
      && EnginesOf(PeerKey(ctx.res), all, key) == EnginesOf(PeerKey(ctx.res), own, key)
      && forall e :: Total(PeerKey(ctx.res), all, key, e) == Total(PeerKey(ctx.res), own, key, e)
  {
    var peer, key, own := PeerKey(ctx.res), EngineConflictKey(w, raw), Filter(Mine(ctx, w), all);
    forall s | s in all && peer(s) == key ensures Client(ctx, s) == w {
      EngineKeySeparates(cluster, w, raw, Client(ctx, s), RawHost(s));
    }
    forall s ensures s in own <==> s in all && Client(ctx, s) == w { FilterIn(Mine(ctx, w), all, s); }
    forall e ensures Total(peer, all, key, e) == Total(peer, own, key, e) {
      SumFilter(Rate(peer, key, e), Mine(ctx, w), all);
    }
  }

  lemma SurvivalIsLocal(ctx: Context, cluster: string, w: DependencyNode, all: seq<Sample>, other: seq<Sample>,
                        s: Sample)
    requires PlainNode(cluster, w) && !w.external && Client(ctx, s) == w
    requires forall x | x in all || x in other :: PlainNode(cluster, Client(ctx, x))
    requires Filter(Mine(ctx, w), all) == Filter(Mine(ctx, w), other)
    ensures Survives(PeerKey(ctx.res), all, s) == Survives(PeerKey(ctx.res), other, s)
  {
    ConflictIsLocal(ctx, cluster, w, all, RawHost(s));
    ConflictIsLocal(ctx, cluster, w, other, RawHost(s));
    SameVerdict(PeerKey(ctx.res), all, other, s);
  }

  lemma SameVerdict(peer: Sample -> string, all: seq<Sample>, other: seq<Sample>, s: Sample)
    requires EnginesOf(peer, all, peer(s)) == EnginesOf(peer, other, peer(s))
    requires forall e :: Total(peer, all, peer(s), e) == Total(peer, other, peer(s), e)
    ensures Survives(peer, all, s) == Survives(peer, other, s)
  {
  }

  // ------------------------------------------------------------ one phase at a time

  /** The service-graph samples that stand for an edge from `w`. */
  function GraphMine(ctx: Context, w: DependencyNode): Sample -> bool {
    (s: Sample) =>
      var eff := ServiceGraphEffect(ctx, s);
      eff.Emit? && eff.edge.source == w
  }

  lemma GraphSourcePlain(ctx: Context, cluster: string, apps: seq<ApplicationEntry>, s: Sample)
    requires Built(ctx.res, cluster, apps) && KubernetesNames(apps)
    ensures var eff := ServiceGraphEffect(ctx, s); eff.Emit? ==> PlainNode(cluster, eff.edge.source)
  {
    EndpointSound(ctx.res, cluster, apps, Label(s.metric, "client"), Label(s.metric, "client_k8s_namespace_name"));
  }

  /** What all the phases ask of their surroundings. */
  ghost predicate Setting(ctx: Context, cluster: string, w: DependencyNode) {
    && IndexInjective(ctx.index) && Steady(ctx.net) && PlainNode(cluster, w) && !w.external
    && (forall s :: PlainNode(cluster, Client(ctx, s)))
    && forall s :: var eff := ServiceGraphEffect(ctx, s); eff.Emit? ==> PlainNode(cluster, eff.edge.source)
  }

  lemma InSetting(ctx: Context, cluster: string, apps0: seq<ApplicationEntry>, w: DependencyNode)
    requires ContextOf(ctx, cluster, apps0) && KubernetesNames(apps0) && NamesApplication(apps0, cluster, w) &&
             Steady(ctx.net)
    ensures Setting(ctx, cluster, w)
  {
    IndexedInjective(ctx, cluster, apps0);
    forall s ensures PlainNode(cluster, Client(ctx, s)) { ClientPlain(ctx, cluster, apps0, s); }
    forall s ensures var eff := ServiceGraphEffect(ctx, s); eff.Emit? ==> PlainNode(cluster, eff.edge.source) {
      GraphSourcePlain(ctx, cluster, apps0, s);
    }
  }

  /** Two runs of a phase that agree, in order, on the samples of `w` keep two states alike. `f` and `g` are the phase's
      steps in the two runs. */
  lemma Phase(ctx: Context, cluster: string, w: DependencyNode, f: (State, Sample) -> State,
              g: (State, Sample) -> State, mine: Sample -> bool, a: State, xs: seq<Sample>, b: State, ys: seq<Sample>)
    requires Alike(ctx, cluster, w, a, b) && Filter(mine, xs) == Filter(mine, ys)
    requires forall s, t, x | Alike(ctx, cluster, w, s, t) && mine(x) :: Alike(ctx, cluster, w, f(s, x), g(t, x))
    requires forall s, x | Tidy(ctx, cluster, s) && !mine(x) ::
               Alike(ctx, cluster, w, f(s, x), s) && Alike(ctx, cluster, w, g(s, x), s)
    ensures Alike(ctx, cluster, w, Fold(f, a, xs), Fold(g, b, ys))
  {
    var rel := (s, t) => Alike(ctx, cluster, w, s, t);
    forall s, t, x | rel(s, t) && !mine(x) ensures rel(f(s, x), t) && rel(s, g(t, x)) {
      assert Alike(ctx, cluster, w, f(s, x), s) && Alike(ctx, cluster, w, g(t, x), t);
    }
    FoldTwin(f, g, rel, mine, a, xs, b, ys);
  }

  lemma GraphPhase(ctx: Context, cluster: string, w: DependencyNode, a: State, b: State, xs: seq<Sample>,
                   ys: seq<Sample>)
    requires Setting(ctx, cluster, w) && Alike(ctx, cluster, w, a, b)
    requires Filter(GraphMine(ctx, w), xs) == Filter(GraphMine(ctx, w), ys)
    ensures Alike(ctx, cluster, w, Fold(ServiceGraphStep(ctx), a, xs), Fold(ServiceGraphStep(ctx), b, ys))
  {
    var f, mine := ServiceGraphStep(ctx), GraphMine(ctx, w);
    forall s, t, x | Alike(ctx, cluster, w, s, t) && mine(x) ensures Alike(ctx, cluster, w, f(s, x), f(t, x)) {
      OwnEffect(ctx, cluster, w, s, t, ServiceGraphEffect(ctx, x));
    }
    forall s, x | Tidy(ctx, cluster, s) && !mine(x) ensures Alike(ctx, cluster, w, f(s, x), s) {
      OthersEffect(ctx, cluster, w, s, ServiceGraphEffect(ctx, x));
    }
    Phase(ctx, cluster, w, f, f, mine, a, xs, b, ys);
  }

  lemma HttpPhase(ctx: Context, cluster: string, w: DependencyNode, a: State, b: State, xs: seq<Sample>,
                  ys: seq<Sample>)
    requires Setting(ctx, cluster, w) && Alike(ctx, cluster, w, a, b)
    requires Filter(Mine(ctx, w), xs) == Filter(Mine(ctx, w), ys)
    ensures Alike(ctx, cluster, w, Fold(HttpStep(ctx), a, xs), Fold(HttpStep(ctx), b, ys))
  {
    var f, mine := HttpStep(ctx), Mine(ctx, w);
    forall s, t, x | Alike(ctx, cluster, w, s, t) && mine(x) ensures Alike(ctx, cluster, w, f(s, x), f(t, x)) {
      HttpOwn(ctx, cluster, w, s, t, x);
    }
    forall s, x | Tidy(ctx, cluster, s) && !mine(x) ensures Alike(ctx, cluster, w, f(s, x), s) {
      HttpOther(ctx, cluster, w, s, x);
    }
    Phase(ctx, cluster, w, f, f, mine, a, xs, b, ys);
  }

  lemma DatabasePhase(ctx: Context, cluster: string, w: DependencyNode, a: State, b: State, xs: seq<Sample>,
                      ys: seq<Sample>)
    requires Setting(ctx, cluster, w) && Alike(ctx, cluster, w, a, b)
    requires Filter(Mine(ctx, w), xs) == Filter(Mine(ctx, w), ys)
    ensures Alike(ctx, cluster, w, Fold(DatabaseStep(ctx, Dropped(ctx, xs)), a, xs),
                  Fold(DatabaseStep(ctx, Dropped(ctx, ys)), b, ys))
  {
    forall s | Mine(ctx, w)(s) ensures Dropped(ctx, xs)(s) == Dropped(ctx, ys)(s) {
      SurvivalIsLocal(ctx, cluster, w, xs, ys, s);
    }
    DatabaseTwin(ctx, cluster, w, a, b, Dropped(ctx, xs), Dropped(ctx, ys), xs, ys);
  }

  lemma DatabaseTwin(ctx: Context, cluster: string, w: DependencyNode, a: State, b: State,
                     drop: Sample -> bool, drop': Sample -> bool, xs: seq<Sample>, ys: seq<Sample>)
    requires Setting(ctx, cluster, w) && Alike(ctx, cluster, w, a, b)
    requires forall s | Mine(ctx, w)(s) :: drop(s) == drop'(s)
    requires Filter(Mine(ctx, w), xs) == Filter(Mine(ctx, w), ys)
    ensures Alike(ctx, cluster, w, Fold(DatabaseStep(ctx, drop), a, xs), Fold(DatabaseStep(ctx, drop'), b, ys))
  {
    var f, g, mine := DatabaseStep(ctx, drop), DatabaseStep(ctx, drop'), Mine(ctx, w);
    forall s, t, x | Alike(ctx, cluster, w, s, t) && mine(x) ensures Alike(ctx, cluster, w, f(s, x), g(t, x)) {
      DatabaseOwn(ctx, cluster, w, s, t, x);
    }
    forall s, x | Tidy(ctx, cluster, s) && !mine(x)
      ensures Alike(ctx, cluster, w, f(s, x), s) && Alike(ctx, cluster, w, g(s, x), s)
    {
      DatabaseOther(ctx, cluster, w, s, x);
    }
    Phase(ctx, cluster, w, f, g, mine, a, xs, b, ys);
  }

  lemma MessagingPhase(ctx: Context, cluster: string, w: DependencyNode, a: State, b: State, xs: seq<Sample>,
                       ys: seq<Sample>)
    requires Setting(ctx, cluster, w) && Alike(ctx, cluster, w, a, b)
    requires Filter(Mine(ctx, w), xs) == Filter(Mine(ctx, w), ys)
    ensures Alike(ctx, cluster, w, Fold(MessagingStep(ctx), a, xs), Fold(MessagingStep(ctx), b, ys))
  {
    var f, mine := MessagingStep(ctx), Mine(ctx, w);
    forall s, t, x | Alike(ctx, cluster, w, s, t) && mine(x) ensures Alike(ctx, cluster, w, f(s, x), f(t, x)) {
      OwnEffect(ctx, cluster, w, s, t, MessagingEffect(ctx, x));
    }
    forall s, x | Tidy(ctx, cluster, s) && !mine(x) ensures Alike(ctx, cluster, w, f(s, x), s) {
      OthersEffect(ctx, cluster, w, s, MessagingEffect(ctx, x));
    }
    Phase(ctx, cluster, w, f, f, mine, a, xs, b, ys);
  }

  lemma OtherIndex(ctx: Context, cluster: string, w: DependencyNode, apps: seq<ApplicationEntry>, n: DependencyNode)
    requires Setting(ctx, cluster, w) && PlainNode(cluster, n) && n != w
    ensures AppOf(ctx, apps, n).Some? ==> AppOf(ctx, apps, n) != AppOf(ctx, apps, w)
  {
    if NodeJoinKey(w) == NodeJoinKey(n) { JoinKeySeparates(cluster, w, n); }
  }

  lemma RuntimeOwn(ctx: Context, cluster: string, w: DependencyNode, s: State, t: State, x: Sample)
    requires Alike(ctx, cluster, w, s, t) && Mine(ctx, w)(x)
    ensures Alike(ctx, cluster, w, RuntimeStep(ctx)(s, x), RuntimeStep(ctx)(t, x))
  {
    assert AppOf(ctx, s.apps, w) == AppOf(ctx, t.apps, w);
  }

  lemma RuntimeOther(ctx: Context, cluster: string, w: DependencyNode, s: State, x: Sample)
    requires Setting(ctx, cluster, w) && Tidy(ctx, cluster, s) && !Mine(ctx, w)(x)
    ensures Alike(ctx, cluster, w, RuntimeStep(ctx)(s, x), s)
  {
    OtherIndex(ctx, cluster, w, s.apps, Client(ctx, x));
  }

  lemma RuntimePhase(ctx: Context, cluster: string, w: DependencyNode, a: State, b: State, xs: seq<Sample>,
                     ys: seq<Sample>)
    requires Setting(ctx, cluster, w) && Alike(ctx, cluster, w, a, b)
    requires Filter(Mine(ctx, w), xs) == Filter(Mine(ctx, w), ys)
    ensures Alike(ctx, cluster, w, Fold(RuntimeStep(ctx), a, xs), Fold(RuntimeStep(ctx), b, ys))
  {
    var f, mine := RuntimeStep(ctx), Mine(ctx, w);
    forall s, t, x | Alike(ctx, cluster, w, s, t) && mine(x) ensures Alike(ctx, cluster, w, f(s, x), f(t, x)) {
      RuntimeOwn(ctx, cluster, w, s, t, x);
    }
    forall s, x | Tidy(ctx, cluster, s) && !mine(x) ensures Alike(ctx, cluster, w, f(s, x), s) {
      RuntimeOther(ctx, cluster, w, s, x);
    }
    Phase(ctx, cluster, w, f, f, mine, a, xs, b, ys);
  }

  /** The traffic and the errors of `w` are those of its own samples. */
  lemma OwnTraffic(ctx: Context, cluster: string, w: DependencyNode, n: nat, i: nat, samples: seq<Sample>)
    requires Setting(ctx, cluster, w) && NodeJoinKey(w) in ctx.index && ctx.index[NodeJoinKey(w)] == i
    ensures
      var owner, own := Attributed(ctx, n), Filter(Mine(ctx, w), samples);
      && Sum(Traffic(owner, i), samples) == Sum(Traffic(owner, i), own)
      && Sum(Errors(owner, i), samples) == Sum(Errors(owner, i), own)
  {
    var owner := Attributed(ctx, n);
    forall s | !Mine(ctx, w)(s) ensures Traffic(owner, i)(s) == 0.0 && Errors(owner, i)(s) == 0.0 {
      var client := Client(ctx, s);
      if NodeJoinKey(client) == NodeJoinKey(w) { JoinKeySeparates(cluster, w, client); }
      assert owner(s) != Some(i);
    }
    SumFilter(Traffic(owner, i), Mine(ctx, w), samples);
    SumFilter(Errors(owner, i), Mine(ctx, w), samples);
  }

  lemma TrafficPhase(ctx: Context, cluster: string, w: DependencyNode, a: State, b: State, xs: seq<Sample>,
                     ys: seq<Sample>)
    requires Setting(ctx, cluster, w) && Alike(ctx, cluster, w, a, b)
    requires Filter(Mine(ctx, w), xs) == Filter(Mine(ctx, w), ys)
    ensures SameFor(ctx, w, ApplyTraffic(ctx, a, xs), ApplyTraffic(ctx, b, ys))
  {
    var found := AppOf(ctx, a.apps, w);
    if found.Some? {
      var i, owner := found.value, Attributed(ctx, |a.apps|);
      OwnTraffic(ctx, cluster, w, |a.apps|, i, xs);
      OwnTraffic(ctx, cluster, w, |a.apps|, i, ys);
      assert WithTraffic(owner, xs, i, a.apps[i]) == WithTraffic(owner, ys, i, b.apps[i]);
    }
  }

  // -------------------------------------------------------------------- theorem

  /** The two answers agree, in order, on the samples of `w`. */
  ghost predicate AgreeOn(ctx: Context, w: DependencyNode, one: Answers, two: Answers) {
    var mine := Mine(ctx, w);
    && Filter(GraphMine(ctx, w), Samples(one.serviceGraph)) == Filter(GraphMine(ctx, w), Samples(two.serviceGraph))
    && Filter(mine, Samples(one.httpClient)) == Filter(mine, Samples(two.httpClient))
    && Filter(mine, Samples(one.database)) == Filter(mine, Samples(two.database))
    && Filter(mine, Samples(one.messaging)) == Filter(mine, Samples(two.messaging))
    && Filter(mine, Samples(one.runtime)) == Filter(mine, Samples(two.runtime))
    && Filter(mine, Samples(one.traffic)) == Filter(mine, Samples(two.traffic))
  }

  /** Two telemetry answers that agree on the samples of workload `w` leave `w` with the same edges, the same HTTP peers
      and the same application entry, down to databases, topics, runtime and rates, whatever the samples of the other
      workloads say. */
  lemma NonInterference(ctx: Context, cluster: string, apps0: seq<ApplicationEntry>, w: DependencyNode,
                        caches: Caches, one: Answers, two: Answers)
    requires ContextOf(ctx, cluster, apps0) && KubernetesNames(apps0) && NamesApplication(apps0, cluster, w)
    requires Steady(ctx.net) && Truthful(ctx.net, caches) && AgreeOn(ctx, w, one, two)
    ensures SameFor(ctx, w, Overlaid(ctx, Start(apps0, caches), one), Overlaid(ctx, Start(apps0, caches), two))
  {
    InSetting(ctx, cluster, apps0, w);
    var start := Start(apps0, caches);
    var graph, graph' := Samples(one.serviceGraph), Samples(two.serviceGraph);
    GraphPhase(ctx, cluster, w, start, start, graph, graph');
    HttpPhase(ctx, cluster, w, Fold(ServiceGraphStep(ctx), start, graph), Fold(ServiceGraphStep(ctx), start, graph'),
              Samples(one.httpClient), Samples(two.httpClient));
    DatabasePhase(ctx, cluster, w, AfterHttp(ctx, start, one), AfterHttp(ctx, start, two), Samples(one.database),
                  Samples(two.database));
    MessagingPhase(ctx, cluster, w, AfterDatabase(ctx, start, one), AfterDatabase(ctx, start, two),
                   Samples(one.messaging), Samples(two.messaging));
    RuntimePhase(ctx, cluster, w, AfterMessaging(ctx, start, one), AfterMessaging(ctx, start, two),
                 Samples(one.runtime), Samples(two.runtime));
    TrafficPhase(ctx, cluster, w, AfterRuntime(ctx, start, one), AfterRuntime(ctx, start, two),
                 Samples(one.traffic), Samples(two.traffic));
  }
}
