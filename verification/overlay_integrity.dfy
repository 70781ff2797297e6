/** Properties of the overlay over whole runs: referential integrity, deduplication, phantom rejection. */
module OverlayIntegrity {
  import opened Text
  import opened Sequences
  import opened Catalog
  import opened Resolving
  import opened Engines
  import opened OverlaySpec

  // ------------------------------------------------------- what every step keeps

  /** `app` is `app0` with observations added: nothing else changed, nothing earlier lost. */
  ghost predicate Enriched(app0: ApplicationEntry, app: ApplicationEntry) {
    && Identity(app) == Identity(app0)
    && app0.databases <= app.databases && app0.kafkaTopics <= app.kafkaTopics
    && (DistinctBy(DatabaseKey, app0.databases) ==> DistinctBy(DatabaseKey, app.databases))
    && (DistinctBy(TopicKey, app0.kafkaTopics) ==> DistinctBy(TopicKey, app.kafkaTopics))
    && (app0.runtime != "" ==> app.runtime == app0.runtime)
  }

  ghost predicate AllEnriched(apps0: seq<ApplicationEntry>, apps: seq<ApplicationEntry>) {
    |apps| == |apps0| && forall i | 0 <= i < |apps| :: Enriched(apps0[i], apps[i])
  }

  ghost predicate SoundEdge(apps0: seq<ApplicationEntry>, cluster: string, e: DependencyEdge) {
    Sound(apps0, cluster, e.source) && Sound(apps0, cluster, e.target)
  }

  ghost predicate Kept(apps0: seq<ApplicationEntry>, cluster: string, st: State) {
    && AllEnriched(apps0, st.apps)
    && DistinctBy(EdgeKey, st.edges)
    && forall e | e in st.edges :: SoundEdge(apps0, cluster, e)
  }

  lemma AddByDistinct<T, K>(key: T -> K, s: seq<T>, x: T)
    requires DistinctBy(key, s)
    ensures DistinctBy(key, AddBy(key, s, x))
  {
  }

  lemma AttachEnriches(app0: ApplicationEntry, app: ApplicationEntry, a: Attachment)
    requires Enriched(app0, app)
    ensures Enriched(app0, AttachTo(app, a))
  {
  }

  lemma EffectKeeps(ctx: Context, cluster: string, apps0: seq<ApplicationEntry>, st: State, eff: Effect)
    requires Kept(apps0, cluster, st)
    requires eff.Emit? ==> SoundEdge(apps0, cluster, eff.edge)
    ensures Kept(apps0, cluster, ApplyEffect(ctx, st, eff))
  {
    match eff
    case Silent =>
    case Emit(edge, a) =>
      AddByDistinct(EdgeKey, st.edges, edge);
      match AppOf(ctx, st.apps, edge.source)
      case Some(i) => AttachEnriches(apps0[i], st.apps[i], a);
      case None =>
  }

  lemma EffectsSound(ctx: Context, cluster: string, apps0: seq<ApplicationEntry>, s: Sample)
    requires Built(ctx.res, cluster, apps0) && SlashFreeNames(apps0)
    ensures ServiceGraphEffect(ctx, s).Emit? ==> SoundEdge(apps0, cluster, ServiceGraphEffect(ctx, s).edge)
    ensures MessagingEffect(ctx, s).Emit? ==> SoundEdge(apps0, cluster, MessagingEffect(ctx, s).edge)
    ensures Sound(apps0, cluster, Client(ctx, s))
  {
    EndpointSound(ctx.res, cluster, apps0, Label(s.metric, "client"), Label(s.metric, "client_k8s_namespace_name"));
    EndpointSound(ctx.res, cluster, apps0, Label(s.metric, "server"), Label(s.metric, "server_k8s_namespace_name"));
    ClientSound(ctx.res, cluster, apps0, s.metric);
  }

  /** HTTP and database effects start at the sample's own workload and point outside the cluster. */
  lemma EgressShape(ctx: Context, s: Sample, http: set<string>, host: string, keep: bool)
    ensures var eff := HttpEffect(ctx, s, host, keep);
            eff.Emit? ==> eff.edge.source == Client(ctx, s) && eff.edge.target.external
    ensures var eff := DatabaseEffect(ctx, http, s, host, keep);
            eff.Emit? ==> eff.edge.source == Client(ctx, s) && eff.edge.target.external
  {
  }

  lemma HttpKeeps(ctx: Context, cluster: string, apps0: seq<ApplicationEntry>, st: State, s: Sample)
    requires Built(ctx.res, cluster, apps0) && SlashFreeNames(apps0) && Kept(apps0, cluster, st)
    ensures Kept(apps0, cluster, HttpSample(ctx, st, s))
  {
    EffectsSound(ctx, cluster, apps0, s);
    var peer := ExternalHost(ctx.net, st.caches, RawHost(s));
    EgressShape(ctx, s, {}, peer.host, peer.keep);
    var st' := RecordPeer(ctx, st.(caches := peer.caches), NodeJoinKey(Client(ctx, s)), HttpPeerHost(s, peer.host));
    EffectKeeps(ctx, cluster, apps0, st', HttpEffect(ctx, s, peer.host, peer.keep));
  }

  lemma DatabaseKeeps(ctx: Context, cluster: string, apps0: seq<ApplicationEntry>, st: State, s: Sample)
    requires Built(ctx.res, cluster, apps0) && SlashFreeNames(apps0) && Kept(apps0, cluster, st)
    ensures Kept(apps0, cluster, DatabaseSample(ctx, st, s))
  {
    EffectsSound(ctx, cluster, apps0, s);
    var peer := ExternalHost(ctx.net, st.caches, RawHost(s));
    var http := Peers(st.peers, NodeJoinKey(Client(ctx, s)));
    EgressShape(ctx, s, http, peer.host, peer.keep);
    EffectKeeps(ctx, cluster, apps0, st.(caches := peer.caches), DatabaseEffect(ctx, http, s, peer.host, peer.keep));
  }

  lemma GraphKeeps(ctx: Context, cluster: string, apps0: seq<ApplicationEntry>, st: State, s: Sample)
    requires Built(ctx.res, cluster, apps0) && SlashFreeNames(apps0) && Kept(apps0, cluster, st)
    ensures Kept(apps0, cluster, ServiceGraphStep(ctx)(st, s))
    ensures Kept(apps0, cluster, MessagingStep(ctx)(st, s))
  {
    EffectsSound(ctx, cluster, apps0, s);
    EffectKeeps(ctx, cluster, apps0, st, ServiceGraphEffect(ctx, s));
    EffectKeeps(ctx, cluster, apps0, st, MessagingEffect(ctx, s));
  }

  lemma RuntimeKeeps(ctx: Context, cluster: string, apps0: seq<ApplicationEntry>, st: State, s: Sample)
    requires Kept(apps0, cluster, st)
    ensures Kept(apps0, cluster, RuntimeStep(ctx)(st, s))
  {
  }

  /** What every step of the five folding phases keeps, they keep together. */
  lemma PhasesKeep(ctx: Context, inv: State -> bool, st: State, answers: Answers)
    requires inv(st)
    requires forall t, s | inv(t) :: inv(ServiceGraphStep(ctx)(t, s)) && inv(HttpStep(ctx)(t, s))
    requires var dropped := Dropped(ctx, Samples(answers.database));
             forall t, s | inv(t) :: inv(DatabaseStep(ctx, dropped)(t, s))
    requires forall t, s | inv(t) :: inv(MessagingStep(ctx)(t, s)) && inv(RuntimeStep(ctx)(t, s))
    ensures inv(AfterRuntime(ctx, st, answers))
  {
    FoldInvariant(ServiceGraphStep(ctx), inv, st, Samples(answers.serviceGraph));
    FoldInvariant(HttpStep(ctx), inv, Fold(ServiceGraphStep(ctx), st, Samples(answers.serviceGraph)),
                  Samples(answers.httpClient));
    var db := Samples(answers.database);
    FoldInvariant(DatabaseStep(ctx, Dropped(ctx, db)), inv, AfterHttp(ctx, st, answers), db);
    FoldInvariant(MessagingStep(ctx), inv, AfterDatabase(ctx, st, answers), Samples(answers.messaging));
    FoldInvariant(RuntimeStep(ctx), inv, AfterMessaging(ctx, st, answers), Samples(answers.runtime));
  }

  lemma TrafficKeeps(ctx: Context, cluster: string, apps0: seq<ApplicationEntry>, st: State, samples: seq<Sample>)
    requires Kept(apps0, cluster, st)
    ensures Kept(apps0, cluster, ApplyTraffic(ctx, st, samples))
  {
    var apps := ApplyTraffic(ctx, st, samples).apps;
    forall i | 0 <= i < |apps| ensures Enriched(apps0[i], apps[i]) { assert Enriched(apps0[i], st.apps[i]); }
  }

  /** Over any run, with any of the six queries failing: every internal endpoint is an application of
      the catalog, edges stay distinct, and applications only gain distinct observations. */
  lemma OverlayKeeps(ctx: Context, cluster: string, apps0: seq<ApplicationEntry>, caches: Caches, answers: Answers)
    requires ContextOf(ctx, cluster, apps0) && SlashFreeNames(apps0)
    ensures Kept(apps0, cluster, Overlaid(ctx, Start(apps0, caches), answers))
  {
    var inv := st => Kept(apps0, cluster, st);
    var dropped := Dropped(ctx, Samples(answers.database));
    forall st, s | inv(st)
      ensures inv(ServiceGraphStep(ctx)(st, s)) && inv(HttpStep(ctx)(st, s)) && inv(DatabaseStep(ctx, dropped)(st, s))
      ensures inv(MessagingStep(ctx)(st, s)) && inv(RuntimeStep(ctx)(st, s))
    {
      GraphKeeps(ctx, cluster, apps0, st, s);
      HttpKeeps(ctx, cluster, apps0, st, s);
      DatabaseKeeps(ctx, cluster, apps0, st, s);
      RuntimeKeeps(ctx, cluster, apps0, st, s);
    }
    PhasesKeep(ctx, inv, Start(apps0, caches), answers);
    TrafficKeeps(ctx, cluster, apps0, AfterRuntime(ctx, Start(apps0, caches), answers), Samples(answers.traffic));
  }

  /** The lookup of an internal node's application never misses, and finds that application. */
  lemma InternalNodeFound(ctx: Context, cluster: string, apps0: seq<ApplicationEntry>, apps: seq<ApplicationEntry>,
                          n: DependencyNode)
    requires ContextOf(ctx, cluster, apps0) && SlashFreeNames(apps0) && AllEnriched(apps0, apps)
    requires Sound(apps0, cluster, n) && !n.external
    ensures AppOf(ctx, apps, n).Some?
    ensures var app := apps[AppOf(ctx, apps, n).value]; app.namespace == n.namespace && app.name == n.service
  {
    var i :| 0 <= i < |apps0| && n == DependencyNode(cluster, apps0[i].namespace, apps0[i].name, false);
    var key := NodeJoinKey(n);
    assert AppKey(apps0[i]) == key;
    assert Indexed(ctx.index, apps0, key);
    var found := apps0[ctx.index[key]];
    KeyInjective(found.namespace, found.name, n.namespace, n.service, '/');
    assert Enriched(found, apps[ctx.index[key]]);
  }

  // ------------------------------------------------------------ phantom databases

  /** Workload `key` is known to call the peer behind `raw` over HTTP: under the raw address itself, or
      under the PTR name that the cache holds for it. */
  ghost predicate Shadowed(net: Network, st: State, key: string, raw: string) {
    var http := Peers(st.peers, key);
    HasPeer(http, raw) ||
    (raw != "" && net.isBareIP(raw) && !net.isPrivateIP(raw) && raw in st.caches.ptr &&
     HasPeer(http, st.caches.ptr[raw]))
  }

  /** Peers are only added, and a cached answer never changes. */
  ghost predicate Grows(a: State, b: State) {
    && (forall key :: Peers(a.peers, key) <= Peers(b.peers, key))
    && (forall ip | ip in a.caches.ptr :: ip in b.caches.ptr && b.caches.ptr[ip] == a.caches.ptr[ip])
  }

  lemma EffectGrows(ctx: Context, st: State, eff: Effect)
    ensures ApplyEffect(ctx, st, eff).peers == st.peers && ApplyEffect(ctx, st, eff).caches == st.caches
  {
  }

  lemma {:induction false} AddPeersExact(peers: map<string, set<string>>, key: string, hosts: seq<string>, k: string)
    ensures Peers(AddPeers(peers, key, hosts), k) ==
            Peers(peers, k) + (if k == key then set h | h in hosts && h != "" else {})
  {
    if hosts != [] {
      var n := |hosts| - 1;
      AddPeersExact(peers, key, hosts[..n], k);
      assert hosts == hosts[..n] + [hosts[n]];
    }
  }

  lemma RecordGrows(ctx: Context, st: State, key: string, peerHost: string)
    ensures Grows(st, RecordPeer(ctx, st, key, peerHost))
    ensures peerHost != "" ==> HasPeer(Peers(RecordPeer(ctx, st, key, peerHost).peers, key), peerHost)
    ensures !ctx.net.isBareIP(peerHost) ==>
              forall ip | ip in ForwardLookup(ctx.net, st.caches, peerHost).hosts[peerHost] && ip != "" ::
                HasPeer(Peers(RecordPeer(ctx, st, key, peerHost).peers, key), ip)
  {
    var c := ForwardLookup(ctx.net, st.caches, peerHost);
    forall k { AddPeersExact(AddPeer(st.peers, key, peerHost), key, c.hosts[peerHost], k); }
  }

  lemma HttpGrows(ctx: Context, st: State, s: Sample)
    ensures Grows(st, HttpSample(ctx, st, s))
  {
    var peer := ExternalHost(ctx.net, st.caches, RawHost(s));
    var mid := st.(caches := peer.caches);
    var st' := RecordPeer(ctx, mid, NodeJoinKey(Client(ctx, s)), HttpPeerHost(s, peer.host));
    RecordGrows(ctx, mid, NodeJoinKey(Client(ctx, s)), HttpPeerHost(s, peer.host));
    assert Grows(st, mid) && Grows(mid, st');
    EffectGrows(ctx, st', HttpEffect(ctx, s, peer.host, peer.keep));
  }

  lemma DatabaseGrows(ctx: Context, st: State, s: Sample)
    ensures Grows(st, DatabaseSample(ctx, st, s))
  {
    var peer := ExternalHost(ctx.net, st.caches, RawHost(s));
    var mid := st.(caches := peer.caches);
    assert Grows(st, mid);
    var http := Peers(st.peers, NodeJoinKey(Client(ctx, s)));
    EffectGrows(ctx, mid, DatabaseEffect(ctx, http, s, peer.host, peer.keep));
  }

  /** The addresses under which an HTTP sample, met in state `st`, makes its peer known. */
  ghost predicate CalledOverHTTP(ctx: Context, st: State, s: Sample, raw: string) {
    var peer := ExternalHost(ctx.net, st.caches, RawHost(s));
    var name := HttpPeerHost(s, peer.host);
    raw == RawHost(s) ||
    (!ctx.net.isBareIP(name) && raw in ForwardLookup(ctx.net, peer.caches, name).hosts[name])
  }

  lemma HttpShadows(ctx: Context, st: State, s: Sample, raw: string)
    requires raw != "" && CalledOverHTTP(ctx, st, s, raw)
    ensures Shadowed(ctx.net, HttpSample(ctx, st, s), NodeJoinKey(Client(ctx, s)), raw)
  {
    var key := NodeJoinKey(Client(ctx, s));
    var peer := ExternalHost(ctx.net, st.caches, RawHost(s));
    var mid := st.(caches := peer.caches);
    var st' := RecordPeer(ctx, mid, key, HttpPeerHost(s, peer.host));
    RecordGrows(ctx, mid, key, HttpPeerHost(s, peer.host));
    EffectGrows(ctx, st', HttpEffect(ctx, s, peer.host, peer.keep));
  }

  lemma KnownPeerSilent(ctx: Context, http: set<string>, s: Sample, host: string, keep: bool)
    requires !Client(ctx, s).external
    requires HasPeer(http, RawHost(s)) || (keep && HasPeer(http, host))
    ensures DatabaseEffect(ctx, http, s, host, keep).Silent?
  {
  }

  lemma ShadowedSilences(ctx: Context, st: State, s: Sample)
    requires !Client(ctx, s).external
    requires Shadowed(ctx.net, st, NodeJoinKey(Client(ctx, s)), RawHost(s))
    ensures DatabaseSample(ctx, st, s).edges == st.edges && DatabaseSample(ctx, st, s).apps == st.apps
  {
    var peer := ExternalHost(ctx.net, st.caches, RawHost(s));
    KnownPeerSilent(ctx, Peers(st.peers, NodeJoinKey(Client(ctx, s))), s, peer.host, peer.keep);
  }

  lemma {:induction false} FoldShadowed(ctx: Context, step: (State, Sample) -> State, st: State, samples: seq<Sample>,
                                        key: string, raw: string)
    requires forall a, s :: Grows(a, step(a, s))
    requires Shadowed(ctx.net, st, key, raw)
    ensures Shadowed(ctx.net, Fold(step, st, samples), key, raw)
  {
    if samples != [] {
      var n := |samples| - 1;
      FoldShadowed(ctx, step, st, samples[..n], key, raw);
      assert Grows(Fold(step, st, samples[..n]), Fold(step, st, samples));
    }
  }

  lemma ShadowedAfterHttp(ctx: Context, st: State, http: seq<Sample>, i: nat, raw: string)
    requires i < |http| && raw != ""
    requires Label(http[i].metric, "server_address") != "" && !Client(ctx, http[i]).external
    requires CalledOverHTTP(ctx, Fold(HttpStep(ctx), st, http[..i]), http[i], raw)
    ensures Shadowed(ctx.net, Fold(HttpStep(ctx), st, http), NodeJoinKey(Client(ctx, http[i])), raw)
  {
    var step, key := HttpStep(ctx), NodeJoinKey(Client(ctx, http[i]));
    var before := Fold(step, st, http[..i]);
    HttpShadows(ctx, before, http[i], raw);
    forall a, s ensures Grows(a, step(a, s)) { HttpGrows(ctx, a, s); }
    FoldShadowed(ctx, step, step(before, http[i]), http[i + 1..], key, raw);
    FoldAt(step, st, http, i);
  }

  /** A peer that a workload reaches over HTTP is never recorded as its database, in whatever order the
      samples come and however the DNS answers change from one query to the next. */
  lemma PhantomRejected(ctx: Context, st: State, http: seq<Sample>, i: nat, db: seq<Sample>, j: nat)
    requires i < |http| && j < |db|
    requires !Client(ctx, http[i]).external && !Client(ctx, db[j]).external
    requires NodeJoinKey(Client(ctx, db[j])) == NodeJoinKey(Client(ctx, http[i]))
    requires Label(http[i].metric, "server_address") != "" && RawHost(db[j]) != ""
    requires CalledOverHTTP(ctx, Fold(HttpStep(ctx), st, http[..i]), http[i], RawHost(db[j]))
    ensures
      var step := DatabaseStep(ctx, Dropped(ctx, db));
      var before := Fold(step, Fold(HttpStep(ctx), st, http), db[..j]);
      var after := step(before, db[j]);
      after.edges == before.edges && after.apps == before.apps
  {
    var dropped, raw := Dropped(ctx, db), RawHost(db[j]);
    var step := DatabaseStep(ctx, dropped);
    ShadowedAfterHttp(ctx, st, http, i, raw);
    forall a, s ensures Grows(a, step(a, s)) { DatabaseGrows(ctx, a, s); }
    var st' := Fold(HttpStep(ctx), st, http);
    FoldShadowed(ctx, step, st', db[..j], NodeJoinKey(Client(ctx, db[j])), raw);
    ShadowedSilences(ctx, Fold(step, st', db[..j]), db[j]);
  }
}
