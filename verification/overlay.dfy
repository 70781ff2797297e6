/** The overlayer itself: query phases that update edges, HTTP peers, DNS caches and applications in place. */
module Overlay {
  import opened Text
  import opened Sequences
  import opened Catalog
  import opened Resolving
  import opened Engines
  import opened OverlaySpec

  class EdgeSet {
    var seen: set<string>
    var list: seq<DependencyEdge>

    ghost predicate Valid() reads this {
      seen == set e | e in list :: EdgeKey(e)
    }

    constructor ()
      ensures Valid() && list == []
    {
      seen, list := {}, [];
    }

    method Add(edge: DependencyEdge)
      requires Valid()
      modifies this
      ensures Valid() && list == AddBy(EdgeKey, old(list), edge)
    {
      var key := EdgeKey(edge);
      if key in seen { return; }
      seen := seen + {key};
      list := list + [edge];
    }
  }

  class ClientPeers {
    var byApp: map<string, set<string>>

    constructor ()
      ensures byApp == map[]
    {
      byApp := map[];
    }

    method Add(appKey: string, host: string)
      modifies this
      ensures byApp == AddPeer(old(byApp), appKey, host)
    {
      if host == "" { return; }
      var hosts := {};
      if appKey in byApp { hosts := byApp[appKey]; }
      byApp := byApp[appKey := hosts + {host}];
    }

    method Has(appKey: string, host: string) returns (found: bool)
      ensures found == HasPeer(Peers(byApp, appKey), host)
    {
      found := host != "" && appKey in byApp && host in byApp[appKey];
    }
  }

  /** The application array, seen as a state together with the other shared objects. */
  ghost function Now(apps: array<ApplicationEntry>, edges: EdgeSet, peers: ClientPeers, o: Overlayer): State
    reads apps, edges, peers, o
  {
    State(apps[..], edges.list, peers.byApp, o.CachesNow())
  }

  method IndexApps(apps: array<ApplicationEntry>) returns (index: map<string, nat>)
    ensures forall key :: Indexed(index, apps[..], key)
  {
    index := map[];
    for i := 0 to apps.Length
      invariant forall key :: Indexed(index, apps[..i], key)
    {
      ghost var before, pre, upTo := index, apps[..i], apps[..i + 1];
      index := index[AppKey(apps[i]) := i];
      assert upTo == pre + [apps[i]];
      forall key ensures Indexed(index, upTo, key) {
        IndexStep(before, pre, apps[i], key);
      }
    }
    assert apps[..apps.Length] == apps[..];
  }

  lemma IndexStep(before: map<string, nat>, pre: seq<ApplicationEntry>, app: ApplicationEntry, key: string)
    requires Indexed(before, pre, key)
    ensures Indexed(before[AppKey(app) := |pre|], pre + [app], key)
  {
  }

  /** Attach an observed database, once per (system, name). */
  method AttachDatabase(apps: array<ApplicationEntry>, i: nat, db: DatabaseRef)
    requires i < apps.Length
    modifies apps
    ensures apps[..] == old(apps[..])[i := AttachTo(old(apps[i]), Database(db))]
  {
    var app := apps[i];
    assert apps[..] == apps[..][i := app];
    if db.system == "" && db.name == "" { return; }
    for k := 0 to |app.databases|
      invariant forall l | 0 <= l < k :: DatabaseKey(app.databases[l]) != DatabaseKey(db)
    {
      if app.databases[k].system == db.system && app.databases[k].name == db.name {
        assert app.databases[k] in app.databases;
        return;
      }
    }
    apps[i] := app.(databases := app.databases + [db]);
  }

  method AttachKafka(apps: array<ApplicationEntry>, i: nat, topic: KafkaTopicRef)
    requires i < apps.Length
    modifies apps
    ensures apps[..] == old(apps[..])[i := AttachTo(old(apps[i]), Topic(topic))]
  {
    var app := apps[i];
    assert apps[..] == apps[..][i := app];
    if topic.name == "" { return; }
    for k := 0 to |app.kafkaTopics|
      invariant forall l | 0 <= l < k :: TopicKey(app.kafkaTopics[l]) != TopicKey(topic)
    {
      if app.kafkaTopics[k].name == topic.name && app.kafkaTopics[k].direction == topic.direction {
        assert app.kafkaTopics[k] in app.kafkaTopics;
        return;
      }
    }
    apps[i] := app.(kafkaTopics := app.kafkaTopics + [topic]);
  }

  /** Record one edge and what it attaches to its source application. */
  method Record(ctx: Context, apps: array<ApplicationEntry>, edges: EdgeSet, edge: DependencyEdge, a: Attachment)
    requires edges.Valid()
    modifies apps, edges
    ensures edges.Valid()
    ensures edges.list == AddBy(EdgeKey, old(edges.list), edge)
    ensures apps[..] == Attach(ctx, old(apps[..]), edge.source, a)
  {
    edges.Add(edge);
    if edge.source.external { return; }
    var key := NodeJoinKey(edge.source);
    if key in ctx.index && ctx.index[key] < apps.Length {
      match a
      case Database(db) => AttachDatabase(apps, ctx.index[key], db);
      case Topic(t) => AttachKafka(apps, ctx.index[key], t);
      case Nothing => assert apps[..][ctx.index[key] := apps[ctx.index[key]]] == apps[..];
    }
  }

  /** The sample lost an engine conflict, or its peer is an OTLP collector. */
  predicate Rejected(ctx: Context, winners: map<string, set<string>>, s: Sample) {
    var key := EngineConflictKey(ctx.res.ResolveClient(s.metric), RawHost(s));
    (Engine(s) != "" && key in winners && Engine(s) !in winners[key]) || OTLPCollectorPeer(RawHost(s))
  }

  /** Traffic and errors charged to the owner of a sample. */
  function Charged(byApp: map<nat, (real, real)>, owner: Option<nat>, s: Sample): map<nat, (real, real)> {
    match owner
    case None => byApp
    case Some(i) =>
      var acc := if i in byApp then byApp[i] else (0.0, 0.0);
      byApp[i := (acc.0 + s.value, if ServerError(s) then acc.1 + s.value else acc.1)]
  }

  ghost predicate Accounted(byApp: map<nat, (real, real)>, owner: Sample -> Option<nat>, samples: seq<Sample>, i: nat) {
    (if i in byApp then byApp[i] else (0.0, 0.0)) == (Sum(Traffic(owner, i), samples), Sum(Errors(owner, i), samples))
  }

  lemma AccountStep(byApp: map<nat, (real, real)>, owner: Sample -> Option<nat>, samples: seq<Sample>, s: Sample,
                    i: nat)
    requires Accounted(byApp, owner, samples, i)
    ensures Accounted(Charged(byApp, owner(s), s), owner, samples + [s], i)
  {
  }

  method SumTraffic(owner: Sample -> Option<nat>, samples: seq<Sample>) returns (byApp: map<nat, (real, real)>)
    ensures forall i: nat :: Accounted(byApp, owner, samples, i)
  {
    byApp := map[];
    for k := 0 to |samples|
      invariant forall i: nat :: Accounted(byApp, owner, samples[..k], i)
    {
      ghost var before, pre, upTo := byApp, samples[..k], samples[..k + 1];
      var s := samples[k];
      byApp := Charged(byApp, owner(s), s);
      assert upTo == pre + [s];
      forall i: nat ensures Accounted(byApp, owner, upTo, i) { AccountStep(before, owner, pre, s, i); }
    }
    assert samples[..|samples|] == samples;
  }

  /** Write the totals into the applications, in whatever order the map yields them. */
  method AssignTraffic(apps: array<ApplicationEntry>, byApp: map<nat, (real, real)>,
                       ghost owner: Sample -> Option<nat>, ghost samples: seq<Sample>)
    requires forall i: nat :: Accounted(byApp, owner, samples, i)
    modifies apps
    ensures forall i | 0 <= i < apps.Length :: apps[i] == WithTraffic(owner, samples, i, old(apps[i]))
  {
    var rest := byApp.Keys;
    forall i | 0 <= i < apps.Length && i !in rest ensures WithTraffic(owner, samples, i, apps[i]) == apps[i] {
      assert Accounted(byApp, owner, samples, i);
    }
    while rest != {}
      invariant rest <= byApp.Keys
      invariant forall i | 0 <= i < apps.Length ::
        apps[i] == if i in rest then old(apps[i]) else WithTraffic(owner, samples, i, old(apps[i]))
    {
      var i :| i in rest;
      assert Accounted(byApp, owner, samples, i);
      var (total, errors) := byApp[i];
      if i < apps.Length && total > 0.0 {
        apps[i] := apps[i].(requestRate := total, errorRate := errors / total);
      }
      rest := rest - {i};
    }
  }

  method FirstUsable(names: seq<string>) returns (name: string)
    ensures name == FirstName(names)
  {
    for k := 0 to |names|
      invariant FirstName(names) == FirstName(names[k..])
    {
      var n := TrimSuffix(TrimSpace(names[k]), ".");
      if n != "" { return n; }
    }
    return "";
  }

  class Overlayer {
    const cluster: string
    const net: Network
    var ptrCache: map<string, string>
    var hostCache: map<string, seq<string>>
    var clock: nat

    ghost function CachesNow(): Caches reads this { Caches(ptrCache, hostCache, clock) }

    constructor (cluster: string, net: Network)
      ensures this.cluster == cluster && this.net == net && CachesNow() == Caches(map[], map[], 0)
    {
      this.cluster, this.net := cluster, net;
      ptrCache, hostCache, clock := map[], map[], 0;
    }

    method ReverseLookup(ip: string) returns (name: string)
      modifies this
      ensures CachesNow() == OverlaySpec.ReverseLookup(net, old(CachesNow()), ip)
      ensures name == CachesNow().ptr[ip]
    {
      if ip in ptrCache { return ptrCache[ip]; }
      name := FirstUsable(net.ptr(clock, ip));
      clock := clock + 1;
      ptrCache := ptrCache[ip := name];
    }

    method ForwardLookup(host: string) returns (ips: seq<string>)
      modifies this
      ensures CachesNow() == OverlaySpec.ForwardLookup(net, old(CachesNow()), host)
      ensures ips == CachesNow().hosts[host]
    {
      if host in hostCache { return hostCache[host]; }
      var addrs := net.forward(clock, host);
      clock := clock + 1;
      ips := [];
      for k := 0 to |addrs|
        invariant ips == UsableIPs(net, addrs[..k])
      {
        assert addrs[..k + 1][..k] == addrs[..k];
        var ip := TrimSpace(addrs[k]);
        if ip != "" && net.isBareIP(ip) { ips := ips + [ip]; }
      }
      assert addrs[..|addrs|] == addrs;
      hostCache := hostCache[host := ips];
    }

    method ExternalHost(host: string) returns (name: string, keep: bool)
      modifies this
      ensures OverlaySpec.ExternalHost(net, old(CachesNow()), host) == PeerName(name, keep, CachesNow())
    {
      if host == "" || !net.isBareIP(host) { return host, host != ""; }
      if net.isPrivateIP(host) { return "", false; }
      name := ReverseLookup(host);
      if name != "" { return name, true; }
      return host, true;
    }

    method ApplyServiceGraphSample(ctx: Context, apps: array<ApplicationEntry>, edges: EdgeSet,
                                   ghost peers: ClientPeers, s: Sample)
      requires edges.Valid()
      modifies apps, edges
      ensures edges.Valid()
      ensures Now(apps, edges, peers, this) ==
              ApplyEffect(ctx, old(Now(apps, edges, peers, this)), ServiceGraphEffect(ctx, s))
    {
      var client, server := Label(s.metric, "client"), Label(s.metric, "server");
      if client == "" || server == "" { return; }
      if EgressBucket(client) || EgressBucket(server) { return; }
      var src := ctx.res.ResolveEndpoint(client, Label(s.metric, "client_k8s_namespace_name")).node;
      var dst := ctx.res.ResolveEndpoint(server, Label(s.metric, "server_k8s_namespace_name"));
      var a := Nothing;
      if dst.kind == KIND_DATABASE {
        a := Database(DatabaseRef(dst.node.service, "", ORIGIN_SERVICE_GRAPH));
      } else if dst.kind == KIND_KAFKA {
        a := Topic(KafkaTopicRef(dst.node.service, "", ORIGIN_SERVICE_GRAPH));
      }
      var details := client + " \U{2192} " + server;
      Record(ctx, apps, edges, DependencyEdge(src, dst.node, EdgeKind(dst.kind), ORIGIN_SERVICE_GRAPH, details), a);
    }

    method ApplyServiceGraph(ctx: Context, apps: array<ApplicationEntry>, edges: EdgeSet, ghost peers: ClientPeers,
                             answer: Option<seq<Sample>>)
      requires edges.Valid()
      modifies apps, edges
      ensures edges.Valid()
      ensures Now(apps, edges, peers, this) ==
              Fold(ServiceGraphStep(ctx), old(Now(apps, edges, peers, this)), Samples(answer))
    {
      match answer {
        case None => return;
        case Some(samples) =>
          for k := 0 to |samples|
            invariant edges.Valid()
            invariant Now(apps, edges, peers, this) ==
                      Fold(ServiceGraphStep(ctx), old(Now(apps, edges, peers, this)), samples[..k])
          {
            assert samples[..k + 1][..k] == samples[..k];
            ApplyServiceGraphSample(ctx, apps, edges, peers, samples[k]);
          }
          assert samples[..|samples|] == samples;
      }
    }

    /** Remember a host that a workload calls over HTTP, and the addresses behind its name. */
    method RememberPeer(ctx: Context, ghost apps: array<ApplicationEntry>, ghost edges: EdgeSet, peers: ClientPeers,
                        key: string, peerHost: string)
      requires ctx.net == net
      modifies this, peers
      ensures Now(apps, edges, peers, this) == RecordPeer(ctx, old(Now(apps, edges, peers, this)), key, peerHost)
    {
      peers.Add(key, peerHost);
      if net.isBareIP(peerHost) { return; }
      ghost var first := peers.byApp;
      var ips := ForwardLookup(peerHost);
      ghost var caches := CachesNow();
      for k := 0 to |ips|
        invariant CachesNow() == caches
        invariant peers.byApp == AddPeers(first, key, ips[..k])
      {
        assert ips[..k + 1][..k] == ips[..k];
        peers.Add(key, ips[k]);
      }
      assert ips[..|ips|] == ips;
    }

    method ApplyHTTPSample(ctx: Context, apps: array<ApplicationEntry>, edges: EdgeSet, peers: ClientPeers, s: Sample)
      requires edges.Valid() && ctx.net == net
      modifies this, apps, edges, peers
      ensures edges.Valid()
      ensures Now(apps, edges, peers, this) == HttpSample(ctx, old(Now(apps, edges, peers, this)), s)
    {
      var addr := Label(s.metric, "server_address");
      var src := ctx.res.ResolveClient(s.metric);
      var host, keep := ExternalHost(StripPort(addr));
      var peerHost := if host != "" then host else StripPort(addr);
      RememberPeer(ctx, apps, edges, peers, NodeJoinKey(src), peerHost);
      if !keep { return; }
      var port := PeerPort(s.metric, addr);
      var dst := ctx.res.Resolve(JoinHostPort(host, port));
      if !dst.node.external { return; }
      var a := Nothing;
      if dst.kind == KIND_DATABASE {
        var engine := WellKnownPort(port);
        if engine == "" { engine := dst.node.service; }
        a := Database(DatabaseRef(engine, host, ORIGIN_METRICS));
      } else if dst.kind == KIND_KAFKA {
        a := Topic(KafkaTopicRef(dst.node.service, "", ORIGIN_METRICS));
      }
      var details := src.service + " \U{2192} " + host;
      Record(ctx, apps, edges, DependencyEdge(src, dst.node, EdgeKind(dst.kind), ORIGIN_METRICS, details), a);
    }

    method ApplyHTTPClient(ctx: Context, apps: array<ApplicationEntry>, edges: EdgeSet, peers: ClientPeers,
                           answer: Option<seq<Sample>>)
      requires edges.Valid() && ctx.net == net
      modifies this, apps, edges, peers
      ensures edges.Valid()
      ensures Now(apps, edges, peers, this) == Fold(HttpStep(ctx), old(Now(apps, edges, peers, this)), Samples(answer))
    {
      match answer {
        case None => return;
        case Some(samples) =>
          for k := 0 to |samples|
            invariant edges.Valid()
            invariant Now(apps, edges, peers, this) ==
                      Fold(HttpStep(ctx), old(Now(apps, edges, peers, this)), samples[..k])
          {
            assert samples[..k + 1][..k] == samples[..k];
            if Label(samples[k].metric, "server_address") == "" { continue; }
            if ctx.res.ResolveClient(samples[k].metric).external { continue; }
            ApplyHTTPSample(ctx, apps, edges, peers, samples[k]);
          }
          assert samples[..|samples|] == samples;
      }
    }

    method ApplyDatabaseSample(ctx: Context, apps: array<ApplicationEntry>, edges: EdgeSet, peers: ClientPeers,
                               s: Sample)
      requires edges.Valid() && ctx.net == net
      modifies this, apps, edges
      ensures edges.Valid()
      ensures Now(apps, edges, peers, this) == DatabaseSample(ctx, old(Now(apps, edges, peers, this)), s)
    {
      var system, dbName, rawHost := InferredEngine(s), Label(s.metric, "db_name"), RawHost(s);
      var host := rawHost;
      var resolved, keep := ExternalHost(host);
      if keep {
        host := resolved;
      } else if dbName == "" && system == "" {
        return;
      }
      var src := ctx.res.ResolveClient(s.metric);
      if !src.external {
        var raw := peers.Has(NodeJoinKey(src), rawHost);
        var named := peers.Has(NodeJoinKey(src), host);
        if raw || named { return; }
      }
      var name := FirstNonEmpty([dbName, host]);
      var target := FirstNonEmpty([host, system]);
      if target == "" { return; }
      Record(ctx, apps, edges, DependencyEdge(src, ExternalNode(target), KIND_DATABASE, ORIGIN_METRICS, dbName),
             Database(DatabaseRef(system, name, ORIGIN_METRICS)));
    }

    method ApplyDatabaseSamples(ctx: Context, apps: array<ApplicationEntry>, edges: EdgeSet, peers: ClientPeers,
                                winners: map<string, set<string>>, samples: seq<Sample>, ghost dropped: Sample -> bool)
      requires edges.Valid() && ctx.net == net
      requires forall s | s in samples :: dropped(s) == Rejected(ctx, winners, s)
      modifies this, apps, edges
      ensures edges.Valid()
      ensures Now(apps, edges, peers, this) ==
              Fold(DatabaseStep(ctx, dropped), old(Now(apps, edges, peers, this)), samples)
    {
      for k := 0 to |samples|
        invariant edges.Valid()
        invariant Now(apps, edges, peers, this) ==
                  Fold(DatabaseStep(ctx, dropped), old(Now(apps, edges, peers, this)), samples[..k])
      {
        assert samples[..k + 1][..k] == samples[..k];
        if Rejected(ctx, winners, samples[k]) { continue; }
        ApplyDatabaseSample(ctx, apps, edges, peers, samples[k]);
      }
      assert samples[..|samples|] == samples;
    }

    method ApplyDatabaseMetrics(ctx: Context, apps: array<ApplicationEntry>, edges: EdgeSet, peers: ClientPeers,
                                answer: Option<seq<Sample>>)
      requires edges.Valid() && ctx.net == net
      modifies this, apps, edges
      ensures edges.Valid()
      ensures
        var db := Samples(answer);
        Now(apps, edges, peers, this) ==
          Fold(DatabaseStep(ctx, Dropped(ctx, db)), old(Now(apps, edges, peers, this)), db)
    {
      match answer {
        case None => return;
        case Some(samples) =>
          var winners := EngineWinners(PeerKey(ctx.res), samples);
          forall s ensures Dropped(ctx, samples)(s) == Rejected(ctx, winners, s) {
            LostIsNotSurviving(winners, PeerKey(ctx.res), samples, s);
          }
          ApplyDatabaseSamples(ctx, apps, edges, peers, winners, samples, Dropped(ctx, samples));
      }
    }

    method ApplyMessagingSample(ctx: Context, apps: array<ApplicationEntry>, edges: EdgeSet, ghost peers: ClientPeers,
                                s: Sample)
      requires edges.Valid()
      modifies apps, edges
      ensures edges.Valid()
      ensures Now(apps, edges, peers, this) ==
              ApplyEffect(ctx, old(Now(apps, edges, peers, this)), MessagingEffect(ctx, s))
    {
      var dest := Label(s.metric, "messaging_destination_name");
      if dest == "" { return; }
      var src := ctx.res.ResolveClient(s.metric);
      Record(ctx, apps, edges, DependencyEdge(src, ExternalNode(dest), KIND_KAFKA, ORIGIN_METRICS, "consume"),
             Topic(KafkaTopicRef(dest, "consume", ORIGIN_METRICS)));
    }

    method ApplyMessagingMetrics(ctx: Context, apps: array<ApplicationEntry>, edges: EdgeSet, ghost peers: ClientPeers,
                                 answer: Option<seq<Sample>>)
      requires edges.Valid()
      modifies apps, edges
      ensures edges.Valid()
      ensures Now(apps, edges, peers, this) ==
              Fold(MessagingStep(ctx), old(Now(apps, edges, peers, this)), Samples(answer))
    {
      match answer {
        case None => return;
        case Some(samples) =>
          for k := 0 to |samples|
            invariant edges.Valid()
            invariant Now(apps, edges, peers, this) ==
                      Fold(MessagingStep(ctx), old(Now(apps, edges, peers, this)), samples[..k])
          {
            assert samples[..k + 1][..k] == samples[..k];
            ApplyMessagingSample(ctx, apps, edges, peers, samples[k]);
          }
          assert samples[..|samples|] == samples;
      }
    }

    method ApplyRuntimeSample(ctx: Context, apps: array<ApplicationEntry>, s: Sample)
      modifies apps
      ensures apps[..] == RuntimeEffect(ctx, old(apps[..]), s)
    {
      var lang := Label(s.metric, "telemetry_sdk_language");
      if lang == "" || lang == "generic" { return; }
      var src := ctx.res.ResolveClient(s.metric);
      if src.external { return; }
      var key := NodeJoinKey(src);
      if key in ctx.index && ctx.index[key] < apps.Length && apps[ctx.index[key]].runtime == "" {
        apps[ctx.index[key]] := apps[ctx.index[key]].(runtime := lang);
      }
    }

    method ApplyRuntimeMetrics(ctx: Context, apps: array<ApplicationEntry>, ghost edges: EdgeSet,
                               ghost peers: ClientPeers, answer: Option<seq<Sample>>)
      modifies apps
      ensures Now(apps, edges, peers, this) ==
              Fold(RuntimeStep(ctx), old(Now(apps, edges, peers, this)), Samples(answer))
    {
      match answer {
        case None => return;
        case Some(samples) =>
          for k := 0 to |samples|
            invariant Now(apps, edges, peers, this) ==
                      Fold(RuntimeStep(ctx), old(Now(apps, edges, peers, this)), samples[..k])
          {
            assert samples[..k + 1][..k] == samples[..k];
            ApplyRuntimeSample(ctx, apps, samples[k]);
          }
          assert samples[..|samples|] == samples;
      }
    }

    method ApplyTrafficMetrics(ctx: Context, apps: array<ApplicationEntry>, ghost edges: EdgeSet,
                               ghost peers: ClientPeers, answer: Option<seq<Sample>>)
      modifies apps
      ensures Now(apps, edges, peers, this) == ApplyTraffic(ctx, old(Now(apps, edges, peers, this)), Samples(answer))
    {
      match answer {
        case None =>
          assert apps[..] == ApplyTraffic(ctx, old(Now(apps, edges, peers, this)), []).apps;
          return;
        case Some(samples) =>
          var byApp := SumTraffic(Attributed(ctx, apps.Length), samples);
          AssignTraffic(apps, byApp, Attributed(ctx, apps.Length), samples);
          assert apps[..] == ApplyTraffic(ctx, old(Now(apps, edges, peers, this)), samples).apps;
      }
    }

    /** Run the six phases over `apps` in place and return the edges found. */
    method Apply(apps: array<ApplicationEntry>, answers: Answers)
      returns (found: seq<DependencyEdge>, ghost ctx: Context)
      modifies this, apps
      ensures ContextOf(ctx, cluster, old(apps[..])) && ctx.net == net
      ensures
        var end := Overlaid(ctx, Start(old(apps[..]), old(CachesNow())), answers);
        apps[..] == end.apps && found == end.edges && CachesNow() == end.caches
    {
      var res := NewResolver(cluster, apps[..]);
      var index := IndexApps(apps);
      var context := Context(res, index, net);
      ctx := context;
      var edges := new EdgeSet();
      var peers := new ClientPeers();
      ApplyServiceGraph(context, apps, edges, peers, answers.serviceGraph);
      ApplyHTTPClient(context, apps, edges, peers, answers.httpClient);
      ApplyDatabaseMetrics(context, apps, edges, peers, answers.database);
      ApplyMessagingMetrics(context, apps, edges, peers, answers.messaging);
      ApplyRuntimeMetrics(context, apps, edges, peers, answers.runtime);
      ApplyTrafficMetrics(context, apps, edges, peers, answers.traffic);
      found := edges.list;
    }
  }

  lemma LostIsNotSurviving(winners: map<string, set<string>>, peer: Sample -> string, samples: seq<Sample>, s: Sample)
    requires IsWinners(winners, peer, samples)
    ensures Engine(s) != "" && peer(s) in winners && Engine(s) !in winners[peer(s)] <==> !Survives(peer, samples, s)
  {
  }
}
