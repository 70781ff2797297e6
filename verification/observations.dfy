/** What a telemetry run records, read off the labels of its samples: the edges, databases and topics of the result are
    exactly those that the samples report, in order, first occurrences by key. */
module Observations {
  import opened Text
  import opened Sequences
  import opened Catalog
  import opened Resolving
  import opened Identities
  import opened Engines
  import opened OverlaySpec
  import opened OverlayIntegrity

  // --------------------------------------------------------------- what reports leave behind

  function EdgesIn(reports: seq<Effect>): seq<DependencyEdge> {
    if reports == [] then []
    else
      var last := reports[|reports| - 1];
      EdgesIn(reports[..|reports| - 1]) + (if last.Emit? then [last.edge] else [])
  }

  /** The report is about application number `i`: its edge starts at the node the index leads there from. */
  predicate About(ctx: Context, report: Effect, i: nat) {
    report.Emit? && !report.edge.source.external &&
    var key := report.edge.source.namespace + "/" + report.edge.source.service;
    key in ctx.index && ctx.index[key] == i
  }

  /** The databases reported for an application; one with neither system nor name is none. */
  function DatabasesIn(ctx: Context, reports: seq<Effect>, i: nat): seq<DatabaseRef> {
    if reports == [] then []
    else
      var last := reports[|reports| - 1];
      DatabasesIn(ctx, reports[..|reports| - 1], i) +
        (if About(ctx, last, i) && last.attach.Database? && (last.attach.db.system != "" || last.attach.db.name != "")
         then [last.attach.db] else [])
  }

  function TopicsIn(ctx: Context, reports: seq<Effect>, i: nat): seq<KafkaTopicRef> {
    if reports == [] then []
    else
      var last := reports[|reports| - 1];
      TopicsIn(ctx, reports[..|reports| - 1], i) +
        (if About(ctx, last, i) && last.attach.Topic? && last.attach.topic.name != "" then [last.attach.topic] else [])
  }

  ghost predicate AppLeft(ctx: Context, was: ApplicationEntry, now: ApplicationEntry, reports: seq<Effect>, i: nat) {
    && now.databases == AddAllBy(DatabaseKey, was.databases, DatabasesIn(ctx, reports, i))
    && now.kafkaTopics == AddAllBy(TopicKey, was.kafkaTopics, TopicsIn(ctx, reports, i))
  }

  /** The reports, and nothing else, turned `was` into `now`. */
  ghost predicate Left(ctx: Context, was: State, now: State, reports: seq<Effect>) {
    && now.edges == AddAllBy(EdgeKey, was.edges, EdgesIn(reports))
    && |now.apps| == |was.apps|
    && forall i: nat {:trigger now.apps[i]} | i < |was.apps| :: AppLeft(ctx, was.apps[i], now.apps[i], reports, i)
  }

  lemma EdgesSnoc(reports: seq<Effect>, r: Effect)
    ensures EdgesIn(reports + [r]) == EdgesIn(reports) + (if r.Emit? then [r.edge] else [])
  {
  }

  lemma AddAllSnoc<T, K>(key: T -> K, s: seq<T>, xs: seq<T>, x: T)
    ensures AddAllBy(key, s, xs + [x]) == AddBy(key, AddAllBy(key, s, xs), x)
  {
  }

  lemma AppSnoc(ctx: Context, was: ApplicationEntry, now: ApplicationEntry, reports: seq<Effect>, r: Effect, i: nat)
    requires AppLeft(ctx, was, now, reports, i)
    ensures AppLeft(ctx, was, if About(ctx, r, i) then AttachTo(now, r.attach) else now, reports + [r], i)
  {
    assert (reports + [r])[..|reports|] == reports;
    var dbs, topics := DatabasesIn(ctx, reports, i), TopicsIn(ctx, reports, i);
    assert dbs + [] == dbs && topics + [] == topics;
    if About(ctx, r, i) {
      match r.attach
      case Nothing =>
      case Database(db) => AddAllSnoc(DatabaseKey, was.databases, dbs, db);
      case Topic(t) => AddAllSnoc(TopicKey, was.kafkaTopics, topics, t);
    }
  }

  /** The step leaves the edges and applications that the sample reports. */
  ghost predicate Does(ctx: Context, before: State, report: Effect, after: State) {
    after.edges == ApplyEffect(ctx, before, report).edges && after.apps == ApplyEffect(ctx, before, report).apps
  }

  lemma LeftSnoc(ctx: Context, was: State, mid: State, reports: seq<Effect>, r: Effect, now: State)
    requires Left(ctx, was, mid, reports)
    requires Does(ctx, mid, r, now)
    ensures Left(ctx, was, now, reports + [r])
  {
    EdgesSnoc(reports, r);
    assert EdgesIn(reports) + [] == EdgesIn(reports);
    if r.Emit? { AddAllSnoc(EdgeKey, was.edges, EdgesIn(reports), r.edge); }
    forall i: nat | i < |was.apps| ensures AppLeft(ctx, was.apps[i], now.apps[i], reports + [r], i) {
      assert AppLeft(ctx, was.apps[i], mid.apps[i], reports, i);
      AppSnoc(ctx, was.apps[i], mid.apps[i], reports, r, i);
    }
  }

  /** A phase whose every step does what its sample reports. */
  lemma {:induction false} PhaseLeaves(ctx: Context, step: (State, Sample) -> State, was: State, samples: seq<Sample>,
                                       says: Sample -> Effect)
    requires forall k | 0 <= k < |samples| ::
               var before :=
                 Fold(step, was, samples[..k]); Does(ctx, before, says(samples[k]), step(before, samples[k]))
    ensures Left(ctx, was, Fold(step, was, samples), Map(says, samples))
  {
    if samples != [] {
      var n := |samples| - 1;
      forall k | 0 <= k < n ensures samples[..n][..k] == samples[..k] && samples[..n][k] == samples[k] {}
      PhaseLeaves(ctx, step, was, samples[..n], says);
      LeftSnoc(ctx, was, Fold(step, was, samples[..n]), Map(says, samples[..n]), says(samples[n]),
               Fold(step, was, samples));
    }
  }

  // ------------------------------------------------------------------ reading a sample

  function EngineLabel(m: map<string, string>): string {
    if Label(m, "db_system_name") != "" then Label(m, "db_system_name") else Label(m, "db_system")
  }

  function Address(m: map<string, string>): HostPort { SplitHostPort(Label(m, "server_address")) }

  function PortLabel(m: map<string, string>): string {
    if Label(m, "server_port") != "" then Label(m, "server_port") else Address(m).port
  }

  /** The engine label, else the database system that the port stands for. */
  function SystemOf(m: map<string, string>): string {
    if EngineLabel(m) != "" then EngineLabel(m) else Label(DATABASE_PORTS, PortLabel(m))
  }

  /** An address on the public internet, for which reverse DNS may have a name. */
  predicate Public(net: Network, raw: string) { raw != "" && net.isBareIP(raw) && !net.isPrivateIP(raw) }

  /** Nothing that could be shown: no address, or a private one. */
  predicate Unshown(net: Network, raw: string) { raw == "" || (net.isBareIP(raw) && net.isPrivateIP(raw)) }

  /** The name by which a peer is shown, given the reverse lookups that were made. */
  function Shown(net: Network, ptr: map<string, string>, raw: string): string {
    if Public(net, raw) && Label(ptr, raw) != "" then Label(ptr, raw) else raw
  }

  // -------------------------------------------------------------- what a sample reports

  function ServiceOr(kind: string): string { if kind == "database" || kind == "kafka" then kind else "service" }

  /** No name, or a bucket for calls that were not attributed. */
  predicate Unnamed(end: string) { end == "" || end == "outgoing" || end == "incoming" }

  /** A called database or topic; anything else is just called. */
  function Uses(kind: string, db: DatabaseRef, topic: KafkaTopicRef): Attachment {
    if kind == "database" then Database(db) else if kind == "kafka" then Topic(topic) else Nothing
  }

  /** A service graph sample: a call between its two named ends, and a database or topic when that is what is called. */
  function GraphSays(ctx: Context): Sample -> Effect {
    (s: Sample) =>
      var client, server := Label(s.metric, "client"), Label(s.metric, "server");
      if Unnamed(client) || Unnamed(server) then Silent
      else
        var called := ctx.res.ResolveEndpoint(server, Label(s.metric, "server_k8s_namespace_name"));
        Emit(DependencyEdge(ctx.res.ResolveEndpoint(client, Label(s.metric, "client_k8s_namespace_name")).node,
                            called.node, ServiceOr(called.kind), "otel-servicegraph", client + " \U{2192} " + server),
             Uses(called.kind, DatabaseRef(called.node.service, "", "otel-servicegraph"),
                  KafkaTopicRef(called.node.service, "", "otel-servicegraph")))
  }

  lemma GraphReports(ctx: Context, s: Sample)
    ensures ServiceGraphEffect(ctx, s) == GraphSays(ctx)(s)
  {
    var server, namespace := Label(s.metric, "server"), Label(s.metric, "server_k8s_namespace_name");
    KindsOfNodes(ctx.res, server, namespace);
    KindShown(ctx.res.ResolveEndpoint(server, namespace).kind);
  }

  lemma KindShown(kind: string)
    requires kind in {"service", "database", "kafka", "external"}
    ensures EdgeKind(kind) == ServiceOr(kind)
  {
  }

  lemma KindsOfNodes(r: Resolver, name: string, namespace: string)
    ensures r.ResolveEndpoint(name, namespace).kind in {"service", "database", "kafka", "external"}
    ensures r.Resolve(name).kind in {"service", "database", "kafka", "external"}
  {
    ClassifiedKind(SplitHostPort(TrimSpace(name)));
  }

  lemma ClassifiedKind(hp: HostPort)
    ensures Resolver.Classify(hp).kind in {"database", "kafka", "external"}
  {
  }

  /** An HTTP sample of a workload of the catalog: a call to a shown peer outside the cluster. */
  function HttpSays(ctx: Context, ptr: map<string, string>): Sample -> Effect {
    (s: Sample) =>
      var m, client := s.metric, ctx.res.ResolveClient(s.metric);
      var raw := Address(m).host;
      var host := Shown(ctx.net, ptr, raw);
      var called := ctx.res.Resolve(JoinHostPort(host, PortLabel(m)));
      if Label(m, "server_address") == "" || client.external || Unshown(ctx.net, raw) ||
        !called.node.external then Silent
      else
        Emit(DependencyEdge(client, called.node, ServiceOr(called.kind), "otel-metrics",
                            client.service + " \U{2192} " + host),
             var system := Label(DATABASE_PORTS + QUEUE_PORTS, PortLabel(m));
             Uses(called.kind, DatabaseRef(if system != "" then system else called.node.service, host, "otel-metrics"),
                  KafkaTopicRef(called.node.service, "", "otel-metrics")))
  }

  /** Both caches keep what they have. */
  ghost predicate Pinned(c: Caches, d: Caches) {
    && (forall ip | ip in c.ptr :: ip in d.ptr && d.ptr[ip] == c.ptr[ip])
    && (forall h | h in c.hosts :: h in d.hosts && d.hosts[h] == c.hosts[h])
  }

  /** What a peer is shown as can be read off any later cache. */
  lemma ShownLater(net: Network, c: Caches, raw: string, d: Caches)
    requires Pinned(ExternalHost(net, c, raw).caches, d)
    ensures ExternalHost(net, c, raw).keep <==> !Unshown(net, raw)
    ensures ExternalHost(net, c, raw).keep ==> ExternalHost(net, c, raw).host == Shown(net, d.ptr, raw)
    ensures !ExternalHost(net, c, raw).keep ==> ExternalHost(net, c, raw).host == "" && Shown(net, d.ptr, raw) == raw
  {
  }

  lemma HttpReports(ctx: Context, c: Caches, s: Sample, d: Caches)
    requires Pinned(ExternalHost(ctx.net, c, RawHost(s)).caches, d)
    requires Label(s.metric, "server_address") != "" && !Client(ctx, s).external
    ensures var peer := ExternalHost(ctx.net, c, RawHost(s));
            HttpEffect(ctx, s, peer.host, peer.keep) == HttpSays(ctx, d.ptr)(s)
  {
    ShownLater(ctx.net, c, RawHost(s), d);
    var address := JoinHostPort(Shown(ctx.net, d.ptr, RawHost(s)), PortLabel(s.metric));
    KindsOfNodes(ctx.res, address, "");
    KindShown(ctx.res.Resolve(address).kind);
    KnownPort(PortLabel(s.metric));
  }

  const COLLECTORS := {
    "otel-collector", "otel-collector-service", "opentelemetry-collector", "opentelemetry-collector-service"}

  /** An OpenTelemetry collector: one of four service names in any letter case, bare or followed by a domain. */
  predicate Collector(raw: string) {
    exists name | name in COLLECTORS :: ToLower(raw) == name || name + "." <= ToLower(raw)
  }

  /** Two samples of one client workload and one peer address. */
  predicate SamePeer(ctx: Context, s: Sample, t: Sample) {
    var a, b := ctx.res.ResolveClient(s.metric), ctx.res.ResolveClient(t.metric);
    a.namespace + "/" + a.service + "\0" + Address(s.metric).host ==
      b.namespace + "/" + b.service + "\0" + Address(t.metric).host
  }

  /** The traffic of one engine on the peer of `s`. */
  function Carried(ctx: Context, s: Sample, engine: string): Sample -> real {
    (t: Sample) => if SamePeer(ctx, s, t) && EngineLabel(t.metric) == engine then t.value else 0.0
  }

  /** Another engine is reported for the peer of the sample, and its own either carries less than one of them or less
      than nothing. */
  function Outdone(ctx: Context, all: seq<Sample>): Sample -> bool {
    (s: Sample) =>
      var own := EngineLabel(s.metric);
      && own != ""
      && (exists t | t in all :: SamePeer(ctx, s, t) && EngineLabel(t.metric) !in {"", own})
      && (Sum(Carried(ctx, s, own), all) < 0.0 ||
          exists t | t in all ::
            SamePeer(ctx, s, t) && EngineLabel(t.metric) != "" &&
            Sum(Carried(ctx, s, own), all) < Sum(Carried(ctx, s, EngineLabel(t.metric)), all))
  }

  /** A call of `client` to the peer at `raw`, shown as `host`; `hidden` when the peer is known by neither. */
  function DatabaseCall(client: DependencyNode, raw: string, host: string, hidden: bool, system: string, name: string,
                        http: set<string>): Effect {
    if !client.external && ((raw != "" && raw in http) || (host != "" && host in http)) then Silent
    else if (hidden && name == "" && system == "") || (host == "" && system == "") then Silent
    else
      Emit(DependencyEdge(client, DependencyNode("", "", if host != "" then host else system, true), "database",
                          "otel-metrics", name),
           Database(DatabaseRef(system, if name != "" then name else host, "otel-metrics")))
  }

  /** A database sample: the peer that was called, under the system its engine label or port tells, unless the peer is
      a collector or one that the workload calls over HTTP, or the engine lost a conflict. */
  function DatabaseSays(ctx: Context, peers: map<string, set<string>>, ptr: map<string, string>,
                        all: seq<Sample>): Sample -> Effect {
    (s: Sample) =>
      var client, raw := ctx.res.ResolveClient(s.metric), Address(s.metric).host;
      if Outdone(ctx, all)(s) || Collector(raw) then Silent
      else
        DatabaseCall(client, raw, Shown(ctx.net, ptr, raw), Unshown(ctx.net, raw), SystemOf(s.metric),
                     Label(s.metric, "db_name"), Peers(peers, client.namespace + "/" + client.service))
  }

  lemma LowerAt(s: string, i: nat)
    requires i <= |s|
    ensures ToLower(s[..i]) == ToLower(s)[..i] && (i < |s| ==> (ToLower(s)[i] == '.' <==> s[i] == '.'))
  {
  }

  lemma CollectorNamed(raw: string, name: string)
    requires '.' !in name
    ensures ToLower(raw[..IndexOf(raw, '.')]) == name <==> ToLower(raw) == name || name + "." <= ToLower(raw)
  {
    var i, low := IndexOf(raw, '.'), ToLower(raw);
    LowerAt(raw, i);
    assert low[..|raw|] == low;
    if name + "." <= low {
      LowerAt(raw, |name|);
      assert low[|name|] == (name + ".")[|name|] == '.';
      assert low[..|name|] == name;
      forall k: nat | k < |name| ensures raw[k] != '.' { LowerAt(raw, k); assert low[k] == name[k]; }
      assert i == |name| by { FirstDot(raw, |name|); }
    } else if low == name {
      forall k: nat | k < |raw| ensures raw[k] != '.' { LowerAt(raw, k); assert low[k] == name[k]; }
      FirstDot(raw, |raw|);
    }
  }

  lemma FirstDot(s: string, n: nat)
    requires n <= |s| && (forall k: nat | k < n :: s[k] != '.') && (n < |s| ==> s[n] == '.')
    ensures IndexOf(s, '.') == n
  {
    var i := IndexOf(s, '.');
    assert forall k | 0 <= k < i :: s[..i][k] == s[k];
  }

  lemma CollectorExact(raw: string)
    ensures OTLPCollectorPeer(raw) <==> Collector(raw)
  {
    CollectorNames(ToLower(raw[..IndexOf(raw, '.')]));
    AnyNamed(raw, COLLECTORS);
  }

  lemma CollectorNames(word: string)
    ensures word in COLLECTORS <==>
            word in {"otel-collector", "otel-collector-service", "opentelemetry-collector",
                      "opentelemetry-collector-service"}
    ensures forall name | name in COLLECTORS :: '.' !in name
  {
  }

  lemma AnyNamed(raw: string, names: set<string>)
    requires forall name | name in names :: '.' !in name
    ensures ToLower(raw[..IndexOf(raw, '.')]) in names <==>
            exists name | name in names :: ToLower(raw) == name || name + "." <= ToLower(raw)
  {
    forall name | name in names
      ensures ToLower(raw[..IndexOf(raw, '.')]) == name <==> ToLower(raw) == name || name + "." <= ToLower(raw)
    {
      CollectorNamed(raw, name);
    }
  }

  lemma FirstOfTwo(a: string, b: string)
    ensures FirstNonEmpty([a, b]) == if a != "" then a else b
  {
    assert [a, b][1..] == [b] && [b][1..] == [];
  }

  lemma EngineRead(s: Sample)
    ensures Engine(s) == EngineLabel(s.metric) && RawHost(s) == Address(s.metric).host
  {
    FirstOfTwo(Label(s.metric, "db_system_name"), Label(s.metric, "db_system"));
  }

  lemma CarriedIsRate(ctx: Context, s: Sample, engine: string, all: seq<Sample>)
    ensures Sum(Carried(ctx, s, engine), all) == Total(PeerKey(ctx.res), all, PeerKey(ctx.res)(s), engine)
  {
    var f, g := Carried(ctx, s, engine), Rate(PeerKey(ctx.res), PeerKey(ctx.res)(s), engine);
    forall t ensures f(t) == g(t) + 0.0 { EngineRead(t); SamePeerKey(ctx, s, t); }
    SumAdd(f, g, (t: Sample) => 0.0, all);
    SumNothing(all);
  }

  lemma {:induction false} SumNothing(all: seq<Sample>)
    ensures Sum((t: Sample) => 0.0, all) == 0.0
  {
    if all != [] { SumNothing(all[..|all| - 1]); }
  }

  lemma SamePeerKey(ctx: Context, s: Sample, t: Sample)
    ensures SamePeer(ctx, s, t) <==> PeerKey(ctx.res)(s) == PeerKey(ctx.res)(t)
  {
  }

  lemma TwoOf(engines: set<string>, own: string)
    requires own in engines
    ensures |engines| >= 2 <==> exists e :: e in engines && e != own
  {
    var others := engines - {own};
    assert engines == others + {own} && |engines| == |others| + 1;
    if |others| > 0 {
      var e :| e in others;
      assert e in engines && e != own;
    }
  }

  /** The engines of a peer are those that its samples are labelled with. */
  lemma RivalIn(ctx: Context, all: seq<Sample>, s: Sample)
    ensures forall e :: e in EnginesOf(PeerKey(ctx.res), all, PeerKey(ctx.res)(s)) <==>
                        exists t :: t in all && NextTo(ctx, s)(t) && EngineLabel(t.metric) == e && e != ""
  {
    forall t
      ensures Engine(t) == EngineLabel(t.metric) &&
              (SamePeer(ctx, s, t) <==> PeerKey(ctx.res)(s) == PeerKey(ctx.res)(t))
    {
      EngineRead(t);
      SamePeerKey(ctx, s, t);
    }
  }

  lemma OutdoneBy(ctx: Context, all: seq<Sample>, s: Sample)
    requires s in all && EngineLabel(s.metric) != ""
    ensures Dominant(PeerKey(ctx.res), all, PeerKey(ctx.res)(s), EngineLabel(s.metric)) <==>
            !(Sum(Carried(ctx, s, EngineLabel(s.metric)), all) < 0.0 ||
              exists t :: t in all && SamePeer(ctx, s, t) && EngineLabel(t.metric) != "" &&
                Sum(Carried(ctx, s, EngineLabel(s.metric)), all) < Sum(Carried(ctx, s, EngineLabel(t.metric)), all))
  {
    var peer, own := PeerKey(ctx.res), EngineLabel(s.metric);
    RivalIn(ctx, all, s);
    assert SamePeer(ctx, s, s);
    BeatenAmong(EnginesOf(peer, all, peer(s)), all, NextTo(ctx, s), own, TotalOf(peer, all, peer(s)));
    CarriedIsRate(ctx, s, own, all);
    forall t: Sample { CarriedIsRate(ctx, s, EngineLabel(t.metric), all); }
  }

  lemma BeatenAmong(engines: set<string>, all: seq<Sample>, near: Sample -> bool, own: string, weight: string -> real)
    requires forall e :: e in engines <==> exists t :: t in all && near(t) && EngineLabel(t.metric) == e && e != ""
    ensures (forall e | e in engines :: weight(e) <= weight(own)) <==>
            !(exists t ::
              t in all && near(t) && EngineLabel(t.metric) != "" && weight(own) < weight(EngineLabel(t.metric)))
  {
  }

  /** Losing an engine conflict, over labels and sums of values. */
  lemma OutdoneExact(ctx: Context, all: seq<Sample>, s: Sample)
    requires s in all
    ensures Survives(PeerKey(ctx.res), all, s) <==> !Outdone(ctx, all)(s)
  {
    EngineRead(s);
    if EngineLabel(s.metric) != "" {
      RivalBy(ctx, all, s);
      OutdoneBy(ctx, all, s);
    }
  }

  lemma RivalBy(ctx: Context, all: seq<Sample>, s: Sample)
    requires s in all && EngineLabel(s.metric) != ""
    ensures Conflicted(PeerKey(ctx.res), all, PeerKey(ctx.res)(s)) <==>
            exists t :: t in all && SamePeer(ctx, s, t) && EngineLabel(t.metric) !in {"", EngineLabel(s.metric)}
  {
    RivalIn(ctx, all, s);
    assert SamePeer(ctx, s, s);
    RivalAmong(EnginesOf(PeerKey(ctx.res), all, PeerKey(ctx.res)(s)), all, NextTo(ctx, s), EngineLabel(s.metric));
  }

  function NextTo(ctx: Context, s: Sample): Sample -> bool { (t: Sample) => SamePeer(ctx, s, t) }

  lemma RivalAmong(engines: set<string>, all: seq<Sample>, near: Sample -> bool, own: string)
    requires forall e :: e in engines <==> exists t :: t in all && near(t) && EngineLabel(t.metric) == e && e != ""
    requires own in engines
    ensures |engines| >= 2 <==> exists t :: t in all && near(t) && EngineLabel(t.metric) !in {"", own}
  {
    TwoOf(engines, own);
    if t :| t in all && near(t) && EngineLabel(t.metric) !in {"", own} { assert EngineLabel(t.metric) in engines; }
  }

  lemma SystemRead(s: Sample)
    ensures InferredEngine(s) == SystemOf(s.metric)
  {
    EngineRead(s);
    DatabasePort(PortLabel(s.metric));
  }

  lemma DatabaseCalled(ctx: Context, http: set<string>, s: Sample, resolved: string, keep: bool)
    ensures
      var raw := RawHost(s);
      DatabaseEffect(ctx, http, s, resolved, keep) ==
      DatabaseCall(Client(ctx, s), raw, if keep then resolved else raw, !keep, InferredEngine(s),
                   Label(s.metric, "db_name"), http)
  {
    var host := if keep then resolved else RawHost(s);
    FirstOfTwo(host, InferredEngine(s));
    FirstOfTwo(Label(s.metric, "db_name"), host);
  }

  lemma DatabaseReports(ctx: Context, peers: map<string, set<string>>, c: Caches, all: seq<Sample>, s: Sample,
                        d: Caches)
    requires s in all && Pinned(ExternalHost(ctx.net, c, RawHost(s)).caches, d) && !Dropped(ctx, all)(s)
    ensures var peer := ExternalHost(ctx.net, c, RawHost(s));
            DatabaseEffect(ctx, Peers(peers, NodeJoinKey(Client(ctx, s))), s, peer.host, peer.keep) ==
            DatabaseSays(ctx, peers, d.ptr, all)(s)
  {
    var peer, http := ExternalHost(ctx.net, c, RawHost(s)), Peers(peers, NodeJoinKey(Client(ctx, s)));
    ShownLater(ctx.net, c, RawHost(s), d);
    DatabaseCalled(ctx, http, s, peer.host, peer.keep);
    SystemRead(s);
    OutdoneExact(ctx, all, s);
    CollectorExact(RawHost(s));
  }

  lemma DroppedSilent(ctx: Context, peers: map<string, set<string>>, ptr: map<string, string>, all: seq<Sample>,
                      s: Sample)
    requires s in all && Dropped(ctx, all)(s)
    ensures DatabaseSays(ctx, peers, ptr, all)(s).Silent?
  {
    OutdoneExact(ctx, all, s);
    CollectorExact(RawHost(s));
  }

  function MessagingSays(ctx: Context): Sample -> Effect {
    (s: Sample) =>
      var topic := Label(s.metric, "messaging_destination_name");
      if topic == "" then Silent
      else
        Emit(DependencyEdge(ctx.res.ResolveClient(s.metric), DependencyNode("", "", topic, true), "kafka",
                            "otel-metrics", "consume"),
             Topic(KafkaTopicRef(topic, "consume", "otel-metrics")))
  }

  lemma MessagingReports(ctx: Context, s: Sample)
    ensures MessagingEffect(ctx, s) == MessagingSays(ctx)(s)
  {
  }

  // -------------------------------------------------------------------- phase by phase

  lemma {:induction false} FoldPinned(step: (State, Sample) -> State, st: State, samples: seq<Sample>, k: nat)
    requires k <= |samples| && forall a: State, s :: Pinned(a.caches, step(a, s).caches)
    ensures Pinned(Fold(step, st, samples[..k]).caches, Fold(step, st, samples).caches)
    decreases |samples| - k
  {
    if k == |samples| {
      assert samples[..k] == samples;
    } else {
      FoldPinned(step, st, samples, k + 1);
      assert samples[..k + 1][..k] == samples[..k];
      var before := Fold(step, st, samples[..k]);
      assert Pinned(before.caches, step(before, samples[k]).caches);
    }
  }

  lemma RecordPins(ctx: Context, st: State, key: string, peerHost: string)
    ensures Pinned(st.caches, RecordPeer(ctx, st, key, peerHost).caches)
  {
  }

  lemma LookupPins(net: Network, c: Caches, raw: string)
    ensures Pinned(c, ExternalHost(net, c, raw).caches)
  {
  }

  lemma HttpPins(ctx: Context, st: State, s: Sample)
    ensures Pinned(st.caches, HttpSample(ctx, st, s).caches)
    ensures Pinned(ExternalHost(ctx.net, st.caches, RawHost(s)).caches, HttpSample(ctx, st, s).caches)
  {
    var peer := ExternalHost(ctx.net, st.caches, RawHost(s));
    var key, name, mid := NodeJoinKey(Client(ctx, s)), HttpPeerHost(s, peer.host), st.(caches := peer.caches);
    LookupPins(ctx.net, st.caches, RawHost(s));
    RecordPins(ctx, mid, key, name);
    EffectGrows(ctx, RecordPeer(ctx, mid, key, name), HttpEffect(ctx, s, peer.host, peer.keep));
  }

  lemma DatabasePins(ctx: Context, st: State, s: Sample)
    ensures Pinned(st.caches, DatabaseSample(ctx, st, s).caches)
    ensures DatabaseSample(ctx, st, s).caches == ExternalHost(ctx.net, st.caches, RawHost(s)).caches
    ensures DatabaseSample(ctx, st, s).peers == st.peers
  {
    var peer := ExternalHost(ctx.net, st.caches, RawHost(s));
    LookupPins(ctx.net, st.caches, RawHost(s));
    EffectGrows(ctx, st.(caches := peer.caches),
                DatabaseEffect(ctx, Peers(st.peers, NodeJoinKey(Client(ctx, s))), s, peer.host, peer.keep));
  }

  lemma PinnedTransitive(a: Caches, b: Caches, c: Caches)
    requires Pinned(a, b) && Pinned(b, c)
    ensures Pinned(a, c)
  {
  }

  lemma HttpDoes(ctx: Context, st: State, s: Sample, d: Caches)
    requires Pinned(HttpStep(ctx)(st, s).caches, d)
    ensures Does(ctx, st, HttpSays(ctx, d.ptr)(s), HttpStep(ctx)(st, s))
  {
    if Label(s.metric, "server_address") != "" && !Client(ctx, s).external {
      HttpPins(ctx, st, s);
      var peer := ExternalHost(ctx.net, st.caches, RawHost(s));
      PinnedTransitive(peer.caches, HttpSample(ctx, st, s).caches, d);
      HttpReports(ctx, st.caches, s, d);
    }
  }

  lemma DatabaseDoes(ctx: Context, st: State, all: seq<Sample>, s: Sample, d: Caches)
    requires s in all && Pinned(DatabaseStep(ctx, Dropped(ctx, all))(st, s).caches, d)
    ensures Does(ctx, st, DatabaseSays(ctx, st.peers, d.ptr, all)(s), DatabaseStep(ctx, Dropped(ctx, all))(st, s))
  {
    if Dropped(ctx, all)(s) {
      DroppedSilent(ctx, st.peers, d.ptr, all, s);
    } else {
      DatabasePins(ctx, st, s);
      DatabaseReports(ctx, st.peers, st.caches, all, s, d);
    }
  }

  lemma GraphObserved(ctx: Context, st: State, samples: seq<Sample>)
    ensures Left(ctx, st, Fold(ServiceGraphStep(ctx), st, samples), Map(GraphSays(ctx), samples))
  {
    var step := ServiceGraphStep(ctx);
    forall k | 0 <= k < |samples|
      ensures var before := Fold(step, st, samples[..k]);
              Does(ctx, before, GraphSays(ctx)(samples[k]), step(before, samples[k]))
    {
      GraphReports(ctx, samples[k]);
    }
    PhaseLeaves(ctx, step, st, samples, GraphSays(ctx));
  }

  lemma MessagingObserved(ctx: Context, st: State, samples: seq<Sample>)
    ensures Left(ctx, st, Fold(MessagingStep(ctx), st, samples), Map(MessagingSays(ctx), samples))
  {
    var step := MessagingStep(ctx);
    forall k | 0 <= k < |samples|
      ensures var before := Fold(step, st, samples[..k]);
              Does(ctx, before, MessagingSays(ctx)(samples[k]), step(before, samples[k]))
    {
      MessagingReports(ctx, samples[k]);
    }
    PhaseLeaves(ctx, step, st, samples, MessagingSays(ctx));
  }

  /** What a step pins stays pinned to the end of its phase. */
  lemma PinnedToEnd(step: (State, Sample) -> State, st: State, samples: seq<Sample>, k: nat, d: Caches)
    requires k < |samples| && forall a: State, s :: Pinned(a.caches, step(a, s).caches)
    requires Pinned(Fold(step, st, samples).caches, d)
    ensures Pinned(step(Fold(step, st, samples[..k]), samples[k]).caches, d)
  {
    FoldPinned(step, st, samples, k + 1);
    assert samples[..k + 1][..k] == samples[..k];
    PinnedTransitive(Fold(step, st, samples[..k + 1]).caches, Fold(step, st, samples).caches, d);
  }

  /** The HTTP phase, read with any later reverse lookups. */
  lemma HttpObserved(ctx: Context, st: State, samples: seq<Sample>, d: Caches)
    requires Pinned(Fold(HttpStep(ctx), st, samples).caches, d)
    ensures Left(ctx, st, Fold(HttpStep(ctx), st, samples), Map(HttpSays(ctx, d.ptr), samples))
  {
    var step, says := HttpStep(ctx), HttpSays(ctx, d.ptr);
    forall a: State, s ensures Pinned(a.caches, step(a, s).caches) { HttpPins(ctx, a, s); }
    forall k | 0 <= k < |samples|
      ensures var before := Fold(step, st, samples[..k]); Does(ctx, before, says(samples[k]), step(before, samples[k]))
    {
      PinnedToEnd(step, st, samples, k, d);
      HttpDoes(ctx, Fold(step, st, samples[..k]), samples[k], d);
    }
    PhaseLeaves(ctx, step, st, samples, says);
  }

  lemma DatabaseStepKeeps(ctx: Context, dropped: Sample -> bool, st: State, s: Sample)
    ensures Pinned(st.caches, DatabaseStep(ctx, dropped)(st, s).caches)
    ensures DatabaseStep(ctx, dropped)(st, s).peers == st.peers
  {
    DatabasePins(ctx, st, s);
  }

  lemma {:induction false} DatabaseKeepsPeers(ctx: Context, dropped: Sample -> bool, st: State, samples: seq<Sample>)
    ensures Fold(DatabaseStep(ctx, dropped), st, samples).peers == st.peers
  {
    if samples != [] {
      var n := |samples| - 1;
      DatabaseKeepsPeers(ctx, dropped, st, samples[..n]);
      DatabaseStepKeeps(ctx, dropped, Fold(DatabaseStep(ctx, dropped), st, samples[..n]), samples[n]);
    }
  }

  lemma DatabasePinsToEnd(ctx: Context, st: State, all: seq<Sample>, k: nat, d: Caches)
    requires k < |all| && Pinned(Fold(DatabaseStep(ctx, Dropped(ctx, all)), st, all).caches, d)
    ensures var step := DatabaseStep(ctx, Dropped(ctx, all));
            Pinned(step(Fold(step, st, all[..k]), all[k]).caches, d)
  {
    var step := DatabaseStep(ctx, Dropped(ctx, all));
    forall a: State, s ensures Pinned(a.caches, step(a, s).caches) { DatabaseStepKeeps(ctx, Dropped(ctx, all), a, s); }
    PinnedToEnd(step, st, all, k, d);
  }

  lemma DatabaseDoesAt(ctx: Context, st: State, all: seq<Sample>, k: nat, d: Caches)
    requires k < |all| && Pinned(Fold(DatabaseStep(ctx, Dropped(ctx, all)), st, all).caches, d)
    ensures var step := DatabaseStep(ctx, Dropped(ctx, all));
            var before := Fold(step, st, all[..k]);
            Does(ctx, before, DatabaseSays(ctx, st.peers, d.ptr, all)(all[k]), step(before, all[k]))
  {
    var before := Fold(DatabaseStep(ctx, Dropped(ctx, all)), st, all[..k]);
    DatabasePinsToEnd(ctx, st, all, k, d);
    DatabaseKeepsPeers(ctx, Dropped(ctx, all), st, all[..k]);
    DatabaseDoes(ctx, before, all, all[k], d);
  }

  /** The database phase, read with any later reverse lookups. */
  lemma DatabasesObserved(ctx: Context, st: State, all: seq<Sample>, d: Caches)
    requires Pinned(Fold(DatabaseStep(ctx, Dropped(ctx, all)), st, all).caches, d)
    ensures Left(ctx, st, Fold(DatabaseStep(ctx, Dropped(ctx, all)), st, all),
                 Map(DatabaseSays(ctx, st.peers, d.ptr, all), all))
  {
    var step, says := DatabaseStep(ctx, Dropped(ctx, all)), DatabaseSays(ctx, st.peers, d.ptr, all);
    forall k | 0 <= k < |all|
      ensures var before := Fold(step, st, all[..k]); Does(ctx, before, says(all[k]), step(before, all[k]))
    {
      DatabaseDoesAt(ctx, st, all, k, d);
    }
    PhaseLeaves(ctx, step, st, all, says);
  }
}
