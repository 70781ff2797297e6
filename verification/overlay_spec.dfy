/** What the telemetry overlay computes: one step per sample over edges, HTTP peers, DNS caches and applications. */
module OverlaySpec {
  import opened Text
  import opened Sequences
  import opened Catalog
  import opened Resolving
  import opened Engines

  const ORIGIN_SERVICE_GRAPH := "otel-servicegraph"
  const ORIGIN_METRICS := "otel-metrics"

  /** IP parsing and DNS. The n-th DNS query of a run may answer differently from every earlier one. */
  datatype Network = Network(
    isBareIP: string -> bool, isPrivateIP: string -> bool,
    ptr: (nat, string) -> seq<string>, forward: (nat, string) -> seq<string>)

  /** The DNS caches, which live as long as the overlayer, and the number of queries made so far. */
  datatype Caches = Caches(ptr: map<string, string>, hosts: map<string, seq<string>>, clock: nat)

  datatype Context = Context(res: Resolver, index: map<string, nat>, net: Network)

  datatype State = State(
    apps: seq<ApplicationEntry>, edges: seq<DependencyEdge>, peers: map<string, set<string>>, caches: Caches)

  // ------------------------------------------------------------------ DNS caches

  /** The first usable PTR name, or "". */
  function FirstName(names: seq<string>): string {
    if names == [] then ""
    else
      var n := TrimSuffix(TrimSpace(names[0]), ".");
      if n != "" then n else FirstName(names[1..])
  }

  function UsableIPs(net: Network, addrs: seq<string>): seq<string> {
    if addrs == [] then []
    else
      var ip := TrimSpace(addrs[|addrs| - 1]);
      UsableIPs(net, addrs[..|addrs| - 1]) + (if ip != "" && net.isBareIP(ip) then [ip] else [])
  }

  /** The caches after a reverse lookup of `ip`; the answer is then `ptr[ip]`. */
  function ReverseLookup(net: Network, c: Caches, ip: string): (c': Caches)
    ensures ip in c'.ptr
  {
    if ip in c.ptr then c
    else c.(ptr := c.ptr[ip := FirstName(net.ptr(c.clock, ip))], clock := c.clock + 1)
  }

  function ForwardLookup(net: Network, c: Caches, host: string): (c': Caches)
    ensures host in c'.hosts
  {
    if host in c.hosts then c
    else c.(hosts := c.hosts[host := UsableIPs(net, net.forward(c.clock, host))], clock := c.clock + 1)
  }

  datatype PeerName = PeerName(host: string, keep: bool, caches: Caches)

  /** A displayable name for a peer; private addresses are not kept. */
  function ExternalHost(net: Network, c: Caches, host: string): PeerName {
    if host == "" || !net.isBareIP(host) then PeerName(host, host != "", c)
    else if net.isPrivateIP(host) then PeerName("", false, c)
    else
      var c' := ReverseLookup(net, c, host);
      PeerName(if c'.ptr[host] != "" then c'.ptr[host] else host, true, c')
  }

  // ------------------------------------------------------------------ HTTP peers

  function Peers(peers: map<string, set<string>>, key: string): set<string> {
    if key in peers then peers[key] else {}
  }

  function AddPeer(peers: map<string, set<string>>, key: string, host: string): map<string, set<string>> {
    if host == "" then peers else peers[key := Peers(peers, key) + {host}]
  }

  function AddPeers(peers: map<string, set<string>>, key: string, hosts: seq<string>): map<string, set<string>> {
    if hosts == [] then peers
    else AddPeer(AddPeers(peers, key, hosts[..|hosts| - 1]), key, hosts[|hosts| - 1])
  }

  predicate HasPeer(hosts: set<string>, host: string) { host != "" && host in hosts }

  // ------------------------------------------------------- edges and attachments

  function BoolStr(b: bool): string { if b then "ext" else "int" }

  function NodeKey(n: DependencyNode): string {
    n.namespace + "/" + (n.service + "/" + BoolStr(n.external))
  }

  /** The deduplication key of an edge. */
  function EdgeKey(e: DependencyEdge): string {
    NodeKey(e.source) + "|" + (NodeKey(e.target) + "|" + (e.kind + "|" + e.origin))
  }

  function DatabaseKey(db: DatabaseRef): (string, string) { (db.system, db.name) }

  function TopicKey(t: KafkaTopicRef): (string, string) { (t.name, t.direction) }

  datatype Attachment = Nothing | Database(db: DatabaseRef) | Topic(topic: KafkaTopicRef)

  function AttachTo(app: ApplicationEntry, a: Attachment): ApplicationEntry {
    match a
    case Nothing => app
    case Database(db) =>
      if db.system == "" && db.name == "" then app
      else app.(databases := AddBy(DatabaseKey, app.databases, db))
    case Topic(t) =>
      if t.name == "" then app else app.(kafkaTopics := AddBy(TopicKey, app.kafkaTopics, t))
  }

  /** What one sample contributes: nothing, or an edge and something attached to its source. */
  datatype Effect = Silent | Emit(edge: DependencyEdge, attach: Attachment)

  function NodeJoinKey(n: DependencyNode): string { JoinKey(n.namespace, n.service) }

  /** The application a node stands for, if the catalog has it. */
  function AppOf(ctx: Context, apps: seq<ApplicationEntry>, n: DependencyNode): Option<nat> {
    var key := NodeJoinKey(n);
    if !n.external && key in ctx.index && ctx.index[key] < |apps| then Some(ctx.index[key]) else None
  }

  function Attach(ctx: Context, apps: seq<ApplicationEntry>, n: DependencyNode, a: Attachment): seq<ApplicationEntry> {
    match AppOf(ctx, apps, n)
    case Some(i) => apps[i := AttachTo(apps[i], a)]
    case None => apps
  }

  function ApplyEffect(ctx: Context, st: State, eff: Effect): State {
    match eff
    case Silent => st
    case Emit(edge, a) =>
      st.(edges := AddBy(EdgeKey, st.edges, edge), apps := Attach(ctx, st.apps, edge.source, a))
  }

  /** Unclassified external targets are drawn as services. */
  function EdgeKind(kind: string): string { if kind == KIND_EXTERNAL then KIND_SERVICE else kind }

  // ---------------------------------------------------------------------- phases

  predicate EgressBucket(name: string) { name == "outgoing" || name == "incoming" }

  function ServiceGraphEffect(ctx: Context, s: Sample): Effect {
    var client, server := Label(s.metric, "client"), Label(s.metric, "server");
    if client == "" || server == "" || EgressBucket(client) || EgressBucket(server) then Silent
    else
      var src := ctx.res.ResolveEndpoint(client, Label(s.metric, "client_k8s_namespace_name")).node;
      var dst := ctx.res.ResolveEndpoint(server, Label(s.metric, "server_k8s_namespace_name"));
      Emit(DependencyEdge(src, dst.node, EdgeKind(dst.kind), ORIGIN_SERVICE_GRAPH, client + " \U{2192} " + server),
           if dst.kind == KIND_DATABASE then Database(DatabaseRef(dst.node.service, "", ORIGIN_SERVICE_GRAPH))
           else if dst.kind == KIND_KAFKA then Topic(KafkaTopicRef(dst.node.service, "", ORIGIN_SERVICE_GRAPH))
           else Nothing)
  }

  function ServiceGraphStep(ctx: Context): (State, Sample) -> State {
    (st: State, s: Sample) => ApplyEffect(ctx, st, ServiceGraphEffect(ctx, s))
  }

  /** The workload a client metric belongs to. */
  function Client(ctx: Context, s: Sample): DependencyNode { ctx.res.ResolveClient(s.metric) }

  function HttpEffect(ctx: Context, s: Sample, host: string, keep: bool): Effect {
    if !keep then Silent
    else
      var src, port := Client(ctx, s), PeerPort(s.metric, Label(s.metric, "server_address"));
      var dst := ctx.res.Resolve(JoinHostPort(host, port));
      if !dst.node.external then Silent
      else
        Emit(DependencyEdge(src, dst.node, EdgeKind(dst.kind), ORIGIN_METRICS, src.service + " \U{2192} " + host),
             if dst.kind == KIND_DATABASE then
               var engine := WellKnownPort(port);
               Database(DatabaseRef(if engine != "" then engine else dst.node.service, host, ORIGIN_METRICS))
             else if dst.kind == KIND_KAFKA then Topic(KafkaTopicRef(dst.node.service, "", ORIGIN_METRICS))
             else Nothing)
  }

  /** The HTTP peer of a sample: its display name, or the raw host when it has none. */
  function HttpPeerHost(s: Sample, host: string): string {
    if host != "" then host else RawHost(s)
  }

  /** Remember the peer, and the addresses its name resolves to. */
  function RecordPeer(ctx: Context, st: State, key: string, peerHost: string): State {
    var peers := AddPeer(st.peers, key, peerHost);
    if ctx.net.isBareIP(peerHost) then st.(peers := peers)
    else
      var c := ForwardLookup(ctx.net, st.caches, peerHost);
      st.(peers := AddPeers(peers, key, c.hosts[peerHost]), caches := c)
  }

  /** A sample with an address, from a workload of the catalog. */
  function HttpSample(ctx: Context, st: State, s: Sample): State {
    var peer := ExternalHost(ctx.net, st.caches, RawHost(s));
    var st' := RecordPeer(ctx, st.(caches := peer.caches), NodeJoinKey(Client(ctx, s)), HttpPeerHost(s, peer.host));
    ApplyEffect(ctx, st', HttpEffect(ctx, s, peer.host, peer.keep))
  }

  function HttpStep(ctx: Context): (State, Sample) -> State {
    (st: State, s: Sample) =>
      if Label(s.metric, "server_address") == "" || Client(ctx, s).external then st else HttpSample(ctx, st, s)
  }

  /** The engine of a database sample: its label, or what a well-known database port tells. */
  function InferredEngine(s: Sample): string {
    var sys := WellKnownPort(PeerPort(s.metric, Label(s.metric, "server_address")));
    if Engine(s) == "" && DatabaseSystem(sys) then sys else Engine(s)
  }

  /** `http` are the hosts that this sample's workload calls over HTTP. */
  function DatabaseEffect(ctx: Context, http: set<string>, s: Sample, resolved: string, keep: bool): Effect {
    var src, raw, dbName, system := Client(ctx, s), RawHost(s), Label(s.metric, "db_name"), InferredEngine(s);
    var host := if keep then resolved else raw;
    if !keep && dbName == "" && system == "" then Silent
    else if !src.external && (HasPeer(http, raw) || HasPeer(http, host)) then Silent
    else
      var target := FirstNonEmpty([host, system]);
      if target == "" then Silent
      else
        Emit(DependencyEdge(src, ExternalNode(target), KIND_DATABASE, ORIGIN_METRICS, dbName),
             Database(DatabaseRef(system, FirstNonEmpty([dbName, host]), ORIGIN_METRICS)))
  }

  function DatabaseSample(ctx: Context, st: State, s: Sample): State {
    var peer := ExternalHost(ctx.net, st.caches, RawHost(s));
    var http := Peers(st.peers, NodeJoinKey(Client(ctx, s)));
    ApplyEffect(ctx, st.(caches := peer.caches), DatabaseEffect(ctx, http, s, peer.host, peer.keep))
  }

  /** Samples dropped before looking at the peer: the losers of an engine conflict, which is settled over
      the whole answer, and OTLP collectors. */
  function Dropped(ctx: Context, all: seq<Sample>): Sample -> bool {
    (s: Sample) => !Survives(PeerKey(ctx.res), all, s) || OTLPCollectorPeer(RawHost(s))
  }

  function DatabaseStep(ctx: Context, dropped: Sample -> bool): (State, Sample) -> State {
    (st: State, s: Sample) => if dropped(s) then st else DatabaseSample(ctx, st, s)
  }

  function MessagingEffect(ctx: Context, s: Sample): Effect {
    var dest := Label(s.metric, "messaging_destination_name");
    if dest == "" then Silent
    else
      Emit(DependencyEdge(Client(ctx, s), ExternalNode(dest), KIND_KAFKA, ORIGIN_METRICS, "consume"),
           Topic(KafkaTopicRef(dest, "consume", ORIGIN_METRICS)))
  }

  function MessagingStep(ctx: Context): (State, Sample) -> State {
    (st: State, s: Sample) => ApplyEffect(ctx, st, MessagingEffect(ctx, s))
  }

  /** The first language detected for a workload wins. */
  function RuntimeEffect(ctx: Context, apps: seq<ApplicationEntry>, s: Sample): seq<ApplicationEntry> {
    var lang := Label(s.metric, "telemetry_sdk_language");
    if lang == "" || lang == "generic" then apps
    else
      match AppOf(ctx, apps, Client(ctx, s))
      case Some(i) => if apps[i].runtime == "" then apps[i := apps[i].(runtime := lang)] else apps
      case None => apps
  }

  function RuntimeStep(ctx: Context): (State, Sample) -> State {
    (st: State, s: Sample) => st.(apps := RuntimeEffect(ctx, st.apps, s))
  }

  // --------------------------------------------------------------------- traffic

  predicate ServerError(s: Sample) {
    var code := Label(s.metric, "http_response_status_code");
    code != "" && code[0] == '5'
  }

  /** The application, among the first `n`, that a sample is attributed to. */
  function Attributed(ctx: Context, n: nat): Sample -> Option<nat> {
    (s: Sample) =>
      var src := Client(ctx, s);
      var key := NodeJoinKey(src);
      if !src.external && key in ctx.index && ctx.index[key] < n then Some(ctx.index[key]) else None
  }

  /** What a sample contributes to the traffic, and to the errors, of application `i`. */
  function Traffic(owner: Sample -> Option<nat>, i: nat): Sample -> real {
    (s: Sample) => if owner(s) == Some(i) then s.value else 0.0
  }

  function Errors(owner: Sample -> Option<nat>, i: nat): Sample -> real {
    (s: Sample) => if owner(s) == Some(i) && ServerError(s) then s.value else 0.0
  }

  function WithTraffic(owner: Sample -> Option<nat>, samples: seq<Sample>, i: nat,
                       app: ApplicationEntry): ApplicationEntry {
    var total := Sum(Traffic(owner, i), samples);
    if total <= 0.0 then app
    else app.(requestRate := total, errorRate := Sum(Errors(owner, i), samples) / total)
  }

  function ApplyTraffic(ctx: Context, st: State, samples: seq<Sample>): State {
    var n := |st.apps|;
    st.(apps := seq(n, i requires 0 <= i < n => WithTraffic(Attributed(ctx, n), samples, i, st.apps[i])))
  }

  // ----------------------------------------------------------------------- apply

  /** The six query answers; None is a failed query. */
  datatype Answers = Answers(
    serviceGraph: Option<seq<Sample>>, httpClient: Option<seq<Sample>>, database: Option<seq<Sample>>,
    messaging: Option<seq<Sample>>, runtime: Option<seq<Sample>>, traffic: Option<seq<Sample>>)

  /** A failed query counts as an empty answer. */
  function Samples(answer: Option<seq<Sample>>): seq<Sample> {
    match answer case Some(samples) => samples case None => []
  }

  function AfterHttp(ctx: Context, st: State, answers: Answers): State {
    Fold(HttpStep(ctx), Fold(ServiceGraphStep(ctx), st, Samples(answers.serviceGraph)), Samples(answers.httpClient))
  }

  function AfterDatabase(ctx: Context, st: State, answers: Answers): State {
    var db := Samples(answers.database);
    Fold(DatabaseStep(ctx, Dropped(ctx, db)), AfterHttp(ctx, st, answers), db)
  }

  function AfterMessaging(ctx: Context, st: State, answers: Answers): State {
    Fold(MessagingStep(ctx), AfterDatabase(ctx, st, answers), Samples(answers.messaging))
  }

  function AfterRuntime(ctx: Context, st: State, answers: Answers): State {
    Fold(RuntimeStep(ctx), AfterMessaging(ctx, st, answers), Samples(answers.runtime))
  }

  function Overlaid(ctx: Context, st: State, answers: Answers): State {
    ApplyTraffic(ctx, AfterRuntime(ctx, st, answers), Samples(answers.traffic))
  }

  function Start(apps: seq<ApplicationEntry>, caches: Caches): State { State(apps, [], map[], caches) }

  // --------------------------------------------------------------------- context

  /** `index` finds, for each "namespace/name", the last application of that name. */
  ghost predicate Indexed(index: map<string, nat>, apps: seq<ApplicationEntry>, key: string) {
    if key in index then
      index[key] < |apps| && AppKey(apps[index[key]]) == key &&
      forall j | index[key] < j < |apps| :: AppKey(apps[j]) != key
    else
      forall j | 0 <= j < |apps| :: AppKey(apps[j]) != key
  }

  function AppKey(app: ApplicationEntry): string { JoinKey(app.namespace, app.name) }

  ghost predicate ContextOf(ctx: Context, cluster: string, apps: seq<ApplicationEntry>) {
    Built(ctx.res, cluster, apps) && forall key :: Indexed(ctx.index, apps, key)
  }
}
