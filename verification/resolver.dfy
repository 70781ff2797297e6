/** Telemetry identifiers: host/port forms and their resolution back to in-cluster applications. */
module Resolving {
  import opened Text
  import opened Catalog

  const SVC_SUFFIX := ".svc.cluster.local"

  const KIND_SERVICE := "service"
  const KIND_DATABASE := "database"
  const KIND_KAFKA := "kafka"
  const KIND_EXTERNAL := "external"

  /** Database or messaging system behind a bare port; "" for an unknown port. */
  function WellKnownPort(port: string): string {
    if port == "5432" then "postgresql"
    else if port == "3306" then "mysql"
    else if port == "6379" then "redis"
    else if port == "27017" then "mongodb"
    else if port == "1433" then "mssql"
    else if port == "9200" then "elasticsearch"
    else if port == "9092" then "kafka"
    else if port == "5672" then "rabbitmq"
    else ""
  }

  predicate DatabaseSystem(s: string) {
    s in {"postgresql", "postgres", "mysql", "mariadb", "redis", "mongodb", "mssql",
          "sqlserver", "cassandra", "elasticsearch", "dynamodb", "cosmosdb", "oracle"}
  }

  predicate MessagingSystem(s: string) {
    s in {"kafka", "rabbitmq", "amqp", "servicebus", "sqs", "sns", "eventhub", "nservicebus"}
  }

  function ToLower(s: string): (r: string)
    ensures |r| == |s|
  {
    seq(|s|, i requires 0 <= i < |s| =>
      if 'A' <= s[i] <= 'Z' then (s[i] as int + 32) as char else s[i])
  }

  function ToUpper(s: string): (r: string)
    ensures |r| == |s|
  {
    seq(|s|, i requires 0 <= i < |s| =>
      if 'a' <= s[i] <= 'z' then (s[i] as int - 32) as char else s[i])
  }

  /** An OpenTelemetry collector, recognised by the first DNS label of a peer address. */
  predicate OTLPCollectorPeer(host: string) {
    ToLower(host[..IndexOf(host, '.')]) in
      {"otel-collector", "otel-collector-service", "opentelemetry-collector", "opentelemetry-collector-service"}
  }

  // ------------------------------------------------------------- host and port

  datatype HostPort = HostPort(host: string, port: string)

  function SplitHostPort(addr: string): HostPort {
    if addr == "" then HostPort("", "")
    else if addr[0] == '[' then
      var i := LastIndexOf(addr, ']');
      if i == -1 then HostPort(addr, "")
      else
        var rest := addr[i + 1..];
        HostPort(addr[1..i],
                 if rest != "" && rest[0] == ':' && Numeric(rest[1..]) then rest[1..] else "")
    else if Count(addr, ':') > 1 then HostPort(addr, "")
    else
      var i := LastIndexOf(addr, ':');
      if i != -1 && Numeric(addr[i + 1..]) then HostPort(addr[..i], addr[i + 1..])
      else HostPort(addr, "")
  }

  function StripPort(addr: string): string { SplitHostPort(addr).host }

  function JoinHostPort(host: string, port: string): string {
    if port == "" then host
    else if ':' in host && host[0] != '[' then "[" + host + "]:" + port
    else host + ":" + port
  }

  function PeerPort(metric: map<string, string>, addr: string): string {
    if Label(metric, "server_port") != "" then Label(metric, "server_port") else SplitHostPort(addr).port
  }

  lemma {:induction false} LastIndexAfter(a: string, c: char, b: string)
    requires c !in b
    ensures LastIndexOf(a + [c] + b, c) == |a|
  {
    var s := a + [c] + b;
    if b == [] {
      assert s[|s| - 1] == c;
    } else {
      assert s[|s| - 1] == b[|b| - 1];
      assert s[..|s| - 1] == a + [c] + b[..|b| - 1];
      LastIndexAfter(a, c, b[..|b| - 1]);
    }
  }

  lemma {:induction false} CountAppend(a: string, b: string, c: char)
    ensures Count(a + b, c) == Count(a, c) + Count(b, c)
  {
    if a == [] {
      assert a + b == b;
    } else {
      assert (a + b)[1..] == a[1..] + b;
      CountAppend(a[1..], b, c);
    }
  }

  /** Splitting undoes joining, for every numeric port, exactly when the host is not already bracketed. */
  lemma HostPortRoundTrip(host: string, port: string)
    requires Numeric(port)
    ensures SplitHostPort(JoinHostPort(host, port)) == HostPort(host, port) <==> host == "" || host[0] != '['
  {
    NumericChars(port, ':');
    if host != "" && host[0] == '[' {
      BracketLost(host, port);
    } else if ':' in host {
      BracketedSplit(host, port);
    } else {
      PlainSplit(host, port);
    }
  }

  lemma BracketLost(host: string, port: string)
    requires Numeric(port) && host != "" && host[0] == '['
    ensures SplitHostPort(host + ":" + port) != HostPort(host, port)
  {
  }

  lemma BracketedSplit(host: string, port: string)
    requires Numeric(port)
    ensures SplitHostPort("[" + host + "]:" + port) == HostPort(host, port)
  {
    NumericChars(port, ']');
    var addr := "[" + host + "]:" + port;
    assert addr == ("[" + host) + [']'] + (":" + port);
    LastIndexAfter("[" + host, ']', ":" + port);
    assert addr[|host| + 2..] == ":" + port;
    assert (":" + port)[1..] == port;
    assert addr[1..|host| + 1] == host;
  }

  lemma PlainSplit(host: string, port: string)
    requires Numeric(port) && ':' !in host && (host == "" || host[0] != '[')
    ensures SplitHostPort(host + ":" + port) == HostPort(host, port)
  {
    NumericChars(port, ':');
    var addr := host + ":" + port;
    OneColon(host, port);
    assert addr[0] == (host + ":")[0];
    assert addr[..|host|] == host && addr[|host| + 1..] == port;
  }

  lemma OneColon(host: string, port: string)
    requires ':' !in host && ':' !in port
    ensures Count(host + ":" + port, ':') == 1 && LastIndexOf(host + ":" + port, ':') == |host|
  {
    LastIndexAfter(host, ':', port);
    CountAppend(host + ":", port, ':');
    CountAppend(host, ":", ':');
    assert Count(":", ':') == 1;
  }

  /** One colon-free host with a port. */
  ghost predicate Ported(addr: string) {
    exists host: string, port: string :: addr == host + ":" + port && ':' !in host && Numeric(port)
  }

  lemma PortFound(addr: string)
    requires (addr == "" || addr[0] != '[') && SplitHostPort(addr) != HostPort(addr, "")
    ensures Ported(addr)
  {
    var i := LastIndexOf(addr, ':');
    var host, port := addr[..i], addr[i + 1..];
    assert addr == host + ":" + port;
    CountAppend(host + ":", port, ':');
    CountAppend(host, ":", ':');
    assert Count(":", ':') == 1;
  }

  /** An address without a leading bracket is all host exactly when it is not a colon-free host with a port. */
  lemma BareHostKept(addr: string)
    requires addr == "" || addr[0] != '['
    ensures SplitHostPort(addr) == HostPort(addr, "") <==> !Ported(addr)
  {
    if host: string, port: string :| addr == host + ":" + port && ':' !in host && Numeric(port) {
      assert host != "" ==> host[0] == addr[0];
      PlainSplit(host, port);
    }
    if SplitHostPort(addr) != HostPort(addr, "") { PortFound(addr); }
  }

  /** Brackets without a port come off. */
  lemma BracketsOff(host: string)
    requires ']' !in host
    ensures SplitHostPort("[" + host + "]") == HostPort(host, "")
  {
    var addr := "[" + host + "]";
    assert addr == ("[" + host) + [']'] + "";
    LastIndexAfter("[" + host, ']', "");
    assert addr[1..|host| + 1] == host;
  }

  // ------------------------------------------------------------------ resolver

  datatype Resolved = Resolved(node: DependencyNode, kind: string)

  function ExternalNode(service: string): DependencyNode {
    DependencyNode("", "", service, true)
  }

  function SystemKind(sys: string): string {
    if MessagingSystem(sys) then KIND_KAFKA else KIND_DATABASE
  }

  /** (name, namespace) of name.namespace[.svc.cluster.local]. */
  function SplitClusterDNS(host: string): Option<(string, string)> {
    var parts := Split(TrimSuffix(host, SVC_SUFFIX), '.');
    if |parts| < 2 then None else Some((parts[0], parts[1]))
  }

  datatype Resolver = Resolver(cluster: string, services: map<string, string>) {

    function InClusterNode(namespace: string, name: string): DependencyNode
      requires JoinKey(namespace, name) in services
    {
      DependencyNode(cluster, namespace, services[JoinKey(namespace, name)], false)
    }

    /** In-cluster lookup of an address; None when it names no registered service. */
    function LookupDNS(host: string): Option<DependencyNode> {
      match SplitClusterDNS(host)
      case Some((name, namespace)) =>
        if JoinKey(namespace, name) in services then Some(InClusterNode(namespace, name)) else None
      case None => None
    }

    /** What an address that names no in-cluster service is taken for. */
    static function Classify(hp: HostPort): (r: Resolved)
      ensures r.node == ExternalNode(r.node.service) && r.kind != KIND_SERVICE
    {
      var host, lower := hp.host, ToLower(hp.host);
      if Numeric(host) then
        if WellKnownPort(host) != ""
        then Resolved(ExternalNode(WellKnownPort(host)), SystemKind(WellKnownPort(host)))
        else Resolved(ExternalNode(host), KIND_EXTERNAL)
      else if hp.port != "" && WellKnownPort(hp.port) != "" then
        Resolved(ExternalNode(lower), SystemKind(WellKnownPort(hp.port)))
      else if DatabaseSystem(lower) then Resolved(ExternalNode(lower), KIND_DATABASE)
      else if MessagingSystem(lower) then Resolved(ExternalNode(lower), KIND_KAFKA)
      else Resolved(ExternalNode(host), KIND_EXTERNAL)
    }

    function Resolve(identifier: string): Resolved {
      var id := TrimSpace(identifier);
      if id == "" then Resolved(ExternalNode(""), KIND_EXTERNAL)
      else
        var hp := SplitHostPort(id);
        match LookupDNS(hp.host)
        case Some(node) => Resolved(node, KIND_SERVICE)
        case None => Classify(hp)
    }

    function ResolveEndpoint(name: string, k8sNamespace: string): Resolved {
      if k8sNamespace != "" && JoinKey(k8sNamespace, name) in services
      then Resolved(InClusterNode(k8sNamespace, name), KIND_SERVICE)
      else Resolve(name)
    }

    function ResolveClient(m: map<string, string>): DependencyNode {
      var name := FirstNonEmpty([Label(m, "k8s_deployment_name"), Label(m, "k8s_statefulset_name"),
                                 Label(m, "k8s_daemonset_name"), Label(m, "service_name")]);
      ResolveEndpoint(if name != "" then name else Label(m, "service"), Label(m, "k8s_namespace_name")).node
    }
  }

  // -------------------------------------------------------------- registration

  /** The names under which an application is registered: its own, then its services'. */
  predicate Claims(app: ApplicationEntry, key: string) {
    key == JoinKey(app.namespace, app.name) ||
    exists j | 0 <= j < |app.services| :: key == JoinKey(app.namespace, app.services[j].name)
  }

  /** `key` resolves to the last application that claims it, and to nothing when none does. */
  ghost predicate LastClaimWins(services: map<string, string>, apps: seq<ApplicationEntry>, key: string) {
    if key in services then
      exists i :: 0 <= i < |apps| && Claims(apps[i], key) && services[key] == apps[i].name &&
                  forall j | i < j < |apps| :: !Claims(apps[j], key)
    else
      forall i | 0 <= i < |apps| :: !Claims(apps[i], key)
  }

  method NewResolver(cluster: string, apps: seq<ApplicationEntry>) returns (r: Resolver)
    ensures r.cluster == cluster
    ensures forall key :: LastClaimWins(r.services, apps, key)
  {
    var services := map[];
    for i := 0 to |apps|
      invariant forall key :: LastClaimWins(services, apps[..i], key)
    {
      var app := apps[i];
      ghost var before := services;
      services := services[JoinKey(app.namespace, app.name) := app.name];
      for j := 0 to |app.services|
        invariant forall key ::
          if key == JoinKey(app.namespace, app.name) ||
             exists k | 0 <= k < j :: key == JoinKey(app.namespace, app.services[k].name)
          then key in services && services[key] == app.name
          else (key in services <==> key in before) && (key in before ==> services[key] == before[key])
      {
        services := services[JoinKey(app.namespace, app.services[j].name) := app.name];
      }
      ghost var upTo := apps[..i + 1];
      forall key ensures LastClaimWins(services, upTo, key) {
        ClaimStep(before, services, apps, i, key);
      }
    }
    assert apps[..|apps|] == apps;
    r := Resolver(cluster, services);
  }

  lemma ClaimStep(before: map<string, string>, after: map<string, string>, apps: seq<ApplicationEntry>, i: nat,
                  key: string)
    requires i < |apps| && LastClaimWins(before, apps[..i], key)
    requires Claims(apps[i], key) ==> key in after && after[key] == apps[i].name
    requires !Claims(apps[i], key) ==>
               (key in after <==> key in before) && (key in before ==> after[key] == before[key])
    ensures LastClaimWins(after, apps[..i + 1], key)
  {
    var s, t := apps[..i], apps[..i + 1];
    assert t[i] == apps[i] && forall j | 0 <= j < i :: s[j] == t[j];
    if !Claims(apps[i], key) && key in before {
      var k :| 0 <= k < |s| && Claims(s[k], key) && before[key] == s[k].name &&
               forall j | k < j < |s| :: !Claims(s[j], key);
      assert Claims(t[k], key) && after[key] == t[k].name;
    }
  }

  /** The resolver of a catalog: every key resolves by the last claim on it. */
  ghost predicate Built(r: Resolver, cluster: string, apps: seq<ApplicationEntry>) {
    r.cluster == cluster && forall key :: LastClaimWins(r.services, apps, key)
  }

  /** An application's own name resolves to itself exactly when no later application takes that name
      over with a different one of its own. */
  lemma OwnNameResolves(r: Resolver, cluster: string, apps: seq<ApplicationEntry>, i: nat)
    requires Built(r, cluster, apps) && i < |apps| && apps[i].namespace != ""
    ensures
      var key := JoinKey(apps[i].namespace, apps[i].name);
      r.ResolveEndpoint(apps[i].name, apps[i].namespace).node ==
        DependencyNode(cluster, apps[i].namespace, apps[i].name, false)
      <==> forall j | i < j < |apps| && Claims(apps[j], key) && (forall k | j < k < |apps| :: !Claims(apps[k], key)) ::
             apps[j].name == apps[i].name
  {
    var key := JoinKey(apps[i].namespace, apps[i].name);
    assert Claims(apps[i], key);
    assert LastClaimWins(r.services, apps, key);
  }

  function Plain(name: string, services: seq<ServiceRef>): ApplicationEntry {
    ApplicationEntry("c", "ns", name, "Deployment", "", 1, 1, Attribution(None, []), services, [], [], "", 0.0, 0.0,
                     map[], map[])
  }

  /** It need not: here a service of a later application has the name of an earlier application. */
  lemma OwnNameTakenOver(r: Resolver)
    requires Built(r, "c", [Plain("x", []), Plain("y", [ServiceRef("x", "", "", [], [], [], [], [])])])
    ensures r.ResolveEndpoint("x", "ns").node == DependencyNode("c", "ns", "y", false)
  {
    var svc := ServiceRef("x", "", "", [], [], [], [], []);
    var apps := [Plain("x", []), Plain("y", [svc])];
    assert apps[1].services[0] == svc;
    assert Claims(apps[1], JoinKey("ns", "x"));
    assert LastClaimWins(r.services, apps, JoinKey("ns", "x"));
  }

  // -------------------------------------------------------- referential integrity

  /** Node names an application of the catalog, in that application's namespace. */
  ghost predicate NamesApplication(apps: seq<ApplicationEntry>, cluster: string, n: DependencyNode) {
    exists i :: 0 <= i < |apps| && n == DependencyNode(cluster, apps[i].namespace, apps[i].name, false)
  }

  ghost predicate Sound(apps: seq<ApplicationEntry>, cluster: string, n: DependencyNode) {
    n.external || NamesApplication(apps, cluster, n)
  }

  lemma InClusterNodeSound(r: Resolver, cluster: string, apps: seq<ApplicationEntry>, namespace: string, name: string)
    requires Built(r, cluster, apps) && SlashFreeNames(apps)
    requires JoinKey(namespace, name) in r.services
    ensures NamesApplication(apps, cluster, r.InClusterNode(namespace, name))
  {
    var key := JoinKey(namespace, name);
    assert LastClaimWins(r.services, apps, key);
    var i :| 0 <= i < |apps| && Claims(apps[i], key) && r.services[key] == apps[i].name;
    if key == JoinKey(apps[i].namespace, apps[i].name) {
      KeyInjectiveOneSide(namespace, name, apps[i].namespace, apps[i].name, '/');
    } else {
      var j :| 0 <= j < |apps[i].services| && key == JoinKey(apps[i].namespace, apps[i].services[j].name);
      KeyInjectiveOneSide(namespace, name, apps[i].namespace, apps[i].services[j].name, '/');
    }
  }

  /** Whatever the telemetry says, a node is external or a real application of the catalog. */
  lemma EndpointSound(r: Resolver, cluster: string, apps: seq<ApplicationEntry>, name: string, k8sNamespace: string)
    requires Built(r, cluster, apps) && SlashFreeNames(apps)
    ensures Sound(apps, cluster, r.ResolveEndpoint(name, k8sNamespace).node)
    ensures Sound(apps, cluster, r.Resolve(name).node)
  {
    if JoinKey(k8sNamespace, name) in r.services {
      InClusterNodeSound(r, cluster, apps, k8sNamespace, name);
    }
    match SplitClusterDNS(SplitHostPort(TrimSpace(name)).host)
    case Some((svc, namespace)) =>
      if JoinKey(namespace, svc) in r.services {
        InClusterNodeSound(r, cluster, apps, namespace, svc);
      }
    case None =>
  }

  lemma ClientSound(r: Resolver, cluster: string, apps: seq<ApplicationEntry>, m: map<string, string>)
    requires Built(r, cluster, apps) && SlashFreeNames(apps)
    ensures Sound(apps, cluster, r.ResolveClient(m))
  {
    var name := FirstNonEmpty([Label(m, "k8s_deployment_name"), Label(m, "k8s_statefulset_name"),
                               Label(m, "k8s_daemonset_name"), Label(m, "service_name")]);
    EndpointSound(r, cluster, apps, if name != "" then name else Label(m, "service"), Label(m, "k8s_namespace_name"));
  }

  // --------------------------------------------------------- address forms agree

  /** A name that may stand in an address: not empty, no colon, bracket or blank. Workload names may hold dots. */
  predicate PlainName(s: string) {
    s != "" && s[0] != '[' && ':' !in s && forall c | c in s :: !IsSpace(c)
  }

  /** The first two labels of name.namespace lead to the application that holds the name itself. */
  predicate ReadBack(r: Resolver, name: string, namespace: string)
    requires JoinKey(namespace, name) in r.services
  {
    var labels := Split(name, '.');
    |labels| == 1 ||
    (labels[1] == namespace && JoinKey(namespace, labels[0]) in r.services &&
     r.services[JoinKey(namespace, labels[0])] == r.services[JoinKey(namespace, name)])
  }

  lemma SplitWhole(s: string, c: char)
    requires c !in s
    ensures Split(s, c) == [s]
  {
    assert IndexOf(s, c) == |s|;
  }

  lemma QualifiedSplits(name: string, namespace: string)
    requires '.' !in namespace
    ensures Split(name + "." + namespace, '.') == Split(name, '.') + [namespace]
  {
    SplitConcat(name, '.', namespace);
    SplitWhole(namespace, '.');
  }

  /** A short form that ends like a fully qualified one belongs to namespace "local". */
  lemma SuffixInName(name: string, namespace: string)
    requires '.' !in namespace && HasSuffix(name + "." + namespace, SVC_SUFFIX)
    ensures namespace == "local" && HasSuffix(name, ".svc.cluster")
    ensures TrimSuffix(name + "." + namespace, SVC_SUFFIX) == TrimSuffix(name, ".svc.cluster")
  {
    var short := name + "." + namespace;
    var stem := short[..|short| - |SVC_SUFFIX|];
    assert short == stem + SVC_SUFFIX == (stem + ".svc.cluster") + "." + "local";
    KeyInjectiveRight(name, namespace, stem + ".svc.cluster", "local", '.');
    assert TrimSuffix(name, ".svc.cluster") == stem;
  }

  lemma SuffixKept(s: string, suffix: string)
    requires HasSuffix(s, suffix)
    ensures s == TrimSuffix(s, suffix) + suffix
  {
  }

  lemma TwoLabels(stem: string, a: string, b: string)
    requires '.' !in a && '.' !in b
    ensures Split(stem + ("." + a + "." + b), '.') == Split(stem, '.') + [a, b]
  {
    assert stem + ("." + a + "." + b) == stem + "." + a + "." + b;
    QualifiedSplits(stem + "." + a, b);
    QualifiedSplits(stem, a);
  }

  lemma SuffixLabels(name: string, tail: string, a: string, b: string)
    requires '.' !in a && '.' !in b && tail == "." + a + "." + b && HasSuffix(name, tail)
    ensures Split(name, '.') == Split(TrimSuffix(name, tail), '.') + [a, b]
  {
    SuffixKept(name, tail);
    TwoLabels(TrimSuffix(name, tail), a, b);
  }

  lemma SuffixDotted(s: string, suffix: string)
    requires HasSuffix(s, suffix) && '.' in suffix
    ensures '.' in s
  {
    assert forall c | c in suffix :: c in s[|s| - |suffix|..];
  }

  lemma NoLabels(id: string)
    requires '.' !in id
    ensures SplitClusterDNS(id) == None
  {
    if HasSuffix(id, SVC_SUFFIX) { SuffixDotted(id, SVC_SUFFIX); }
    SplitWhole(id, '.');
  }

  lemma SplitOne(s: string)
    ensures |Split(s, '.')| == 1 <==> '.' !in s
  {
  }

  /** Reading an address by its labels: the lookup depends on the first two only. */
  lemma LookupByLabels(r: Resolver, host: string, node: DependencyNode)
    ensures
      var labels := Split(TrimSuffix(host, SVC_SUFFIX), '.');
      r.LookupDNS(host) == Some(node) <==>
        |labels| >= 2 && JoinKey(labels[1], labels[0]) in r.services && node == r.InClusterNode(labels[1], labels[0])
  {
  }

  /** The labels of name.namespace, whether or not its end is taken for the cluster suffix, read back the name. */
  lemma LabelsReadBack(r: Resolver, name: string, namespace: string, labels: seq<string>)
    requires '.' !in namespace && JoinKey(namespace, name) in r.services
    requires labels == Split(name, '.') + [namespace] ||
             (Split(name, '.') == labels + ["svc", "cluster"] && namespace == "local")
    ensures
      (|labels| >= 2 && JoinKey(labels[1], labels[0]) in r.services &&
       r.InClusterNode(namespace, name) == r.InClusterNode(labels[1], labels[0]))
      <==> ReadBack(r, name, namespace)
  {
    SplitOne(name);
    if '.' !in name { SplitWhole(name, '.'); }
  }

  /** The labels the lookup sees in the short form. */
  lemma ShortLabels(name: string, namespace: string, labels: seq<string>)
    requires '.' !in namespace && labels == Split(TrimSuffix(name + "." + namespace, SVC_SUFFIX), '.')
    ensures labels == Split(name, '.') + [namespace] ||
            (Split(name, '.') == labels + ["svc", "cluster"] && namespace == "local")
  {
    if HasSuffix(name + "." + namespace, SVC_SUFFIX) {
      SuffixInName(name, namespace);
      SuffixLabels(name, ".svc.cluster", "svc", "cluster");
    } else {
      QualifiedSplits(name, namespace);
    }
  }

  /** The in-cluster lookup of the short form. */
  lemma ShortLookup(r: Resolver, name: string, namespace: string)
    requires '.' !in namespace && JoinKey(namespace, name) in r.services
    ensures r.LookupDNS(name + "." + namespace) == Some(r.InClusterNode(namespace, name)) <==>
            ReadBack(r, name, namespace)
  {
    var labels := Split(TrimSuffix(name + "." + namespace, SVC_SUFFIX), '.');
    ShortLabels(name, namespace, labels);
    LabelsReadBack(r, name, namespace, labels);
    LookupByLabels(r, name + "." + namespace, r.InClusterNode(namespace, name));
  }

  /** The in-cluster lookup of the fully qualified form. */
  lemma FullLookup(r: Resolver, name: string, namespace: string)
    requires '.' !in namespace && JoinKey(namespace, name) in r.services
    ensures r.LookupDNS(name + "." + namespace + SVC_SUFFIX) == Some(r.InClusterNode(namespace, name))
            <==> ReadBack(r, name, namespace)
  {
    var short := name + "." + namespace;
    var full := short + SVC_SUFFIX;
    assert full[|full| - |SVC_SUFFIX|..] == SVC_SUFFIX && full[..|full| - |SVC_SUFFIX|] == short;
    QualifiedSplits(name, namespace);
    LabelsReadBack(r, name, namespace, Split(short, '.'));
    LookupByLabels(r, full, r.InClusterNode(namespace, name));
  }

  /** An address is in the cluster exactly when its host is found there. */
  lemma AddressResolves(r: Resolver, id: string, hp: HostPort, node: DependencyNode)
    requires Trimmed(id) && id != "" && SplitHostPort(id) == hp
    ensures r.Resolve(id) == Resolved(node, KIND_SERVICE) <==> r.LookupDNS(hp.host) == Some(node)
  {
    TrimSpacePadded("", id, "");
    assert "" + id + "" == id;
    var other := Resolver.Classify(hp);
    assert other.kind != KIND_SERVICE;
    match r.LookupDNS(hp.host)
    case Some(n) => assert r.Resolve(id) == Resolved(n, KIND_SERVICE);
    case None => assert r.Resolve(id) == other;
  }

  lemma NoPort(host: string)
    requires PlainName(host)
    ensures SplitHostPort(host) == HostPort(host, "")
  {
    assert Count(host, ':') == 0 && LastIndexOf(host, ':') == -1;
  }

  /** ... with or without a port. */
  lemma HostResolves(r: Resolver, host: string, port: string, node: DependencyNode)
    requires PlainName(host) && Numeric(port)
    ensures r.Resolve(host) == Resolved(node, KIND_SERVICE) <==> r.LookupDNS(host) == Some(node)
    ensures r.Resolve(host + ":" + port) == Resolved(node, KIND_SERVICE) <==> r.LookupDNS(host) == Some(node)
  {
    NoPort(host);
    AddressResolves(r, host, HostPort(host, ""), node);
    PortTrimmed(host, port);
    PlainSplit(host, port);
    AddressResolves(r, host + ":" + port, HostPort(host, port), node);
  }

  lemma PortTrimmed(host: string, port: string)
    requires PlainName(host) && Numeric(port)
    ensures Trimmed(host + ":" + port)
  {
  }

  lemma FormsPlain(name: string, namespace: string)
    requires PlainName(name) && PlainName(namespace)
    ensures PlainName(name + "." + namespace) && PlainName(name + "." + namespace + SVC_SUFFIX)
  {
    var short := name + "." + namespace;
    assert short[0] == name[0];
    assert forall c | c in SVC_SUFFIX :: !IsSpace(c) && c != ':';
  }

  /** A registered name with its namespace label leads to its node. Every other way of writing its address leads to
      the same node exactly when the first two labels of the name are read back, as they are for a dot-free name. */
  lemma AddressFormsAgree(r: Resolver, name: string, namespace: string, port: string)
    requires PlainName(name) && PlainName(namespace) && '.' !in namespace && Numeric(port)
    requires JoinKey(namespace, name) in r.services
    ensures
      var here := Resolved(r.InClusterNode(namespace, name), KIND_SERVICE);
      && r.ResolveEndpoint(name, namespace) == here
      && (r.Resolve(name + "." + namespace) == here <==> ReadBack(r, name, namespace))
      && (r.Resolve(name + "." + namespace + ":" + port) == here <==> ReadBack(r, name, namespace))
      && (r.Resolve(name + "." + namespace + SVC_SUFFIX) == here <==> ReadBack(r, name, namespace))
      && (r.Resolve(name + "." + namespace + SVC_SUFFIX + ":" + port) == here <==> ReadBack(r, name, namespace))
    ensures '.' !in name ==> ReadBack(r, name, namespace)
  {
    var node := r.InClusterNode(namespace, name);
    FormsPlain(name, namespace);
    ShortLookup(r, name, namespace);
    FullLookup(r, name, namespace);
    HostResolves(r, name + "." + namespace, port, node);
    HostResolves(r, name + "." + namespace + SVC_SUFFIX, port, node);
    if '.' !in name { SplitWhole(name, '.'); }
  }

  /** It fails for a dotted workload name: the short address of a.b in ns is not found in the cluster. */
  lemma DottedNameLost(r: Resolver)
    requires Built(r, "c", [Plain("a.b", [])])
    ensures r.ResolveEndpoint("a.b", "ns").node == DependencyNode("c", "ns", "a.b", false)
    ensures r.Resolve("a.b" + "." + "ns") != r.ResolveEndpoint("a.b", "ns")
  {
    var apps := [Plain("a.b", [])];
    assert Claims(apps[0], JoinKey("ns", "a.b"));
    assert LastClaimWins(r.services, apps, JoinKey("ns", "a.b"));
    assert DigitsValue("8") == 8;
    AddressFormsAgree(r, "a.b", "ns", "8");
    QualifiedSplits("a", "b");
    assert "a" + "." + "b" == "a.b";
    assert Split("a.b", '.')[1] == "b";
  }
}
