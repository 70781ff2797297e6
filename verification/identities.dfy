/** Who a sample is about: the labels that name a workload, and what an address outside the cluster is taken for. */
module Identities {
  import opened Text
  import opened Catalog
  import opened Resolving

  // --------------------------------------------------------------------- workloads

  /** The labels that can name a workload, the most specific first. */
  const NAME_LABELS := ["k8s_deployment_name", "k8s_statefulset_name", "k8s_daemonset_name", "service_name", "service"]

  /** Label number `k` is the first that names the workload; no label does when `k` is past the last. */
  ghost predicate NamedBy(m: map<string, string>, k: nat) {
    && k <= |NAME_LABELS| && (forall j | 0 <= j < k :: Label(m, NAME_LABELS[j]) == "")
    && (k < |NAME_LABELS| ==> Label(m, NAME_LABELS[k]) != "")
  }

  lemma {:induction false} FirstIsNonEmpty(vals: seq<string>, k: nat)
    requires k < |vals| && vals[k] != "" && forall j | 0 <= j < k :: vals[j] == ""
    ensures FirstNonEmpty(vals) == vals[k]
  {
    if k > 0 {
      assert vals[1..][k - 1] == vals[k];
      FirstIsNonEmpty(vals[1..], k - 1);
    }
  }

  /** The name that the labels give a workload. */
  function NameAt(m: map<string, string>, k: nat): string { if k < |NAME_LABELS| then Label(m, NAME_LABELS[k]) else "" }

  lemma ClientName(m: map<string, string>, k: nat)
    requires NamedBy(m, k)
    ensures
      var name := FirstNonEmpty([Label(m, "k8s_deployment_name"), Label(m, "k8s_statefulset_name"),
                                 Label(m, "k8s_daemonset_name"), Label(m, "service_name")]);
      NameAt(m, k) == if name != "" then name else Label(m, "service")
  {
    var vals := [Label(m, "k8s_deployment_name"), Label(m, "k8s_statefulset_name"), Label(m, "k8s_daemonset_name"),
                 Label(m, "service_name")];
    assert forall j | 0 <= j < 4 :: vals[j] == Label(m, NAME_LABELS[j]);
    if k < 4 {
      FirstIsNonEmpty(vals, k);
    } else {
      NoneNonEmpty(vals);
      assert NAME_LABELS[4] == "service" && (k == 5 ==> Label(m, NAME_LABELS[4]) == "");
    }
  }

  lemma NoneNonEmpty(vals: seq<string>)
    requires forall j | 0 <= j < |vals| :: vals[j] == ""
    ensures FirstNonEmpty(vals) == ""
  {
  }

  /** The client of a metric is the application registered under its namespace label and the first label that names a
      workload; when none is, the name is resolved like any other address. */
  lemma ClientNamed(r: Resolver, m: map<string, string>, k: nat)
    requires NamedBy(m, k)
    ensures
      var namespace := Label(m, "k8s_namespace_name");
      var key := namespace + "/" + NameAt(m, k);
      r.ResolveClient(m) ==
      if namespace != "" && key in r.services then DependencyNode(r.cluster, namespace, r.services[key], false)
      else r.Resolve(NameAt(m, k)).node
  {
    ClientName(m, k);
    assert r.ResolveClient(m) == r.ResolveEndpoint(NameAt(m, k), Label(m, "k8s_namespace_name")).node;
  }

  // --------------------------------------------------------------------- addresses

  const DATABASE_PORTS := map[
    "5432" := "postgresql", "3306" := "mysql", "6379" := "redis", "27017" := "mongodb", "1433" := "mssql",
    "9200" := "elasticsearch"]

  const QUEUE_PORTS := map["9092" := "kafka", "5672" := "rabbitmq"]

  const DATABASE_SYSTEMS := {
    "postgresql", "postgres", "mysql", "mariadb", "redis", "mongodb", "mssql", "sqlserver", "cassandra",
    "elasticsearch", "dynamodb", "cosmosdb", "oracle"}

  const QUEUE_SYSTEMS := {"kafka", "rabbitmq", "amqp", "servicebus", "sqs", "sns", "eventhub", "nservicebus"}

  lemma KnownPort(port: string)
    ensures WellKnownPort(port) == Label(DATABASE_PORTS + QUEUE_PORTS, port)
    ensures WellKnownPort(port) != "" <==> port in DATABASE_PORTS || port in QUEUE_PORTS
    ensures WellKnownPort(port) != "" ==>
            SystemKind(WellKnownPort(port)) == if port in DATABASE_PORTS then "database" else "kafka"
  {
  }

  lemma DatabasePort(port: string)
    ensures Label(DATABASE_PORTS, port) == if DatabaseSystem(WellKnownPort(port)) then WellKnownPort(port) else ""
  {
  }

  lemma KnownSystem(name: string)
    ensures DatabaseSystem(name) <==> name in DATABASE_SYSTEMS
    ensures MessagingSystem(name) <==> name in QUEUE_SYSTEMS
  {
  }

  /** What a named address outside the cluster is taken for: a system if its port or its name tells one. */
  function Outside(host: string, port: string): Resolved {
    var lower := DependencyNode("", "", ToLower(host), true);
    if port in DATABASE_PORTS ||
      (port !in QUEUE_PORTS && ToLower(host) in DATABASE_SYSTEMS) then Resolved(lower, "database")
    else if port in QUEUE_PORTS || ToLower(host) in QUEUE_SYSTEMS then Resolved(lower, "kafka")
    else Resolved(DependencyNode("", "", host, true), "external")
  }

  lemma ClassifiedOutside(host: string, port: string)
    requires !Numeric(host)
    ensures Resolver.Classify(HostPort(host, port)) == Outside(host, port)
  {
    KnownPort(port);
    KnownSystem(ToLower(host));
  }

  /** An address that names no application is outside the cluster, with or without a port. */
  lemma OutsideResolves(r: Resolver, host: string, port: string)
    requires PlainName(host) && !Numeric(host) && r.LookupDNS(host) == None && (port == "" || Numeric(port))
    ensures r.Resolve(JoinHostPort(host, port)) == Outside(host, port)
  {
    ClassifiedOutside(host, port);
    if port == "" {
      NoPort(host);
      Untrimmed(host);
    } else {
      PlainSplit(host, port);
      PortTrimmed(host, port);
      Untrimmed(host + ":" + port);
    }
  }

  lemma Untrimmed(s: string)
    requires Trimmed(s) && s != ""
    ensures TrimSpace(s) == s
  {
    TrimSpacePadded("", s, "");
    assert "" + s + "" == s;
  }

  lemma ClassifiedPort(port: string)
    requires Numeric(port)
    ensures
      Resolver.Classify(HostPort(port, "")) ==
      if port in DATABASE_PORTS then Resolved(DependencyNode("", "", DATABASE_PORTS[port], true), "database")
      else if port in QUEUE_PORTS then Resolved(DependencyNode("", "", QUEUE_PORTS[port], true), "kafka")
      else Resolved(DependencyNode("", "", port, true), "external")
  {
    KnownPort(port);
  }

  lemma DigitsPlain(port: string)
    requires AllDigits(port)
    ensures PlainName(port) && '.' !in port
  {
    assert port[0] in port;
    assert forall c | c in port :: IsDigit(c);
  }

  /** An address that is only a port is taken for the system behind it, if one is known. */
  lemma PortResolves(r: Resolver, port: string)
    requires AllDigits(port) && Numeric(port)
    ensures
      r.Resolve(port) ==
      if port in DATABASE_PORTS then Resolved(DependencyNode("", "", DATABASE_PORTS[port], true), "database")
      else if port in QUEUE_PORTS then Resolved(DependencyNode("", "", QUEUE_PORTS[port], true), "kafka")
      else Resolved(DependencyNode("", "", port, true), "external")
  {
    DigitsPlain(port);
    Unlabelled(r, port);
    ClassifiedPort(port);
  }

  lemma Unlabelled(r: Resolver, id: string)
    requires PlainName(id) && '.' !in id
    ensures r.Resolve(id) == Resolver.Classify(HostPort(id, ""))
  {
    NoPort(id);
    Untrimmed(id);
    NoLabels(id);
  }

  /** Changing the case keeps the letters and leaves none of the other case. */
  lemma CaseChanged(s: string)
    ensures SameLetters(s, ToLower(s)) && forall c | c in ToLower(s) :: !('A' <= c <= 'Z')
    ensures SameLetters(ToUpper(s), s) || exists c :: c in s && 'A' <= c <= 'Z'
    ensures SameLetters(ToUpper(s), ToLower(s)) && forall c | c in ToUpper(s) :: !('a' <= c <= 'z')
  {
  }
}
