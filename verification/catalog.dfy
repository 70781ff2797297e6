/** The catalog snapshot: what the collector builds, the overlay enriches and the API serves. */
module Catalog {
  import opened Text

  datatype DependencyNode = DependencyNode(cluster: string, namespace: string, service: string, external: bool)

  datatype DependencyEdge = DependencyEdge(
    source: DependencyNode, target: DependencyNode, kind: string, origin: string, details: string)

  datatype KafkaTopicRef = KafkaTopicRef(name: string, direction: string, source: string)

  datatype DatabaseRef = DatabaseRef(system: string, name: string, source: string)

  datatype ServicePort = ServicePort(name: string, port: int, targetPort: string, protocol: string)

  datatype APIDocInfo = APIDocInfo(
    port: int, path: string, url: string, externallyAvailable: bool, externalURL: string)

  datatype RouteRef = RouteRef(
    name: string, kind: string, hosts: seq<string>, pathPrefixes: seq<string>,
    entryPoints: seq<string>, tls: bool, annotations: map<string, string>)

  datatype ReachabilityResult = ReachabilityResult(
    host: string, url: string, status: string, statusCode: int, expected: string, reason: string)

  datatype ServiceRef = ServiceRef(
    name: string, kind: string, clusterIP: string, ports: seq<ServicePort>,
    externalHosts: seq<string>, routes: seq<RouteRef>, apiDocs: seq<APIDocInfo>,
    reachability: seq<ReachabilityResult>)

  /** Repository and deployment source, as the GitOps resolver attributes them. */
  datatype Attribution = Attribution(deploymentSource: Option<string>, repoURLs: seq<string>)

  datatype ApplicationEntry = ApplicationEntry(
    cluster: string, namespace: string, name: string, kind: string, capabilityID: string,
    replicas: int, readyReplicas: int, attribution: Attribution,
    services: seq<ServiceRef>, kafkaTopics: seq<KafkaTopicRef>, databases: seq<DatabaseRef>,
    runtime: string, requestRate: real, errorRate: real,
    labels: map<string, string>, annotations: map<string, string>)

  /** Everything about an application that the telemetry overlay must leave alone. */
  function Identity(app: ApplicationEntry): ApplicationEntry {
    app.(kafkaTopics := [], databases := [], runtime := "", requestRate := 0.0, errorRate := 0.0)
  }

  /** Go's map lookup on string maps: a missing key reads as "". */
  function Label(m: map<string, string>, key: string): string {
    if key in m then m[key] else ""
  }

  /** "namespace/name", the join key used throughout. */
  function JoinKey(namespace: string, name: string): string { namespace + "/" + name }

  predicate SlashFree(s: string) { '/' !in s }

  /** Namespaces, workloads and services are named without '/', as Kubernetes guarantees. */
  predicate SlashFreeNames(apps: seq<ApplicationEntry>) {
    forall i | 0 <= i < |apps| ::
      SlashFree(apps[i].namespace) && SlashFree(apps[i].name) &&
      forall j | 0 <= j < |apps[i].services| :: SlashFree(apps[i].services[j].name)
  }
}
