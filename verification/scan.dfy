/** One cluster scan: namespaces are scanned concurrently and merged under a lock, in any order. */
module Scanning {
  import opened Text
  import opened Sequences
  import opened Catalog

  datatype ServiceInfo = ServiceInfo(
    namespace: string, name: string, kind: string, clusterIP: string,
    selector: map<string, string>, ports: seq<ServicePort>)

  /** `podLabels` is None when the pod template has no labels at all. */
  datatype WorkloadInfo = WorkloadInfo(
    namespace: string, name: string, kind: string, replicas: int, readyReplicas: int,
    selector: map<string, string>, podLabels: Option<map<string, string>>,
    labels: map<string, string>, annotations: map<string, string>)

  datatype IngressPath = IngressPath(host: string, path: string)

  datatype IngressInfo = IngressInfo(
    namespace: string, name: string, serviceHosts: map<string, seq<string>>,
    serviceRoutes: map<string, seq<IngressPath>>, annotations: map<string, string>)

  datatype IngressRouteRule = IngressRouteRule(hosts: seq<string>, pathPrefixes: seq<string>, services: seq<string>)

  datatype IngressRouteInfo = IngressRouteInfo(
    namespace: string, name: string, entryPoints: seq<string>, tls: bool,
    annotations: map<string, string>, routes: seq<IngressRouteRule>)

  datatype NetworkPolicyInfo = NetworkPolicyInfo(
    namespace: string, name: string, podSelector: map<string, string>, egressTargets: seq<string>)

  /** What is listed namespace by namespace. */
  datatype Scan = Scan(
    services: seq<ServiceInfo>, workloads: seq<WorkloadInfo>,
    ingresses: seq<IngressInfo>, netPolicies: seq<NetworkPolicyInfo>)

  datatype Snapshot = Snapshot(namespaces: seq<string>, scan: Scan, ingressRoutes: seq<IngressRouteInfo>)

  // ---------------------------------------------------------------- namespace scope

  datatype Scope = Scope(included: set<string>, excluded: set<string>) {
    /** An include list takes precedence over an exclude list. */
    predicate ShouldScan(name: string) {
      if included != {} then name in included else name !in excluded
    }
  }

  function InScope(scope: Scope): string -> bool { (name: string) => scope.ShouldScan(name) }

  // ------------------------------------------------------------------- ListResources

  function Append(a: Scan, b: Scan): Scan {
    Scan(a.services + b.services, a.workloads + b.workloads, a.ingresses + b.ingresses, a.netPolicies + b.netPolicies)
  }

  const EMPTY_SCAN := Scan([], [], [], [])

  /** The merge of the scans in the order in which they took the lock. */
  function Merged(scans: seq<Scan>): Scan {
    if scans == [] then EMPTY_SCAN else Append(Merged(scans[..|scans| - 1]), scans[|scans| - 1])
  }

  function At<T>(s: seq<T>, order: seq<nat>): (r: seq<T>)
    requires forall k | 0 <= k < |order| :: order[k] < |s|
    ensures |r| == |order| && forall k | 0 <= k < |order| :: r[k] == s[order[k]]
  {
    if order == [] then [] else At(s, order[..|order| - 1]) + [s[order[|order| - 1]]]
  }

  /** Every position below `n`, each once. */
  ghost predicate Schedule(order: seq<nat>, n: nat) {
    && (forall k | 0 <= k < |order| :: order[k] < n)
    && (forall i, j | 0 <= i < j < |order| :: order[i] != order[j])
    && (forall i | 0 <= i < n :: i in order)
  }

  /** Scan the named namespaces concurrently. Whatever order the scans finish in, the result is their merge
      in that order; one failed scan fails the whole. */
  method ScanAll(names: seq<string>, scan: string -> Option<Scan>) returns (merged: Option<Scan>, ghost order: seq<nat>)
    ensures merged == None <==> exists k :: 0 <= k < |names| && scan(names[k]) == None
    ensures merged.Some? ==> Schedule(order, |names|) && merged.value == Merged(At(Scans(names, scan), order))
  {
    order := [];
    var snapshot := EMPTY_SCAN;
    var pending: set<nat> := {};
    for k := 0 to |names|
      invariant forall i :: i in pending <==> 0 <= i < k
    {
      pending := pending + {k};
    }
    var failed := false;
    while pending != {}
      invariant forall k | k in pending :: 0 <= k < |names|
      invariant failed <==> exists k :: 0 <= k < |names| && k !in pending && scan(names[k]) == None
      invariant !failed ==> Completed(order, pending, |names|) && snapshot == Merged(At(Scans(names, scan), order))
      decreases pending
    {
      var k :| k in pending;
      match scan(names[k]) {
        case None => failed := true;
        case Some(local) =>
          if !failed {
            MergeStep(Scans(names, scan), order, k);
            CompletedStep(order, pending, |names|, k);
            order := order + [k];
            snapshot := Append(snapshot, local);
          }
      }
      pending := pending - {k};
    }
    merged := if failed then None else Some(snapshot);
  }

  lemma MergeStep(scans: seq<Scan>, order: seq<nat>, k: nat)
    requires (forall i | 0 <= i < |order| :: order[i] < |scans|) && k < |scans|
    ensures Merged(At(scans, order + [k])) == Append(Merged(At(scans, order)), scans[k])
  {
  }

  lemma CompletedStep(order: seq<nat>, pending: set<nat>, n: nat, k: nat)
    requires Completed(order, pending, n) && k in pending && k < n
    ensures Completed(order + [k], pending - {k}, n)
  {
  }

  function Scans(names: seq<string>, scan: string -> Option<Scan>): seq<Scan> {
    Map((name: string) => scan(name).GetOr(EMPTY_SCAN), names)
  }

  /** List the namespaces, scan those in scope, and add the cluster-wide IngressRoutes. If the listing or any
      one scan fails there is no snapshot at all. */
  /** The namespaces that are scanned: those asked for by name, or, when none are, those not excluded; in order. */
  lemma ScopeExact(scope: Scope, names: seq<string>, n: string)
    ensures scope.included != {} ==> (n in Filter(InScope(scope), names) <==> n in names && n in scope.included)
    ensures scope.included == {} ==> (n in Filter(InScope(scope), names) <==> n in names && n !in scope.excluded)
  {
    FilterIn(InScope(scope), names, n);
  }

  method ListResources(scope: Scope, listing: Option<seq<string>>, scan: string -> Option<Scan>,
                       ingressRoutes: seq<IngressRouteInfo>)
    returns (snapshot: Option<Snapshot>, ghost order: seq<nat>)
    ensures listing == None ==> snapshot == None
    ensures listing.Some? ==>
              var names := Filter(InScope(scope), listing.value);
              && (snapshot == None <==> exists k :: 0 <= k < |names| && scan(names[k]) == None)
              && (snapshot.Some? ==>
                    Schedule(order, |names|) &&
                    snapshot.value == Snapshot(names, Merged(At(Scans(names, scan), order)), ingressRoutes))
  {
    if listing == None { return None, []; }
    var names := [];
    for k := 0 to |listing.value|
      invariant names == Filter(InScope(scope), listing.value[..k])
    {
      assert listing.value[..k + 1][..k] == listing.value[..k];
      if scope.ShouldScan(listing.value[k]) { names := names + [listing.value[k]]; }
    }
    assert listing.value[..|listing.value|] == listing.value;
    var merged;
    merged, order := ScanAll(names, scan);
    snapshot := if merged == None then None else Some(Snapshot(names, merged.value, ingressRoutes));
  }

  ghost predicate Completed(order: seq<nat>, pending: set<nat>, n: nat) {
    && (forall k | 0 <= k < |order| :: order[k] < n && order[k] !in pending)
    && (forall i, j | 0 <= i < j < |order| :: order[i] != order[j])
    && (forall i | 0 <= i < n && i !in pending :: i in order)
  }

  // -------------------------------------------------------------- schedule independence

  function InNamespace<T>(nsOf: T -> string, namespace: string): T -> bool {
    (x: T) => nsOf(x) == namespace
  }

  /** Two listings hold the same items, in the same order within each namespace. */
  ghost predicate SameByNamespace<T>(nsOf: T -> string, a: seq<T>, b: seq<T>) {
    forall namespace :: Filter(InNamespace(nsOf, namespace), a) == Filter(InNamespace(nsOf, namespace), b)
  }

  lemma SameByNamespaceMultiset<T>(nsOf: T -> string, a: seq<T>, b: seq<T>)
    requires SameByNamespace(nsOf, a, b)
    ensures multiset(a) == multiset(b)
  {
    forall x: T | true ensures multiset(a)[x] == multiset(b)[x] {
      FilterCount(InNamespace(nsOf, nsOf(x)), a, x);
      FilterCount(InNamespace(nsOf, nsOf(x)), b, x);
    }
  }

  /** Lists that belong to one namespace each. */
  ghost predicate Partitioned<T>(nsOf: T -> string, names: seq<string>, parts: seq<seq<T>>) {
    && |parts| == |names| && (forall i, j | 0 <= i < j < |names| :: names[i] != names[j])
    && (forall i | 0 <= i < |parts| :: forall x | x in parts[i] :: nsOf(x) == names[i])
  }

  lemma MergeLast<T>(nsOf: T -> string, names: seq<string>, parts: seq<seq<T>>, order: seq<nat>, namespace: string)
    requires Partitioned(nsOf, names, parts) && order != []
    requires forall k | 0 <= k < |order| :: order[k] < |parts|
    ensures
      var k := order[|order| - 1];
      Filter(InNamespace(nsOf, namespace), Flatten(At(parts, order))) ==
      Filter(InNamespace(nsOf, namespace), Flatten(At(parts, order[..|order| - 1]))) +
        (if names[k] == namespace then parts[k] else [])
  {
    var p, k := InNamespace(nsOf, namespace), order[|order| - 1];
    var front := At(parts, order[..|order| - 1]);
    assert At(parts, order) == front + [parts[k]];
    FlattenSnoc(front, parts[k]);
    FilterAppend(p, Flatten(front), parts[k]);
    if names[k] == namespace { FilterAll(p, parts[k]); } else { FilterNone(p, parts[k]); }
  }

  lemma {:induction false} MergeAbsent<T>(nsOf: T -> string, names: seq<string>, parts: seq<seq<T>>, order: seq<nat>,
                                          namespace: string)
    requires Partitioned(nsOf, names, parts)
    requires forall k | 0 <= k < |order| :: order[k] < |parts| && names[order[k]] != namespace
    ensures Filter(InNamespace(nsOf, namespace), Flatten(At(parts, order))) == []
  {
    if order != [] {
      MergeLast(nsOf, names, parts, order, namespace);
      MergeAbsent(nsOf, names, parts, order[..|order| - 1], namespace);
    }
  }

  /** Merging the lists of distinct namespaces, in any order, leaves each namespace its own list. */
  lemma {:induction false} MergePresent<T>(nsOf: T -> string, names: seq<string>, parts: seq<seq<T>>, order: seq<nat>,
                                           j: nat)
    requires Partitioned(nsOf, names, parts) && j < |order|
    requires forall k | 0 <= k < |order| :: order[k] < |parts|
    requires forall i, k | 0 <= i < k < |order| :: order[i] != order[k]
    ensures Filter(InNamespace(nsOf, names[order[j]]), Flatten(At(parts, order))) == parts[order[j]]
  {
    var m, namespace := |order| - 1, names[order[j]];
    MergeLast(nsOf, names, parts, order, namespace);
    if j == m {
      MergeAbsent(nsOf, names, parts, order[..m], namespace);
    } else {
      MergePresent(nsOf, names, parts, order[..m], j);
    }
  }

  /** Any two schedules agree namespace by namespace. */
  lemma SchedulesAgree<T>(nsOf: T -> string, names: seq<string>, parts: seq<seq<T>>, a: seq<nat>, b: seq<nat>)
    requires Partitioned(nsOf, names, parts) && Schedule(a, |parts|) && Schedule(b, |parts|)
    ensures SameByNamespace(nsOf, Flatten(At(parts, a)), Flatten(At(parts, b)))
  {
    forall namespace
      ensures Filter(InNamespace(nsOf, namespace), Flatten(At(parts, a))) ==
              Filter(InNamespace(nsOf, namespace), Flatten(At(parts, b)))
    {
      if k: nat :| k < |names| && names[k] == namespace {
        assert k in a && k in b;
        var i: nat :| i < |a| && a[i] == k;
        var j: nat :| j < |b| && b[j] == k;
        MergePresent(nsOf, names, parts, a, i);
        MergePresent(nsOf, names, parts, b, j);
      } else {
        MergeAbsent(nsOf, names, parts, a, namespace);
        MergeAbsent(nsOf, names, parts, b, namespace);
      }
    }
  }

  function ServiceNs(s: ServiceInfo): string { s.namespace }
  function WorkloadNs(w: WorkloadInfo): string { w.namespace }
  function IngressNs(i: IngressInfo): string { i.namespace }
  function PolicyNs(p: NetworkPolicyInfo): string { p.namespace }

  /** A namespaced listing returns objects of that namespace only. */
  ghost predicate Local(scan: Scan, namespace: string) {
    && (forall x | x in scan.services :: x.namespace == namespace)
    && (forall x | x in scan.workloads :: x.namespace == namespace)
    && (forall x | x in scan.ingresses :: x.namespace == namespace)
    && (forall x | x in scan.netPolicies :: x.namespace == namespace)
  }

  /** Two scans differ at most in how the namespaces are interleaved. */
  ghost predicate SameScan(a: Scan, b: Scan) {
    && SameByNamespace(ServiceNs, a.services, b.services)
    && SameByNamespace(WorkloadNs, a.workloads, b.workloads)
    && SameByNamespace(IngressNs, a.ingresses, b.ingresses)
    && SameByNamespace(PolicyNs, a.netPolicies, b.netPolicies)
  }

  function ServicesOf(s: Scan): seq<ServiceInfo> { s.services }
  function WorkloadsOf(s: Scan): seq<WorkloadInfo> { s.workloads }
  function IngressesOf(s: Scan): seq<IngressInfo> { s.ingresses }
  function PoliciesOf(s: Scan): seq<NetworkPolicyInfo> { s.netPolicies }

  lemma {:induction false} MergedParts(scans: seq<Scan>)
    ensures Merged(scans) == Scan(Flatten(Map(ServicesOf, scans)), Flatten(Map(WorkloadsOf, scans)),
                                  Flatten(Map(IngressesOf, scans)), Flatten(Map(PoliciesOf, scans)))
  {
    if scans != [] { MergedParts(scans[..|scans| - 1]); }
  }

  lemma {:induction false} MapAt<S, T>(f: S -> T, s: seq<S>, order: seq<nat>)
    requires forall k | 0 <= k < |order| :: order[k] < |s|
    ensures Map(f, At(s, order)) == At(Map(f, s), order)
  {
  }

  lemma PartsAgree<T>(part: Scan -> seq<T>, nsOf: T -> string, names: seq<string>, scans: seq<Scan>, a: seq<nat>,
                      b: seq<nat>)
    requires |scans| == |names| && forall i, j | 0 <= i < j < |names| :: names[i] != names[j]
    requires forall i | 0 <= i < |scans| :: forall x | x in part(scans[i]) :: nsOf(x) == names[i]
    requires Schedule(a, |scans|) && Schedule(b, |scans|)
    ensures SameByNamespace(nsOf, Flatten(Map(part, At(scans, a))), Flatten(Map(part, At(scans, b))))
  {
    assert Partitioned(nsOf, names, Map(part, scans));
    MapAt(part, scans, a);
    MapAt(part, scans, b);
    SchedulesAgree(nsOf, names, Map(part, scans), a, b);
  }

  /** Whatever order the scans took the lock in, the snapshots agree namespace by namespace. */
  lemma ScheduleIndependent(names: seq<string>, scans: seq<Scan>, a: seq<nat>, b: seq<nat>)
    requires |scans| == |names| && forall i, j | 0 <= i < j < |names| :: names[i] != names[j]
    requires forall i | 0 <= i < |scans| :: Local(scans[i], names[i])
    requires Schedule(a, |scans|) && Schedule(b, |scans|)
    ensures SameScan(Merged(At(scans, a)), Merged(At(scans, b)))
  {
    MergedParts(At(scans, a));
    MergedParts(At(scans, b));
    PartsAgree(ServicesOf, ServiceNs, names, scans, a, b);
    PartsAgree(WorkloadsOf, WorkloadNs, names, scans, a, b);
    PartsAgree(IngressesOf, IngressNs, names, scans, a, b);
    PartsAgree(PoliciesOf, PolicyNs, names, scans, a, b);
  }
}
