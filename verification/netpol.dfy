/** Declared dependencies: one edge per workload that a NetworkPolicy selects and per egress target. */
module NetworkPolicies {
  import opened Text
  import opened Sequences
  import opened Catalog
  import opened Scanning
  import opened Collecting

  const NETWORK_POLICY := "network_policy"

  /** An empty pod selector selects every pod of the namespace. */
  predicate PodSelectorMatches(selector: map<string, string>, labels: map<string, string>) {
    selector == map[] || SelectorMatches(selector, labels)
  }

  function PolicyEdge(cluster: string, np: NetworkPolicyInfo, w: WorkloadInfo, target: string): DependencyEdge {
    DependencyEdge(DependencyNode(cluster, np.namespace, w.name, false), DependencyNode("", "", target, true),
                   NETWORK_POLICY, NETWORK_POLICY, np.name)
  }

  function PolicyEdgeKey(e: DependencyEdge): string {
    e.source.namespace + "/" + (e.source.service + "|" + e.target.service)
  }

  predicate Selected(np: NetworkPolicyInfo, w: WorkloadInfo) {
    w.namespace == np.namespace && PodSelectorMatches(np.podSelector, w.podLabels.GetOr(map[]))
  }

  function ToTarget(cluster: string, np: NetworkPolicyInfo, w: WorkloadInfo): string -> DependencyEdge {
    (target: string) => PolicyEdge(cluster, np, w, target)
  }

  /** The edges a policy declares for one workload. */
  function EdgesFor(cluster: string, np: NetworkPolicyInfo): WorkloadInfo -> seq<DependencyEdge> {
    (w: WorkloadInfo) => if Selected(np, w) then Map(ToTarget(cluster, np, w), np.egressTargets) else []
  }

  function EdgesOf(cluster: string, ws: seq<WorkloadInfo>): NetworkPolicyInfo -> seq<DependencyEdge> {
    (np: NetworkPolicyInfo) => Flatten(Map(EdgesFor(cluster, np), ws))
  }

  /** The declared edges, policy by policy, first occurrence of each key. */
  function PolicyEdges(cluster: string, scan: Scan): seq<DependencyEdge> {
    DedupBy(PolicyEdgeKey, Flatten(Map(EdgesOf(cluster, scan.workloads), scan.netPolicies)))
  }

  /** Edges collected so far; `seen` holds their keys. */
  ghost predicate Tracks(seen: set<string>, edges: seq<DependencyEdge>) {
    seen == set e | e in edges :: PolicyEdgeKey(e)
  }

  method AddPolicyEdge(edge: DependencyEdge, seen: set<string>, edges: seq<DependencyEdge>)
    returns (seen': set<string>, edges': seq<DependencyEdge>)
    requires Tracks(seen, edges)
    ensures Tracks(seen', edges') && edges' == AddBy(PolicyEdgeKey, edges, edge)
  {
    var key := PolicyEdgeKey(edge);
    if key in seen { return seen, edges; }
    return seen + {key}, edges + [edge];
  }

  method AddPolicyEdges(cluster: string, np: NetworkPolicyInfo, w: WorkloadInfo, seen: set<string>,
                        edges: seq<DependencyEdge>)
    returns (seen': set<string>, edges': seq<DependencyEdge>)
    requires Tracks(seen, edges)
    ensures Tracks(seen', edges')
    ensures edges' == AddAllBy(PolicyEdgeKey, edges, Map(ToTarget(cluster, np, w), np.egressTargets))
  {
    seen', edges' := seen, edges;
    for k := 0 to |np.egressTargets|
      invariant Tracks(seen', edges')
      invariant edges' == AddAllBy(PolicyEdgeKey, edges, Map(ToTarget(cluster, np, w), np.egressTargets[..k]))
    {
      GrowMapped(PolicyEdgeKey, edges, ToTarget(cluster, np, w), np.egressTargets, k);
      seen', edges' := AddPolicyEdge(PolicyEdge(cluster, np, w, np.egressTargets[k]), seen', edges');
    }
    assert np.egressTargets[..|np.egressTargets|] == np.egressTargets;
  }

  method AddPolicy(cluster: string, np: NetworkPolicyInfo, ws: seq<WorkloadInfo>, seen: set<string>,
                   edges: seq<DependencyEdge>)
    returns (seen': set<string>, edges': seq<DependencyEdge>)
    requires Tracks(seen, edges)
    ensures Tracks(seen', edges')
    ensures edges' == AddAllBy(PolicyEdgeKey, edges, EdgesOf(cluster, ws)(np))
  {
    seen', edges' := seen, edges;
    for k := 0 to |ws|
      invariant Tracks(seen', edges')
      invariant edges' == AddAllBy(PolicyEdgeKey, edges, Flatten(Map(EdgesFor(cluster, np), ws[..k])))
    {
      GrowFlat(PolicyEdgeKey, edges, EdgesFor(cluster, np), ws, k);
      if !Selected(np, ws[k]) { continue; }
      seen', edges' := AddPolicyEdges(cluster, np, ws[k], seen', edges');
    }
    assert ws[..|ws|] == ws;
  }

  method BuildNetworkPolicyEdges(cluster: string, scan: Scan) returns (edges: seq<DependencyEdge>)
    ensures edges == PolicyEdges(cluster, scan)
  {
    edges := [];
    var seen: set<string> := {};
    for k := 0 to |scan.netPolicies|
      invariant Tracks(seen, edges)
      invariant edges == DedupBy(PolicyEdgeKey, Flatten(Map(EdgesOf(cluster, scan.workloads), scan.netPolicies[..k])))
    {
      GrowFlat(PolicyEdgeKey, [], EdgesOf(cluster, scan.workloads), scan.netPolicies, k);
      seen, edges := AddPolicy(cluster, scan.netPolicies[k], scan.workloads, seen, edges);
    }
    assert scan.netPolicies[..|scan.netPolicies|] == scan.netPolicies;
  }

  // -------------------------------------------------------------- schedule independence

  function SourceNs(e: DependencyEdge): string { e.source.namespace }

  lemma PolicyEdgeNamespace(cluster: string, ws: seq<WorkloadInfo>, np: NetworkPolicyInfo, e: DependencyEdge)
    requires e in EdgesOf(cluster, ws)(np)
    ensures e.source.namespace == np.namespace
  {
    FlattenIn(Map(EdgesFor(cluster, np), ws), e);
    var i :| 0 <= i < |ws| && e in EdgesFor(cluster, np)(ws[i]);
  }

  /** A policy sees the workloads of its own namespace only. */
  lemma EdgesOfLocal(cluster: string, a: seq<WorkloadInfo>, b: seq<WorkloadInfo>, np: NetworkPolicyInfo)
    requires SameByNamespace(WorkloadNs, a, b)
    ensures EdgesOf(cluster, a)(np) == EdgesOf(cluster, b)(np)
  {
    var p := InNamespace(WorkloadNs, np.namespace);
    forall w: WorkloadInfo | !p(w) ensures EdgesFor(cluster, np)(w) == [] {
      assert p(w) == (WorkloadNs(w) == np.namespace);
    }
    FlattenSkip(EdgesFor(cluster, np), p, a);
    FlattenSkip(EdgesFor(cluster, np), p, b);
  }

  /** The candidate edges of one namespace come from the policies of that namespace. */
  lemma {:induction false} CandidatesOfNamespace(cluster: string, ws: seq<WorkloadInfo>,
                                                 policies: seq<NetworkPolicyInfo>, ns: string)
    ensures Filter(InNamespace(SourceNs, ns), Flatten(Map(EdgesOf(cluster, ws), policies))) ==
            Flatten(Map(EdgesOf(cluster, ws), Filter(InNamespace(PolicyNs, ns), policies)))
  {
    if policies != [] {
      var n := |policies| - 1;
      var np, front := policies[n], policies[..n];
      var f, p, q := EdgesOf(cluster, ws), InNamespace(SourceNs, ns), InNamespace(PolicyNs, ns);
      CandidatesOfNamespace(cluster, ws, front, ns);
      assert policies == front + [np];
      FlattenMapSnoc(f, front, np);
      FilterAppend(p, Flatten(Map(f, front)), f(np));
      OnePolicy(cluster, ws, np, ns);
      FlattenMapSnoc(f, Filter(q, front), np);
    }
  }

  lemma OnePolicy(cluster: string, ws: seq<WorkloadInfo>, np: NetworkPolicyInfo, ns: string)
    ensures Filter(InNamespace(SourceNs, ns), EdgesOf(cluster, ws)(np)) ==
            if InNamespace(PolicyNs, ns)(np) then EdgesOf(cluster, ws)(np) else []
  {
    var f, p, q := EdgesOf(cluster, ws), InNamespace(SourceNs, ns), InNamespace(PolicyNs, ns);
    forall e | e in f(np) ensures p(e) == q(np) {
      PolicyEdgeNamespace(cluster, ws, np, e);
      assert p(e) == (SourceNs(e) == ns) && q(np) == (PolicyNs(np) == ns);
    }
    if q(np) { FilterAll(p, f(np)); } else { FilterNone(p, f(np)); }
  }

  lemma PolicyEdgesOfNamespace(cluster: string, scan: Scan, ns: string)
    requires forall np | np in scan.netPolicies :: SlashFree(np.namespace)
    ensures Filter(InNamespace(SourceNs, ns), PolicyEdges(cluster, scan)) ==
            DedupBy(PolicyEdgeKey,
                    Flatten(Map(EdgesOf(cluster, scan.workloads), Filter(InNamespace(PolicyNs, ns), scan.netPolicies))))
  {
    var f, p := EdgesOf(cluster, scan.workloads), InNamespace(SourceNs, ns);
    var all := Flatten(Map(f, scan.netPolicies));
    forall e | e in all ensures SlashFree(e.source.namespace) {
      FlattenIn(Map(f, scan.netPolicies), e);
      var i :| 0 <= i < |scan.netPolicies| && e in f(scan.netPolicies[i]);
      PolicyEdgeNamespace(cluster, scan.workloads, scan.netPolicies[i], e);
      assert scan.netPolicies[i] in scan.netPolicies;
    }
    forall d, e | d in [] + all && e in [] + all && PolicyEdgeKey(d) == PolicyEdgeKey(e) ensures p(d) == p(e) {
      KeyInjective(d.source.namespace, d.source.service + "|" + d.target.service,
                   e.source.namespace, e.source.service + "|" + e.target.service, '/');
      assert p(d) == (SourceNs(d) == ns) && p(e) == (SourceNs(e) == ns);
    }
    FilterDedup(p, PolicyEdgeKey, [], all);
    CandidatesOfNamespace(cluster, scan.workloads, scan.netPolicies, ns);
  }

  /** However the namespaces were interleaved, the declared edges of each namespace are the same list. */
  lemma PolicyEdgesIndependent(cluster: string, a: Scan, b: Scan)
    requires SameScan(a, b)
    requires forall np | np in a.netPolicies || np in b.netPolicies :: SlashFree(np.namespace)
    ensures SameByNamespace(SourceNs, PolicyEdges(cluster, a), PolicyEdges(cluster, b))
    ensures multiset(PolicyEdges(cluster, a)) == multiset(PolicyEdges(cluster, b))
  {
    forall ns
      ensures Filter(InNamespace(SourceNs, ns), PolicyEdges(cluster, a)) ==
              Filter(InNamespace(SourceNs, ns), PolicyEdges(cluster, b))
    {
      PolicyEdgesOfNamespace(cluster, a, ns);
      PolicyEdgesOfNamespace(cluster, b, ns);
      var policies := Filter(InNamespace(PolicyNs, ns), a.netPolicies);
      assert policies == Filter(InNamespace(PolicyNs, ns), b.netPolicies);
      forall np ensures EdgesOf(cluster, a.workloads)(np) == EdgesOf(cluster, b.workloads)(np) {
        EdgesOfLocal(cluster, a.workloads, b.workloads, np);
      }
      MapCongruent(EdgesOf(cluster, a.workloads), EdgesOf(cluster, b.workloads), policies);
    }
    SameByNamespaceMultiset(SourceNs, PolicyEdges(cluster, a), PolicyEdges(cluster, b));
  }

  // ------------------------------------------------------------- what policies declare

  /** The policy selects the workload: they share a namespace, and the pod selector is empty or each of its pairs reads
      back in the pod labels, of which there is at least one. */
  ghost predicate Governs(np: NetworkPolicyInfo, w: WorkloadInfo) {
    w.namespace == np.namespace &&
    (np.podSelector == map[] ||
     exists labels :: w.podLabels == Some(labels) && labels != map[] &&
       forall k | k in np.podSelector :: np.podSelector[k] == if k in labels then labels[k] else "")
  }

  /** The policy declares this edge: from a workload it selects to one of its egress targets. */
  ghost predicate DeclaredBy(cluster: string, ws: seq<WorkloadInfo>, np: NetworkPolicyInfo, e: DependencyEdge) {
    exists w, target ::
      w in ws && target in np.egressTargets && Governs(np, w) &&
      e == DependencyEdge(DependencyNode(cluster, np.namespace, w.name, false), DependencyNode("", "", target, true),
                          "network_policy", "network_policy", np.name)
  }

  ghost predicate Declares(cluster: string, scan: Scan, e: DependencyEdge) {
    exists np :: np in scan.netPolicies && DeclaredBy(cluster, scan.workloads, np, e)
  }

  lemma SelectedGoverns(np: NetworkPolicyInfo, w: WorkloadInfo)
    ensures Selected(np, w) <==> Governs(np, w)
  {
    if Selected(np, w) && w.podLabels.Some? { assert w.podLabels == Some(w.podLabels.value); }
  }

  lemma EdgeForWorkload(cluster: string, np: NetworkPolicyInfo, w: WorkloadInfo, e: DependencyEdge)
    ensures e in EdgesFor(cluster, np)(w) <==>
            Governs(np, w) && exists target :: target in np.egressTargets && e == PolicyEdge(cluster, np, w, target)
  {
    SelectedGoverns(np, w);
    if e in EdgesFor(cluster, np)(w) {
      var k :| 0 <= k < |np.egressTargets| && Map(ToTarget(cluster, np, w), np.egressTargets)[k] == e;
      assert e == PolicyEdge(cluster, np, w, np.egressTargets[k]);
    }
    if target :| target in np.egressTargets && e == PolicyEdge(cluster, np, w, target) && Governs(np, w) {
      var k :| 0 <= k < |np.egressTargets| && np.egressTargets[k] == target;
      assert Map(ToTarget(cluster, np, w), np.egressTargets)[k] == e;
    }
  }

  lemma EdgeOfPolicy(cluster: string, ws: seq<WorkloadInfo>, np: NetworkPolicyInfo, e: DependencyEdge)
    ensures e in EdgesOf(cluster, ws)(np) <==> DeclaredBy(cluster, ws, np, e)
  {
    FlattenMapIn(EdgesFor(cluster, np), ws, e);
    forall w: WorkloadInfo { EdgeForWorkload(cluster, np, w, e); }
  }

  lemma AllDeclared(cluster: string, scan: Scan, e: DependencyEdge)
    ensures e in Flatten(Map(EdgesOf(cluster, scan.workloads), scan.netPolicies)) <==> Declares(cluster, scan, e)
  {
    FlattenMapIn(EdgesOf(cluster, scan.workloads), scan.netPolicies, e);
    forall np: NetworkPolicyInfo { EdgeOfPolicy(cluster, scan.workloads, np, e); }
  }

  /** The declared dependencies: every edge leads from a workload to an egress target of a policy that selects it, and
      every such pair has an edge, one for each namespace, workload name and target. */
  lemma PolicyEdgesExact(cluster: string, scan: Scan)
    ensures forall e | e in PolicyEdges(cluster, scan) :: Declares(cluster, scan, e)
    ensures forall e | Declares(cluster, scan, e) ::
              HasKey(PolicyEdgeKey, PolicyEdges(cluster, scan), PolicyEdgeKey(e))
    ensures DistinctBy(PolicyEdgeKey, PolicyEdges(cluster, scan))
  {
    var all := Flatten(Map(EdgesOf(cluster, scan.workloads), scan.netPolicies));
    AddAllByKeys(PolicyEdgeKey, [], all);
    forall e { AllDeclared(cluster, scan, e); }
    forall e | Declares(cluster, scan, e) ensures HasKey(PolicyEdgeKey, all, PolicyEdgeKey(e)) { assert e in all; }
  }

  /** The key of an edge between names without its delimiters stands for that namespace, workload name and target. */
  lemma PolicyKeyExact(e: DependencyEdge, f: DependencyEdge)
    requires SlashFree(e.source.namespace) && SlashFree(f.source.namespace)
    requires '|' !in e.source.service && '|' !in f.source.service
    ensures PolicyEdgeKey(e) == PolicyEdgeKey(f) <==>
            e.source.namespace == f.source.namespace && e.source.service == f.source.service &&
            e.target.service == f.target.service
  {
    if PolicyEdgeKey(e) == PolicyEdgeKey(f) {
      KeyInjective(e.source.namespace, e.source.service + "|" + e.target.service,
                   f.source.namespace, f.source.service + "|" + f.target.service, '/');
      KeyInjective(e.source.service, e.target.service, f.source.service, f.target.service, '|');
    }
  }
}
