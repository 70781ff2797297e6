/** Assembly of the application entries from one scan. */
module Collecting {
  import opened Text
  import opened Sequences
  import opened Catalog
  import opened Scanning
  import opened Ingresses

  /** What the assembly takes from outside: the capability of each namespace and the GitOps attribution. */
  datatype Config = Config(
    cluster: string, capability: map<string, string>,
    resolve: (string, map<string, string>, map<string, string>) -> Attribution)

  // -------------------------------------------------------------------- selectors

  /** Selector matching as coded: a label that is absent reads as "". */
  predicate SelectorMatches(selector: map<string, string>, labels: map<string, string>) {
    selector != map[] && labels != map[] && forall k | k in selector :: Label(labels, k) == selector[k]
  }

  /** Kubernetes service-selector semantics: every pair is present in the labels. */
  predicate Selects(selector: map<string, string>, labels: map<string, string>) {
    selector != map[] && forall k | k in selector :: k in labels && labels[k] == selector[k]
  }

  /** The code agrees with Kubernetes on all label sets exactly for the selectors without an empty value. */
  lemma SelectorAgreement(selector: map<string, string>)
    ensures (forall labels :: SelectorMatches(selector, labels) == Selects(selector, labels)) <==>
            forall k | k in selector :: selector[k] != ""
  {
    if k :| k in selector && selector[k] == "" {
      var other := k + "x";
      assert |other| == |k| + 1;
      var labels := (selector - {k})[other := if other in selector then selector[other] else "x"];
      assert other in labels && k !in labels;
      assert SelectorMatches(selector, labels) && !Selects(selector, labels);
    } else {
      forall labels ensures SelectorMatches(selector, labels) == Selects(selector, labels) {
        if selector != map[] && Selects(selector, labels) {
          var k :| k in selector;
          assert k in labels;
        }
      }
    }
  }

  function PodLabels(w: WorkloadInfo): map<string, string> { w.podLabels.GetOr(w.selector) }

  /** Service `s` targets the pods of workload `w`. */
  function Targets(w: WorkloadInfo): ServiceInfo -> bool {
    (s: ServiceInfo) => s.namespace == w.namespace && SelectorMatches(s.selector, PodLabels(w))
  }

  /** Every pair of a selector reads back in the labels, a missing label reading as "". */
  predicate ReadsBack(selector: map<string, string>, labels: map<string, string>) {
    labels != map[] && forall k | k in selector :: selector[k] == if k in labels then labels[k] else ""
  }

  /** A service selects a workload of its namespace by the labels of its pods, or, when its pod template has none,
      by the workload's own selector. */
  function Reached(w: WorkloadInfo): ServiceInfo -> bool {
    (s: ServiceInfo) =>
      s.namespace == w.namespace && s.selector != map[] &&
      match w.podLabels
      case Some(labels) => ReadsBack(s.selector, labels)
      case None => ReadsBack(s.selector, w.selector)
  }

  lemma TargetsReached(w: WorkloadInfo, s: ServiceInfo)
    ensures Targets(w)(s) <==> Reached(w)(s)
  {
  }

  predicate ClaimedBy(ws: seq<WorkloadInfo>, s: ServiceInfo) {
    exists w | w in ws :: Targets(w)(s)
  }

  // ------------------------------------------------------- hosts and routes by service

  function RouteKey(r: RouteRef): string {
    r.name + "|" + (Join(r.hosts, ",") + "|" + Join(r.pathPrefixes, ","))
  }

  /** The service a joined key names in `namespace`, if it is a key of that namespace. */
  function BackendOf(namespace: string, key: string): Option<string> {
    var n := |namespace| + 1;
    if n <= |key| && key[..n] == namespace + "/" then Some(key[n..]) else None
  }

  lemma BackendOfKey(namespace: string, service: string, key: string)
    ensures key == JoinKey(namespace, service) <==> BackendOf(namespace, key) == Some(service)
  {
  }

  function IngressHosts(key: string): IngressInfo -> seq<string> {
    (ing: IngressInfo) =>
      match BackendOf(ing.namespace, key)
      case Some(svc) => Get(ing.serviceHosts, svc)
      case None => []
  }

  function IngressRef(ing: IngressInfo): IngressPath -> RouteRef {
    (p: IngressPath) =>
      RouteRef(ing.name, "Ingress", [p.host], if p.path != "" then [p.path] else [], [], false, ing.annotations)
  }

  function IngressRefs(key: string): IngressInfo -> seq<RouteRef> {
    (ing: IngressInfo) =>
      match BackendOf(ing.namespace, key)
      case Some(svc) => Map(IngressRef(ing), Get(ing.serviceRoutes, svc))
      case None => []
  }

  /** What one IngressRoute sends to a key: the hosts, and the route detail, of each rule that names it. */
  function RuleHosts(namespace: string, key: string, rule: IngressRouteRule, services: seq<string>): seq<string> {
    if services == [] then []
    else
      var n := |services| - 1;
      RuleHosts(namespace, key, rule, services[..n]) +
        (if JoinKey(namespace, services[n]) == key then rule.hosts else [])
  }

  function RuleRef(ir: IngressRouteInfo, rule: IngressRouteRule): RouteRef {
    RouteRef(ir.name, "IngressRoute", rule.hosts, rule.pathPrefixes, ir.entryPoints, ir.tls, ir.annotations)
  }

  function RuleRefs(ir: IngressRouteInfo, key: string, rule: IngressRouteRule, services: seq<string>): seq<RouteRef> {
    if services == [] then []
    else
      var n := |services| - 1;
      RuleRefs(ir, key, rule, services[..n]) +
        (if JoinKey(ir.namespace, services[n]) == key then [RuleRef(ir, rule)] else [])
  }

  function RouteHosts(ir: IngressRouteInfo, key: string, rules: seq<IngressRouteRule>): seq<string> {
    if rules == [] then []
    else
      var rule := rules[|rules| - 1];
      RouteHosts(ir, key, rules[..|rules| - 1]) + RuleHosts(ir.namespace, key, rule, rule.services)
  }

  function RouteRefs(ir: IngressRouteInfo, key: string, rules: seq<IngressRouteRule>): seq<RouteRef> {
    if rules == [] then []
    else
      var rule := rules[|rules| - 1];
      RouteRefs(ir, key, rules[..|rules| - 1]) + RuleRefs(ir, key, rule, rule.services)
  }

  function IngressRouteHosts(key: string): IngressRouteInfo -> seq<string> {
    (ir: IngressRouteInfo) => RouteHosts(ir, key, ir.routes)
  }

  function IngressRouteRefs(key: string): IngressRouteInfo -> seq<RouteRef> {
    (ir: IngressRouteInfo) => RouteRefs(ir, key, ir.routes)
  }

  /** Every host routed to a key, first occurrences in scan order. */
  function HostsAt(snap: Snapshot, key: string): seq<string> {
    DedupBy(Id, Flatten(Map(IngressHosts(key), snap.scan.ingresses)) +
            Flatten(Map(IngressRouteHosts(key), snap.ingressRoutes)))
  }

  function RoutesAt(snap: Snapshot, key: string): seq<RouteRef> {
    DedupBy(RouteKey,
            Flatten(Map(IngressRefs(key), snap.scan.ingresses)) +
              Flatten(Map(IngressRouteRefs(key), snap.ingressRoutes)))
  }

  /** Append to one entry of an index, dropping what is already there. */
  method MergeInto<V(==), K(==)>(index: map<string, seq<V>>, keyOf: V -> K, key: string, xs: seq<V>)
    returns (index': map<string, seq<V>>)
    ensures forall k :: Get(index', k) == if k == key then AddAllBy(keyOf, Get(index, k), xs) else Get(index, k)
  {
    index' := index;
    for i := 0 to |xs|
      invariant forall k ::
                  Get(index', k) == if k == key then AddAllBy(keyOf, Get(index, k), xs[..i]) else Get(index, k)
    {
      assert xs[..i + 1][..i] == xs[..i];
      var grown := AppendBy(keyOf, Get(index', key), xs[i]);
      index' := index'[key := grown];
    }
    assert xs[..|xs|] == xs;
  }

  /** The key belongs to a service of the Ingress that is not waiting any more. */
  predicate Handled(ing: IngressInfo, key: string, waiting: set<string>) {
    var svc := BackendOf(ing.namespace, key);
    svc.Some? && svc.value !in waiting
  }

  method IndexIngress(ing: IngressInfo, hosts: map<string, seq<string>>, routes: map<string, seq<RouteRef>>)
    returns (hosts': map<string, seq<string>>, routes': map<string, seq<RouteRef>>)
    ensures forall k :: Get(hosts', k) == AddAllBy(Id, Get(hosts, k), IngressHosts(k)(ing))
    ensures forall k :: Get(routes', k) == AddAllBy(RouteKey, Get(routes, k), IngressRefs(k)(ing))
  {
    hosts', routes' := hosts, routes;
    var rest := ing.serviceHosts.Keys;
    while rest != {}
      invariant rest <= ing.serviceHosts.Keys
      invariant forall k :: Get(hosts', k) ==
                  if Handled(ing, k, rest) then AddAllBy(Id, Get(hosts, k), IngressHosts(k)(ing)) else Get(hosts, k)
    {
      var svc :| svc in rest;
      var key := JoinKey(ing.namespace, svc);
      forall k ensures k == key <==> BackendOf(ing.namespace, k) == Some(svc) { BackendOfKey(ing.namespace, svc, k); }
      hosts' := MergeInto(hosts', Id, key, ing.serviceHosts[svc]);
      rest := rest - {svc};
    }
    var remaining := ing.serviceRoutes.Keys;
    while remaining != {}
      invariant remaining <= ing.serviceRoutes.Keys
      invariant forall k :: Get(routes', k) ==
                  if Handled(ing, k, remaining) then AddAllBy(RouteKey, Get(routes, k), IngressRefs(k)(ing))
                    else Get(routes, k)
    {
      var svc :| svc in remaining;
      var key := JoinKey(ing.namespace, svc);
      forall k ensures k == key <==> BackendOf(ing.namespace, k) == Some(svc) { BackendOfKey(ing.namespace, svc, k); }
      routes' := MergeInto(routes', RouteKey, key, Map(IngressRef(ing), ing.serviceRoutes[svc]));
      remaining := remaining - {svc};
    }
  }

  method IndexRule(ir: IngressRouteInfo, rule: IngressRouteRule, hosts: map<string, seq<string>>,
                   routes: map<string, seq<RouteRef>>)
    returns (hosts': map<string, seq<string>>, routes': map<string, seq<RouteRef>>)
    ensures forall k :: Get(hosts', k) == AddAllBy(Id, Get(hosts, k), RuleHosts(ir.namespace, k, rule, rule.services))
    ensures forall k :: Get(routes', k) == AddAllBy(RouteKey, Get(routes, k), RuleRefs(ir, k, rule, rule.services))
  {
    hosts', routes' := hosts, routes;
    for i := 0 to |rule.services|
      invariant forall k ::
                  Get(hosts', k) == AddAllBy(Id, Get(hosts, k), RuleHosts(ir.namespace, k, rule, rule.services[..i]))
      invariant forall k ::
                  Get(routes', k) == AddAllBy(RouteKey, Get(routes, k), RuleRefs(ir, k, rule, rule.services[..i]))
    {
      var key := JoinKey(ir.namespace, rule.services[i]);
      hosts' := MergeInto(hosts', Id, key, rule.hosts);
      routes' := MergeInto(routes', RouteKey, key, [RuleRef(ir, rule)]);
      forall k
        ensures Get(hosts', k) == AddAllBy(Id, Get(hosts, k), RuleHosts(ir.namespace, k, rule, rule.services[..i + 1]))
      {
        GrowHosts(Get(hosts, k), ir, k, rule, i);
      }
      forall k
        ensures Get(routes', k) == AddAllBy(RouteKey, Get(routes, k), RuleRefs(ir, k, rule, rule.services[..i + 1]))
      {
        GrowRefs(Get(routes, k), ir, k, rule, i);
      }
    }
    assert rule.services[..|rule.services|] == rule.services;
  }

  lemma GrowHosts(base: seq<string>, ir: IngressRouteInfo, k: string, rule: IngressRouteRule, i: nat)
    requires i < |rule.services|
    ensures AddAllBy(Id, base, RuleHosts(ir.namespace, k, rule, rule.services[..i + 1])) ==
            AddAllBy(Id, AddAllBy(Id, base, RuleHosts(ir.namespace, k, rule, rule.services[..i])),
                     if JoinKey(ir.namespace, rule.services[i]) == k then rule.hosts else [])
  {
    assert rule.services[..i + 1][..i] == rule.services[..i];
    AddAllByAppend(Id, base, RuleHosts(ir.namespace, k, rule, rule.services[..i]),
                   if JoinKey(ir.namespace, rule.services[i]) == k then rule.hosts else []);
  }

  lemma GrowRefs(base: seq<RouteRef>, ir: IngressRouteInfo, k: string, rule: IngressRouteRule, i: nat)
    requires i < |rule.services|
    ensures AddAllBy(RouteKey, base, RuleRefs(ir, k, rule, rule.services[..i + 1])) ==
            AddAllBy(RouteKey, AddAllBy(RouteKey, base, RuleRefs(ir, k, rule, rule.services[..i])),
                     if JoinKey(ir.namespace, rule.services[i]) == k then [RuleRef(ir, rule)] else [])
  {
    assert rule.services[..i + 1][..i] == rule.services[..i];
    AddAllByAppend(RouteKey, base, RuleRefs(ir, k, rule, rule.services[..i]),
                   if JoinKey(ir.namespace, rule.services[i]) == k then [RuleRef(ir, rule)] else []);
  }
}
