/** Standard Ingress objects, reduced to the hosts and (host, path) pairs that route to each service. */
module Ingresses {
  import opened Text
  import opened Sequences
  import opened Scanning

  /** One path of a rule; its backend is a service or something else. */
  datatype HTTPPath = HTTPPath(path: string, service: Option<string>)

  datatype IngressRule = IngressRule(host: string, http: Option<seq<HTTPPath>>)

  /** One (service, host, path) that an Ingress routes, in rule and path order. */
  datatype Backend = Backend(service: string, host: string, path: string)

  function PathBackends(host: string, paths: seq<HTTPPath>): seq<Backend> {
    if paths == [] then []
    else
      var last := paths[|paths| - 1];
      PathBackends(host, paths[..|paths| - 1]) +
        (if last.service.Some? then [Backend(last.service.value, host, last.path)] else [])
  }

  function Backends(rules: seq<IngressRule>): seq<Backend> {
    if rules == [] then []
    else
      var last := rules[|rules| - 1];
      Backends(rules[..|rules| - 1]) +
        (if last.host == "" || last.http == None then [] else PathBackends(last.host, last.http.value))
  }

  function To(service: string): Backend -> bool { (b: Backend) => b.service == service }
  function HostOf(b: Backend): string { b.host }
  function PairOf(b: Backend): IngressPath { IngressPath(b.host, b.path) }

  function HostsTo(bs: seq<Backend>, service: string): seq<string> {
    DedupBy(Id, Map(HostOf, Filter(To(service), bs)))
  }

  function PairsTo(bs: seq<Backend>, service: string): seq<IngressPath> {
    DedupBy(Id, Map(PairOf, Filter(To(service), bs)))
  }

  function Get<K, V>(m: map<K, seq<V>>, k: K): seq<V> { if k in m then m[k] else [] }

  ghost predicate Tabulated(hosts: map<string, seq<string>>, routes: map<string, seq<IngressPath>>, bs: seq<Backend>) {
    forall service ::
      && Get(hosts, service) == HostsTo(bs, service) && Get(routes, service) == PairsTo(bs, service)
      && (service in hosts <==> Filter(To(service), bs) != [])
      && (service in routes <==> Filter(To(service), bs) != [])
  }

  lemma OneMore(bs: seq<Backend>, b: Backend, service: string)
    ensures HostsTo(bs + [b], service) ==
            if b.service == service then AddBy(Id, HostsTo(bs, service), b.host) else HostsTo(bs, service)
    ensures PairsTo(bs + [b], service) ==
            if b.service == service then AddBy(Id, PairsTo(bs, service), PairOf(b)) else PairsTo(bs, service)
    ensures Filter(To(service), bs + [b]) == Filter(To(service), bs) + (if b.service == service then [b] else [])
  {
  }

  method AddBackend(hosts: map<string, seq<string>>, routes: map<string, seq<IngressPath>>, b: Backend,
                    ghost bs: seq<Backend>)
    returns (hosts': map<string, seq<string>>, routes': map<string, seq<IngressPath>>)
    requires Tabulated(hosts, routes, bs)
    ensures Tabulated(hosts', routes', bs + [b])
  {
    var hs := AppendUnique(Get(hosts, b.service), b.host);
    var ps := AppendUnique(Get(routes, b.service), IngressPath(b.host, b.path));
    hosts' := hosts[b.service := hs];
    routes' := routes[b.service := ps];
    ghost var grown := bs + [b];
    forall service
      ensures Get(hosts', service) == HostsTo(grown, service) && Get(routes', service) == PairsTo(grown, service)
      ensures service in hosts' <==> Filter(To(service), grown) != []
      ensures service in routes' <==> Filter(To(service), grown) != []
    {
      OneMore(bs, b, service);
    }
  }

  /** The routing table of an Ingress. Rules without a host or without paths, and paths that do not lead to a
      service, contribute nothing. */
  method IngressInfoFrom(namespace: string, name: string, rules: seq<IngressRule>, annotations: map<string, string>)
    returns (info: IngressInfo)
    ensures info.namespace == namespace && info.name == name && info.annotations == annotations
    ensures Tabulated(info.serviceHosts, info.serviceRoutes, Backends(rules))
  {
    var hosts: map<string, seq<string>> := map[];
    var routes: map<string, seq<IngressPath>> := map[];
    for i := 0 to |rules|
      invariant Tabulated(hosts, routes, Backends(rules[..i]))
    {
      assert rules[..i + 1][..i] == rules[..i];
      var rule := rules[i];
      ghost var before := Backends(rules[..i]);
      assert before + [] == before;
      if rule.host == "" || rule.http == None { continue; }
      var paths := rule.http.value;
      for j := 0 to |paths|
        invariant Tabulated(hosts, routes, before + PathBackends(rule.host, paths[..j]))
      {
        assert paths[..j + 1][..j] == paths[..j];
        ghost var sofar := before + PathBackends(rule.host, paths[..j]);
        if paths[j].service == None {
          assert PathBackends(rule.host, paths[..j + 1]) == PathBackends(rule.host, paths[..j]);
          continue;
        }
        var b := Backend(paths[j].service.value, rule.host, paths[j].path);
        hosts, routes := AddBackend(hosts, routes, b, sofar);
        assert before + PathBackends(rule.host, paths[..j + 1]) == sofar + [b];
      }
      assert paths[..|paths|] == paths;
    }
    assert rules[..|rules|] == rules;
    info := IngressInfo(namespace, name, hosts, routes, annotations);
  }

  /** What the catalog relies on: the hosts of a service are the hosts of its (host, path) pairs, all named. */
  ghost predicate SameHosts(hosts: seq<string>, pairs: seq<IngressPath>) {
    && (forall p | p in pairs :: p.host in hosts)
    && (forall h | h in hosts :: h != "" && exists p :: p in pairs && p.host == h)
  }

  ghost predicate HostsMatchPairs(info: IngressInfo) {
    forall svc ::
      && (svc in info.serviceHosts <==> svc in info.serviceRoutes)
      && SameHosts(Get(info.serviceHosts, svc), Get(info.serviceRoutes, svc))
  }

  lemma {:induction false} PathBackendHosts(host: string, paths: seq<HTTPPath>)
    ensures forall b | b in PathBackends(host, paths) :: b.host == host
  {
    if paths != [] { PathBackendHosts(host, paths[..|paths| - 1]); }
  }

  lemma {:induction false} BackendsNamed(rules: seq<IngressRule>)
    ensures forall b | b in Backends(rules) :: b.host != ""
  {
    if rules != [] {
      var last := rules[|rules| - 1];
      BackendsNamed(rules[..|rules| - 1]);
      if last.http.Some? { PathBackendHosts(last.host, last.http.value); }
    }
  }

  lemma MapIn<T, U>(f: T -> U, s: seq<T>, y: U)
    ensures y in Map(f, s) <==> exists x :: x in s && f(x) == y
  {
  }

  lemma IngressCoherent(info: IngressInfo, rules: seq<IngressRule>)
    requires Tabulated(info.serviceHosts, info.serviceRoutes, Backends(rules))
    ensures HostsMatchPairs(info)
  {
    var bs := Backends(rules);
    BackendsNamed(rules);
    forall svc
      ensures svc in info.serviceHosts <==> svc in info.serviceRoutes
      ensures SameHosts(Get(info.serviceHosts, svc), Get(info.serviceRoutes, svc))
    {
      SameHostsTo(bs, svc);
      assert Get(info.serviceHosts, svc) == HostsTo(bs, svc);
    }
  }

  lemma SameHostsTo(bs: seq<Backend>, svc: string)
    requires forall b | b in bs :: b.host != ""
    ensures SameHosts(HostsTo(bs, svc), PairsTo(bs, svc))
  {
    forall p | p in PairsTo(bs, svc) ensures p.host in HostsTo(bs, svc) { PairHasHost(bs, svc, p); }
    forall h | h in HostsTo(bs, svc) ensures h != "" && exists p :: p in PairsTo(bs, svc) && p.host == h {
      HostHasPair(bs, svc, h);
    }
  }

  lemma PairHasHost(bs: seq<Backend>, svc: string, p: IngressPath)
    requires p in PairsTo(bs, svc)
    ensures p.host in HostsTo(bs, svc)
  {
    var own := Filter(To(svc), bs);
    DedupMembers(Map(PairOf, own), p);
    MapIn(PairOf, own, p);
    var b :| b in own && PairOf(b) == p;
    MapIn(HostOf, own, p.host);
    assert HostOf(b) == p.host;
    DedupMembers(Map(HostOf, own), p.host);
  }

  lemma HostHasPair(bs: seq<Backend>, svc: string, h: string)
    requires h in HostsTo(bs, svc) && forall b | b in bs :: b.host != ""
    ensures h != "" && exists p :: p in PairsTo(bs, svc) && p.host == h
  {
    var own := Filter(To(svc), bs);
    DedupMembers(Map(HostOf, own), h);
    MapIn(HostOf, own, h);
    var b :| b in own && HostOf(b) == h;
    FilterIn(To(svc), bs, b);
    MapIn(PairOf, own, PairOf(b));
    DedupMembers(Map(PairOf, own), PairOf(b));
    assert PairOf(b).host == h;
  }

  /** A rule of the Ingress sends this host and path to the service. */
  ghost predicate Routed(rules: seq<IngressRule>, service: string, host: string, path: string) {
    exists rule :: rule in rules && rule.host == host != "" && rule.http.Some? &&
                   HTTPPath(path, Some(service)) in rule.http.value
  }

  lemma {:induction false} PathBackendIn(host: string, paths: seq<HTTPPath>, b: Backend)
    ensures b in PathBackends(host, paths) <==> b.host == host && HTTPPath(b.path, Some(b.service)) in paths
  {
    if paths != [] {
      PathBackendIn(host, paths[..|paths| - 1], b);
      assert paths == paths[..|paths| - 1] + [paths[|paths| - 1]];
    }
  }

  lemma {:induction false} BackendIn(rules: seq<IngressRule>, b: Backend)
    ensures b in Backends(rules) <==> Routed(rules, b.service, b.host, b.path)
  {
    if rules != [] {
      var front, last := rules[..|rules| - 1], rules[|rules| - 1];
      BackendIn(front, b);
      if last.http.Some? { PathBackendIn(last.host, last.http.value, b); }
      assert rules == front + [last];
    }
  }

  /** The table of an Ingress: a service has exactly the hosts, and the (host, path) pairs, that some rule with a host
      sends to it. */
  lemma RulesTabulated(info: IngressInfo, rules: seq<IngressRule>, service: string)
    requires Tabulated(info.serviceHosts, info.serviceRoutes, Backends(rules))
    ensures forall h :: h in Get(info.serviceHosts, service) <==> exists path :: Routed(rules, service, h, path)
    ensures forall h, path ::
              IngressPath(h, path) in Get(info.serviceRoutes, service) <==> Routed(rules, service, h, path)
    ensures service in info.serviceHosts <==> exists h, path :: Routed(rules, service, h, path)
  {
    var own := Filter(To(service), Backends(rules));
    forall h, path ensures Backend(service, h, path) in own <==> Routed(rules, service, h, path) {
      FilterIn(To(service), Backends(rules), Backend(service, h, path));
      BackendIn(rules, Backend(service, h, path));
    }
    forall b | b in own ensures b.service == service { FilterIn(To(service), Backends(rules), b); }
    TableOf(own, service);
    if own != [] { assert own[0] == Backend(service, own[0].host, own[0].path) && own[0] in own; }
  }

  lemma TableOf(own: seq<Backend>, service: string)
    requires forall b | b in own :: b.service == service
    ensures forall h :: h in DedupBy(Id, Map(HostOf, own)) <==> exists path :: Backend(service, h, path) in own
    ensures forall h, path ::
              IngressPath(h, path) in DedupBy(Id, Map(PairOf, own)) <==> Backend(service, h, path) in own
  {
    forall h ensures h in DedupBy(Id, Map(HostOf, own)) <==> exists path :: Backend(service, h, path) in own {
      DedupMembers(Map(HostOf, own), h);
      MapIn(HostOf, own, h);
      if b :| b in own && HostOf(b) == h { assert Backend(service, h, b.path) in own; }
      if path :| Backend(service, h, path) in own { assert HostOf(Backend(service, h, path)) == h; }
    }
    forall h, path
      ensures IngressPath(h, path) in DedupBy(Id, Map(PairOf, own)) <==> Backend(service, h, path) in own
    {
      DedupMembers(Map(PairOf, own), IngressPath(h, path));
      MapIn(PairOf, own, IngressPath(h, path));
      if Backend(service, h, path) in own { assert PairOf(Backend(service, h, path)) == IngressPath(h, path); }
    }
  }
}
