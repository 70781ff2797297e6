/** What a verdict means: which reply makes a host reachable, and how the winning route's annotations shape the
    probe. */
module Outcomes {
  import opened Text
  import opened Sequences
  import opened Catalog
  import opened Resolving
  import opened Probing
  import opened Pipeline
  import Expecting

  // ----------------------------------------------------------------- what is probed

  lemma PathStripped(p: string)
    ensures Stripped(p, Trim(IsSlash, p)) && NormalizePath(p) == "/" + Trim(IsSlash, p)
  {
    StrippedExact(p, Trim(IsSlash, p));
  }

  /** The path on which a route exposes a host: its first prefix of fewest bytes, between one slash and none. */
  ghost predicate MountedAt(r: RouteRef, path: string) {
    if r.pathPrefixes == [] then path == "/"
    else exists j: nat, core ::
           Least((p: string) => Bytes(p), r.pathPrefixes, j) && Stripped(r.pathPrefixes[j], core) && path == "/" + core
  }

  lemma {:induction false} ShortestLeast(prefixes: seq<string>) returns (j: nat)
    requires prefixes != []
    ensures Least((p: string) => Bytes(p), prefixes, j) && Shortest(prefixes) == prefixes[j]
  {
    var n := |prefixes| - 1;
    if n == 0 {
      j := 0;
    } else {
      var i := ShortestLeast(prefixes[..n]);
      LeastNext((p: string) => Bytes(p), prefixes, i);
      j := if Bytes(prefixes[n]) < Bytes(prefixes[i]) then n else i;
    }
  }

  lemma RouteMounted(r: RouteRef)
    ensures MountedAt(r, PathOf(r))
  {
    if r.pathPrefixes != [] {
      var j := ShortestLeast(r.pathPrefixes);
      PathStripped(r.pathPrefixes[j]);
    }
  }

  /** The path that is probed: the annotated one, or that of the route. */
  ghost predicate ProbedAt(r: RouteRef, path: string) {
    var declared := TrimSpace(Label(r.annotations, "dfds.cloud/reachability-path"));
    if declared == "" then MountedAt(r, path) else exists core :: Stripped(declared, core) && path == "/" + core
  }

  function VerbOf(r: RouteRef): string {
    var declared := TrimSpace(Label(r.annotations, "dfds.cloud/reachability-method"));
    if declared == "" then "GET" else ToUpper(declared)
  }

  function ExpectationOf(r: RouteRef): Expecting.Expectation {
    Expecting.Parsed(Label(r.annotations, "dfds.cloud/reachability-expect"))
  }

  /** The owner of the route that wins the host wants it probed. */
  ghost function Wanted(svc: ServiceRef): string -> bool {
    (h: string) => exists i: nat :: WinsHost(svc.routes, h, i) &&
                               Label(svc.routes[i].annotations, "dfds.cloud/reachability-probe") != "false"
  }

  /** A verdict on a host: the outcome of the request that the route winning the host asks for. */
  ghost predicate HostOutcome(svc: ServiceRef, net: Network, h: string, res: ReachabilityResult) {
    exists i: nat, path :: WinsHost(svc.routes, h, i) && ProbedAt(svc.routes[i], path) && res.host == h &&
      OutcomeIs(net, VerbOf(svc.routes[i]), "https://" + h + path, ExpectationOf(svc.routes[i]).ranges,
                ExpectationOf(svc.routes[i]).resolved, res)
  }

  /** A service shows one outcome for each of its external hosts whose owner wants it probed, in their order. */
  ghost predicate OutcomesShown(svc: ServiceRef, net: Network, shown: seq<ReachabilityResult>) {
    var hosts := Filter(Wanted(svc), svc.externalHosts);
    |shown| == |hosts| && forall k | 0 <= k < |hosts| :: HostOutcome(svc, net, hosts[k], shown[k])
  }

  lemma TargetProbes(namespace: string, name: string, h: string, r: RouteRef) returns (path: string)
    ensures
      var t := TargetFor(namespace, name, h, WinnerOf(r));
      && ProbedAt(r, path) && t.host == h && t.url == "https://" + h + path && t.verb == VerbOf(r)
      && t.accepted == ExpectationOf(r).ranges && t.expectStr == ExpectationOf(r).resolved
  {
    var declared := TrimSpace(Label(r.annotations, PROBE_PATH));
    RouteMounted(r);
    PathStripped(declared);
    path := if declared == "" then PathOf(r) else NormalizePath(declared);
  }

  lemma WantedProbed(svc: ServiceRef, h: string)
    ensures Wanted(svc)(h) <==> Probed(svc)(h)
  {
    WinnerExact(svc.routes, h);
    if i: nat :| WinsHost(svc.routes, h, i) { assert WinnerIndex(svc.routes, h) == Some(i); }
    if i: nat :| WinnerIndex(svc.routes, h) == Some(i) { assert WinsHost(svc.routes, h, i); }
  }

  lemma HostShown(namespace: string, svc: ServiceRef, net: Network, h: string, res: ReachabilityResult)
    requires VerdictOf(namespace, svc, net)(h) == Some(res)
    ensures HostOutcome(svc, net, h, res)
  {
    WinnerExact(svc.routes, h);
    var i := WinnerIndex(svc.routes, h).value;
    var path := TargetProbes(namespace, svc.name, h, svc.routes[i]);
    VerdictExact(net, TargetFor(namespace, svc.name, h, WinnerOf(svc.routes[i])));
    assert WinsHost(svc.routes, h, i);
  }

  lemma ShownOutcomes(namespace: string, svc: ServiceRef, net: Network, shown: seq<ReachabilityResult>)
    requires ShowsVerdicts(namespace, svc, net, shown)
    ensures OutcomesShown(svc, net, shown)
  {
    forall h { WantedProbed(svc, h); }
    FilterCongruent(Wanted(svc), Probed(svc), svc.externalHosts);
    var hosts := Filter(Wanted(svc), svc.externalHosts);
    forall k | 0 <= k < |hosts| ensures HostOutcome(svc, net, hosts[k], shown[k]) {
      assert Map(Present, shown)[k] == Some(shown[k]) &&
        Map(VerdictOf(namespace, svc, net), hosts)[k] == VerdictOf(namespace, svc, net)(hosts[k]);
      HostShown(namespace, svc, net, hosts[k], shown[k]);
    }
  }
}
