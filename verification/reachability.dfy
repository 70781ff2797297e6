/** Active reachability probing: one target per exposed host of a service, probed concurrently. */
module Probing {
  import opened Text
  import opened Sequences
  import opened Catalog
  import opened Resolving
  import Expecting

  const PROBE_OPT_OUT := "dfds.cloud/reachability-probe"
  const PROBE_PATH := "dfds.cloud/reachability-path"
  const PROBE_METHOD := "dfds.cloud/reachability-method"
  const PROBE_EXPECT := "dfds.cloud/reachability-expect"

  const STATUS_REACHABLE := "reachable"
  const STATUS_UNREACHABLE := "unreachable"
  const STATUS_UNKNOWN := "unknown"

  const PROBE_ATTEMPTS := 2

  // --------------------------------------------------------------- winning routes

  function NormalizePath(p: string): string { "/" + Trim(IsSlash, p) }

  /** The first of the prefixes of least length. */
  function Shortest(prefixes: seq<string>): string
    requires prefixes != []
  {
    var last := prefixes[|prefixes| - 1];
    if |prefixes| == 1 then last
    else
      var best := Shortest(prefixes[..|prefixes| - 1]);
      if Bytes(last) < Bytes(best) then last else best
  }

  function ShortestPrefix(prefixes: seq<string>): string {
    if prefixes == [] then "/" else NormalizePath(Shortest(prefixes))
  }

  method ComputeShortestPrefix(prefixes: seq<string>) returns (path: string)
    ensures path == ShortestPrefix(prefixes)
  {
    if prefixes == [] { return "/"; }
    var best := prefixes[0];
    for k := 1 to |prefixes|
      invariant best == Shortest(prefixes[..k])
    {
      assert prefixes[..k + 1][..k] == prefixes[..k];
      if Bytes(prefixes[k]) < Bytes(best) { best := prefixes[k]; }
    }
    assert prefixes[..|prefixes|] == prefixes;
    path := NormalizePath(best);
  }

  /** Route `r` exposes the service on host `h`. */
  predicate Carries(r: RouteRef, h: string) { h != "" && h in r.hosts }

  function PathOf(r: RouteRef): string { ShortestPrefix(r.pathPrefixes) }

  /** The route that wins host `h`: the earliest of those with the shortest path. */
  function WinnerIndex(routes: seq<RouteRef>, h: string): (w: Option<nat>)
    ensures w.Some? ==> w.value < |routes|
  {
    if routes == [] then None
    else
      var n := |routes| - 1;
      var prior := WinnerIndex(routes[..n], h);
      if Carries(routes[n], h) &&
        (prior == None || Bytes(PathOf(routes[n])) < Bytes(PathOf(routes[prior.value]))) then Some(n)
      else prior
  }

  ghost predicate WinsHost(routes: seq<RouteRef>, h: string, i: nat) {
    && i < |routes| && Carries(routes[i], h)
    && (forall j | 0 <= j < |routes| && Carries(routes[j], h) :: Bytes(PathOf(routes[i])) <= Bytes(PathOf(routes[j])))
    && (forall j | 0 <= j < i && Carries(routes[j], h) :: Bytes(PathOf(routes[i])) < Bytes(PathOf(routes[j])))
  }

  ghost predicate NoneCarries(routes: seq<RouteRef>, h: string) {
    forall i | 0 <= i < |routes| :: !Carries(routes[i], h)
  }

  lemma WinnerNext(routes: seq<RouteRef>, h: string)
    requires routes != []
    requires match WinnerIndex(routes[..|routes| - 1], h)
             case Some(i) => WinsHost(routes[..|routes| - 1], h, i)
             case None => NoneCarries(routes[..|routes| - 1], h)
    ensures WinnerIndex(routes, h).Some? ==> WinsHost(routes, h, WinnerIndex(routes, h).value)
    ensures WinnerIndex(routes, h) == None <==> NoneCarries(routes, h)
  {
    assert forall i | 0 <= i < |routes| - 1 :: routes[..|routes| - 1][i] == routes[i];
  }

  /** The winner is exactly the earliest route of least path length, and there is one whenever some route
      carries the host. */
  lemma {:induction false} WinnerExact(routes: seq<RouteRef>, h: string)
    ensures forall i: nat :: WinnerIndex(routes, h) == Some(i) <==> WinsHost(routes, h, i)
    ensures WinnerIndex(routes, h) == None <==> NoneCarries(routes, h)
  {
    if routes != [] {
      var n := |routes| - 1;
      WinnerExact(routes[..n], h);
      WinnerNext(routes, h);
    }
  }

  datatype HostWinner = HostWinner(path: string, annotations: map<string, string>)

  function WinnerOf(r: RouteRef): HostWinner { HostWinner(PathOf(r), r.annotations) }

  ghost predicate IsWinners(byHost: map<string, HostWinner>, routes: seq<RouteRef>, h: string) {
    match WinnerIndex(routes, h)
    case Some(i) => h in byHost && byHost[h] == WinnerOf(routes[i])
    case None => h !in byHost
  }

  lemma WinnerStep(pre: seq<RouteRef>, r: RouteRef, h: string)
    ensures
      var prior := WinnerIndex(pre, h);
      WinnerIndex(pre + [r], h) ==
        if Carries(r, h) &&
          (prior == None || Bytes(PathOf(r)) < Bytes(PathOf(pre[prior.value]))) then Some(|pre|) else prior
  {
  }

  function Considered(byHost: map<string, HostWinner>, r: RouteRef, h: string): map<string, HostWinner> {
    if h == "" then byHost
    else if h !in byHost || Bytes(PathOf(r)) < Bytes(byHost[h].path) then byHost[h := WinnerOf(r)]
    else byHost
  }

  /** Considering a route once more for a host it carries changes nothing. */
  lemma ConsiderHost(byHost: map<string, HostWinner>, pre: seq<RouteRef>, r: RouteRef, h: string)
    requires Carries(r, h) && (IsWinners(byHost, pre, h) || IsWinners(byHost, pre + [r], h))
    ensures IsWinners(Considered(byHost, r, h), pre + [r], h)
    ensures forall g, routes | g != h :: IsWinners(Considered(byHost, r, h), routes, g) == IsWinners(byHost, routes, g)
  {
  }

  lemma AllConsidered(byHost: map<string, HostWinner>, pre: seq<RouteRef>, r: RouteRef)
    requires forall h :: if Carries(r, h) then IsWinners(byHost, pre + [r], h) else IsWinners(byHost, pre, h)
    ensures forall h :: IsWinners(byHost, pre + [r], h)
  {
    forall h ensures IsWinners(byHost, pre + [r], h) {
      WinnerStep(pre, r, h);
    }
  }

  /** Consider one more route for each of its hosts. */
  method ConsiderRoute(byHost: map<string, HostWinner>, r: RouteRef, ghost pre: seq<RouteRef>)
    returns (byHost': map<string, HostWinner>)
    requires forall h :: IsWinners(byHost, pre, h)
    ensures forall h :: IsWinners(byHost', pre + [r], h)
  {
    byHost' := byHost;
    var path := ComputeShortestPrefix(r.pathPrefixes);
    for k := 0 to |r.hosts|
      invariant forall h ::
                  if h != "" && h in r.hosts[..k] then IsWinners(byHost', pre + [r], h) else IsWinners(byHost', pre, h)
    {
      var h := r.hosts[k];
      assert r.hosts[..k + 1] == r.hosts[..k] + [h];
      if h == "" { continue; }
      assert h in r.hosts;
      ConsiderHost(byHost', pre, r, h);
      if h !in byHost' || Bytes(path) < Bytes(byHost'[h].path) {
        byHost' := byHost'[h := HostWinner(path, r.annotations)];
      }
    }
    assert r.hosts[..|r.hosts|] == r.hosts;
    AllConsidered(byHost', pre, r);
  }

  method WinningRoutesByHost(routes: seq<RouteRef>) returns (byHost: map<string, HostWinner>)
    ensures forall h :: IsWinners(byHost, routes, h)
  {
    byHost := map[];
    for i := 0 to |routes|
      invariant forall h :: IsWinners(byHost, routes[..i], h)
    {
      assert routes[..i + 1] == routes[..i] + [routes[i]];
      byHost := ConsiderRoute(byHost, routes[i], routes[..i]);
    }
    assert routes[..|routes|] == routes;
  }

  // --------------------------------------------------------------------- targets

  datatype Target = Target(
    key: string, host: string, url: string, verb: string, accepted: seq<Expecting.CodeRange>, expectStr: string)

  function StoreKey(namespace: string, service: string, host: string): string {
    namespace + "/" + (service + "/" + host)
  }

  predicate OptedOut(win: HostWinner) { Label(win.annotations, PROBE_OPT_OUT) == "false" }

  /** The probe of one host, configured by the annotations of the winning route. */
  function TargetFor(namespace: string, service: string, host: string, win: HostWinner): Target {
    var pathAnno := TrimSpace(Label(win.annotations, PROBE_PATH));
    var verbAnno := TrimSpace(Label(win.annotations, PROBE_METHOD));
    var e := Expecting.Parsed(Label(win.annotations, PROBE_EXPECT));
    Target(StoreKey(namespace, service, host), host,
           "https://" + host + (if pathAnno != "" then NormalizePath(pathAnno) else win.path),
           if verbAnno != "" then ToUpper(verbAnno) else "GET", e.ranges, e.resolved)
  }

  /** The target for host `h` of a service, if some route carries the host and its owner did not opt out. */
  function TargetOf(namespace: string, svc: ServiceRef, h: string): Option<Target> {
    match WinnerIndex(svc.routes, h)
    case None => None
    case Some(i) =>
      var win := WinnerOf(svc.routes[i]);
      if OptedOut(win) then None else Some(TargetFor(namespace, svc.name, h, win))
  }

  function RouteHosts(routes: seq<RouteRef>): set<string> { set r, h | r in routes && h in r.hosts :: h }

  function TargetsAmong(namespace: string, svc: ServiceRef, hosts: set<string>): set<Target> {
    set h | h in hosts && TargetOf(namespace, svc, h).Some? :: TargetOf(namespace, svc, h).value
  }

  function ServiceTargets(namespace: string, svc: ServiceRef): set<Target> {
    TargetsAmong(namespace, svc, RouteHosts(svc.routes))
  }

  function AppTargets(namespace: string, services: seq<ServiceRef>): multiset<Target> {
    if services == [] then multiset{}
    else AppTargets(namespace, services[..|services| - 1]) +
      multiset(ServiceTargets(namespace, services[|services| - 1]))
  }

  /** One target per probeable host of each service of each application. */
  function CatalogTargets(apps: seq<ApplicationEntry>): multiset<Target> {
    if apps == [] then multiset{}
    else
      var last := apps[|apps| - 1];
      CatalogTargets(apps[..|apps| - 1]) + AppTargets(last.namespace, last.services)
  }

  method TargetsForService(namespace: string, svc: ServiceRef) returns (targets: seq<Target>)
    ensures multiset(targets) == multiset(ServiceTargets(namespace, svc))
  {
    var byHost := WinningRoutesByHost(svc.routes);
    targets := [];
    var rest := byHost.Keys;
    while |rest| > 0
      invariant rest <= byHost.Keys
      invariant multiset(targets) == multiset(TargetsAmong(namespace, svc, byHost.Keys - rest))
    {
      var host :| host in rest;
      ghost var before := targets;
      if !OptedOut(byHost[host]) {
        targets := targets + [TargetFor(namespace, svc.name, host, byHost[host])];
      }
      TargetsStep(namespace, svc, byHost, rest, host, before, targets);
      rest := rest - {host};
    }
    AllHosts(namespace, svc, byHost);
  }

  lemma OneMoreTarget(namespace: string, svc: ServiceRef, done: set<string>, host: string)
    requires host !in done
    ensures
      var t := TargetOf(namespace, svc, host);
      multiset(TargetsAmong(namespace, svc, done + {host})) ==
      multiset(TargetsAmong(namespace, svc, done)) + (if t.Some? then multiset{t.value} else multiset{})
  {
  }

  lemma TargetsStep(namespace: string, svc: ServiceRef, byHost: map<string, HostWinner>, rest: set<string>,
                    host: string, before: seq<Target>, after: seq<Target>)
    requires host in rest && rest <= byHost.Keys && IsWinners(byHost, svc.routes, host)
    requires multiset(before) == multiset(TargetsAmong(namespace, svc, byHost.Keys - rest))
    requires after == before + if OptedOut(byHost[host]) then []
             else [TargetFor(namespace, svc.name, host, byHost[host])]
    ensures multiset(after) == multiset(TargetsAmong(namespace, svc, byHost.Keys - (rest - {host})))
  {
    OneMoreTarget(namespace, svc, byHost.Keys - rest, host);
    assert byHost.Keys - (rest - {host}) == byHost.Keys - rest + {host};
  }

  lemma AllHosts(namespace: string, svc: ServiceRef, byHost: map<string, HostWinner>)
    requires forall h :: IsWinners(byHost, svc.routes, h)
    ensures TargetsAmong(namespace, svc, byHost.Keys) == ServiceTargets(namespace, svc)
  {
    forall h ensures TargetOf(namespace, svc, h).Some? ==> h in byHost && h in RouteHosts(svc.routes) {
      WinnerExact(svc.routes, h);
      assert IsWinners(byHost, svc.routes, h);
      if i: nat :| WinnerIndex(svc.routes, h) == Some(i) { assert svc.routes[i] in svc.routes; }
    }
  }

  predicate TargetLess(a: Target, b: Target) { LexLess(a.key, b.key) }

  lemma TargetOrder()
    ensures StrictWeakOrder(TargetLess)
  {
    forall a: Target ensures !TargetLess(a, a) { LexIrreflexive(a.key); }
    forall a, b, c | TargetLess(a, b) && TargetLess(b, c) ensures TargetLess(a, c) {
      LexTransitive(a.key, b.key, c.key);
    }
    forall a, b, c | TargetLess(a, c) ensures TargetLess(a, b) || TargetLess(b, c) {
      LexTotal(a.key, b.key);
      if TargetLess(b, a) { LexTransitive(b.key, a.key, c.key); }
    }
  }

  method BuildTargets(apps: seq<ApplicationEntry>) returns (targets: seq<Target>)
    ensures multiset(targets) == CatalogTargets(apps) && SortedBy(TargetLess, targets)
  {
    targets := [];
    for i := 0 to |apps|
      invariant multiset(targets) == CatalogTargets(apps[..i])
    {
      assert apps[..i + 1][..i] == apps[..i];
      var app := apps[i];
      ghost var before := multiset(targets);
      for j := 0 to |app.services|
        invariant multiset(targets) == before + AppTargets(app.namespace, app.services[..j])
      {
        assert app.services[..j + 1][..j] == app.services[..j];
        var more := TargetsForService(app.namespace, app.services[j]);
        targets := targets + more;
      }
      assert app.services[..|app.services|] == app.services;
    }
    assert apps[..|apps|] == apps;
    TargetOrder();
    targets := SortSlice(targets, TargetLess);
  }

  // ---------------------------------------------------------------------- probing

  /** What one request comes back with: a final status code, or a transport error. */
  datatype Reply = Status(code: int) | Failed(reason: string)

  /** The network: the reply to the n-th attempt of a request. */
  type Network = (string, string, nat) -> Reply

  function Itoa(n: int): string
    decreases if n < 0 then 1 else 0, if n < 0 then -n else n
  {
    if n < 0 then "-" + Itoa(-n)
    else if n < 10 then [('0' as int + n) as char]
    else Itoa(n / 10) + [('0' as int + n % 10) as char]
  }

  /** The reply that decides: the first answer, or the last error. */
  function FinalReply(net: Network, t: Target): Reply {
    var first := net(t.verb, t.url, 0);
    if first.Status? then first else net(t.verb, t.url, 1)
  }

  function Verdict(t: Target, reply: Reply): ReachabilityResult {
    match reply
    case Failed(reason) => ReachabilityResult(t.host, t.url, STATUS_UNKNOWN, 0, t.expectStr, reason)
    case Status(code) =>
      if Expecting.Accepts(t.accepted, code)
        then ReachabilityResult(t.host, t.url, STATUS_REACHABLE, code, t.expectStr, "")
      else ReachabilityResult(t.host, t.url, STATUS_UNREACHABLE, code, t.expectStr,
                              "expected " + t.expectStr + ", got " + Itoa(code))
  }

  /** The code of the first of two attempts that is answered. */
  function CodeOf(net: Network, verb: string, url: string): Option<int> {
    match (net(verb, url, 0), net(verb, url, 1))
    case (Status(code), _) => Some(code)
    case (Failed(_), Status(code)) => Some(code)
    case _ => None
  }

  /** The outcome of probing `url`, over its replies: reachable with an answer inside the expected ranges,
      unreachable with an answer outside, unknown without one. */
  ghost predicate OutcomeIs(net: Network, verb: string, url: string, ranges: seq<Expecting.CodeRange>, expected: string,
                            res: ReachabilityResult) {
    var answer := CodeOf(net, verb, url);
    var inside := exists k :: 0 <= k < |ranges| && answer.Some? && ranges[k].lo <= answer.value <= ranges[k].hi;
    && res.url == url && res.expected == expected
    && (res.status == "reachable" <==> inside)
    && (res.status == "unreachable" <==> answer.Some? && !inside)
    && (res.status == "unknown" <==> answer == None)
    && res.statusCode == (if answer.Some? then answer.value else 0)
    && (inside ==> res.reason == "")
    && (answer.Some? && !inside ==> res.reason == "expected " + expected + ", got " + Itoa(answer.value))
    && (answer == None ==> net(verb, url, 1) == Failed(res.reason))
  }

  lemma InRanges(ranges: seq<Expecting.CodeRange>, code: int)
    ensures Expecting.Accepts(ranges, code) <==> exists k :: 0 <= k < |ranges| && ranges[k].lo <= code <= ranges[k].hi
  {
    if r :| r in ranges && Expecting.InRange(r, code) {
      var k :| 0 <= k < |ranges| && ranges[k] == r;
      assert ranges[k].lo <= code <= ranges[k].hi;
    }
    if k :| 0 <= k < |ranges| && ranges[k].lo <= code <= ranges[k].hi {
      assert ranges[k] in ranges && Expecting.InRange(ranges[k], code);
    }
  }

  /** A target's verdict is the outcome of its request. */
  lemma VerdictExact(net: Network, t: Target)
    ensures OutcomeIs(net, t.verb, t.url, t.accepted, t.expectStr, Verdict(t, FinalReply(net, t)))
    ensures Verdict(t, FinalReply(net, t)).host == t.host
  {
    var answer := CodeOf(net, t.verb, t.url);
    if answer.Some? { InRanges(t.accepted, answer.value); }
  }

  /** Itoa writes the decimal digits of a number. */
  lemma {:induction false} ItoaExact(n: nat)
    ensures AllDigits(Itoa(n)) && DigitsValue(Itoa(n)) == n
  {
    var d := n % 10;
    var c := ('0' as int + d) as char;
    if n < 10 {
      assert Itoa(n) == [c] && [c][..0] == [];
    } else {
      ItoaExact(n / 10);
      var front := Itoa(n / 10);
      assert Itoa(n) == front + [c] && (front + [c])[..|front|] == front;
    }
  }

  /** Reading a number written in decimal gives it back if and only if it fits 64 bits. */
  lemma DecimalRoundTrip(n: int)
    ensures Atoi(Itoa(n)) == if -0x8000_0000_0000_0000 <= n < 0x8000_0000_0000_0000 then Some(n) else None
  {
    if n >= 0 {
      ItoaExact(n);
      assert IsDigit(Itoa(n)[0]) by { assert Itoa(n)[0] in Itoa(n); }
    } else {
      ItoaExact(-n);
      assert Itoa(n) == "-" + Itoa(-n) && Itoa(n)[1..] == Itoa(-n);
    }
  }

  method ProbeOne(net: Network, t: Target) returns (res: ReachabilityResult)
    ensures res == Verdict(t, FinalReply(net, t)) && res.host == t.host
    ensures OutcomeIs(net, t.verb, t.url, t.accepted, t.expectStr, res)
  {
    VerdictExact(net, t);
    var reply := Failed("");
    for attempt := 0 to PROBE_ATTEMPTS
      invariant attempt > 0 ==> reply == net(t.verb, t.url, attempt - 1) && !net(t.verb, t.url, 0).Status?
    {
      reply := net(t.verb, t.url, attempt);
      if reply.Status? { break; }
    }
    assert reply == FinalReply(net, t);
    match reply
    case Failed(reason) => res := ReachabilityResult(t.host, t.url, STATUS_UNKNOWN, 0, t.expectStr, reason);
    case Status(code) =>
      var ok := Expecting.Matches(t.accepted, code);
      if ok {
        res := ReachabilityResult(t.host, t.url, STATUS_REACHABLE, code, t.expectStr, "");
      } else {
        res := ReachabilityResult(t.host, t.url, STATUS_UNREACHABLE, code, t.expectStr,
                                  "expected " + t.expectStr + ", got " + Itoa(code));
      }
  }

  /** `results` hold, for every key of a target and for no other, the verdict of a target with that key. */
  ghost predicate Covers(results: map<string, ReachabilityResult>, net: Network, targets: multiset<Target>) {
    && (forall t | t in targets :: t.key in results)
    && (forall key | key in results ::
          exists t :: t in targets && t.key == key && results[key] == Verdict(t, FinalReply(net, t)))
  }

  lemma CoversNext(results: map<string, ReachabilityResult>, net: Network, done: multiset<Target>, t: Target)
    requires Covers(results, net, done)
    ensures Covers(results[t.key := Verdict(t, FinalReply(net, t))], net, done + multiset{t})
  {
    var next := results[t.key := Verdict(t, FinalReply(net, t))];
    forall key | key in next
      ensures exists u :: u in done + multiset{t} && u.key == key && next[key] == Verdict(u, FinalReply(net, u))
    {
      if key == t.key {
        assert t in done + multiset{t};
      } else {
        var u :| u in done && u.key == key && results[key] == Verdict(u, FinalReply(net, u));
        assert u in done + multiset{t};
      }
    }
  }

  /** Probe every target of a catalog; the probes complete in any order. */
  method Probe(net: Network, apps: seq<ApplicationEntry>) returns (results: map<string, ReachabilityResult>)
    ensures Covers(results, net, CatalogTargets(apps))
  {
    var targets := BuildTargets(apps);
    results := map[];
    var pending := multiset(targets);
    ghost var done: multiset<Target> := multiset{};
    while pending != multiset{}
      invariant done + pending == multiset(targets)
      invariant Covers(results, net, done)
      decreases |pending|
    {
      var t :| t in pending;
      var res := ProbeOne(net, t);
      CoversNext(results, net, done, t);
      results := results[t.key := res];
      done, pending := done + multiset{t}, pending - multiset{t};
    }
  }
}
