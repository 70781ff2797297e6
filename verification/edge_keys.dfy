/** What an edge key stands for: when it determines the edge, and an instance of two edges that share one. */
module EdgeKeys {
  import opened Text
  import opened Sequences
  import opened Catalog
  import opened Resolving
  import opened Engines
  import opened OverlaySpec
  import opened OverlayIsolation

  /** Ends as the resolver produces them, kinds and origins without the delimiter. */
  predicate PlainEdge(cluster: string, e: DependencyEdge) {
    PlainNode(cluster, e.source) && PlainNode(cluster, e.target) && '|' !in e.kind && '|' !in e.origin
  }

  predicate SameEdge(e: DependencyEdge, f: DependencyEdge) { e.(details := "") == f.(details := "") }

  /** What joins the identifiers of two unresolved ends. */
  const JOINT := "/ext|/"

  function Joined(source: string, target: string): string { source + JOINT + target }

  predicate JointAt(text: string, i: nat) { i + |JOINT| <= |text| && text[i..i + |JOINT|] == JOINT }

  /** The joint occurs in the joined identifiers only where it joins them. */
  predicate OneJoint(source: string, target: string) {
    forall i: nat | i <= |source| + |target| && JointAt(Joined(source, target), i) :: i == |source|
  }

  // ------------------------------------------------------------------- parts of a key

  function Ends(e: DependencyEdge): string { NodeKey(e.source) + "|" + NodeKey(e.target) }

  lemma KeyParts(cluster: string, e: DependencyEdge, f: DependencyEdge)
    requires PlainEdge(cluster, e) && PlainEdge(cluster, f)
    ensures EdgeKey(e) == EdgeKey(f) <==> Ends(e) == Ends(f) && e.kind == f.kind && e.origin == f.origin
  {
    var a, b := Ends(e) + "|" + e.kind, Ends(f) + "|" + f.kind;
    assert EdgeKey(e) == a + "|" + e.origin && EdgeKey(f) == b + "|" + f.origin;
    if EdgeKey(e) == EdgeKey(f) {
      KeyInjectiveRight(a, e.origin, b, f.origin, '|');
      KeyInjectiveRight(Ends(e), e.kind, Ends(f), f.kind, '|');
    }
  }

  /** All of an edge's ends but whether the target is external. */
  function Stem(e: DependencyEdge): string { NodeKey(e.source) + "|" + e.target.namespace + "/" + e.target.service }

  lemma EndsFromStem(e: DependencyEdge)
    ensures Ends(e) == Stem(e) + "/" + BoolStr(e.target.external) && '/' !in BoolStr(e.target.external)
  {
  }

  lemma TargetSide(e: DependencyEdge, f: DependencyEdge)
    requires Ends(e) == Ends(f)
    ensures e.target.external == f.target.external && Stem(e) == Stem(f)
  {
    EndsFromStem(e);
    EndsFromStem(f);
    KeyInjectiveRight(Stem(e), BoolStr(e.target.external), Stem(f), BoolStr(f.target.external), '/');
    assert BoolStr(true)[0] == 'e' && BoolStr(false)[0] == 'i';
  }

  lemma SourceSide(cluster: string, e: DependencyEdge, f: DependencyEdge)
    requires PlainEdge(cluster, e) && PlainEdge(cluster, f) && EdgeKey(e) == EdgeKey(f)
    ensures e.source.external == f.source.external
    ensures !e.source.external ==> e.source == f.source
  {
    if !e.source.external { EdgeKeySeparates(cluster, e, f); }
    if !f.source.external { EdgeKeySeparates(cluster, f, e); }
  }

  // ------------------------------------------------------------------- exact cases

  lemma ResolvedSource(cluster: string, e: DependencyEdge, f: DependencyEdge)
    requires PlainEdge(cluster, e) && PlainEdge(cluster, f) && EdgeKey(e) == EdgeKey(f) && !e.source.external
    ensures SameEdge(e, f)
  {
    SourceSide(cluster, e, f);
    KeyParts(cluster, e, f);
    TargetSide(e, f);
    var head := NodeKey(e.source) + "|";
    var a, b := e.target.namespace + "/" + e.target.service, f.target.namespace + "/" + f.target.service;
    assert Stem(e) == head + a && Stem(f) == head + b;
    assert Stem(e)[|head|..] == a && Stem(f)[|head|..] == b;
    KeyInjective(e.target.namespace, e.target.service, f.target.namespace, f.target.service, '/');
  }

  lemma ResolvedTarget(cluster: string, e: DependencyEdge, f: DependencyEdge)
    requires PlainEdge(cluster, e) && PlainEdge(cluster, f) && EdgeKey(e) == EdgeKey(f)
    requires e.source.external && !e.target.external
    ensures SameEdge(e, f)
  {
    SourceSide(cluster, e, f);
    KeyParts(cluster, e, f);
    TargetSide(e, f);
    var a, b := NodeKey(e.source) + "|" + e.target.namespace, NodeKey(f.source) + "|" + f.target.namespace;
    assert Stem(e) == a + "/" + e.target.service && Stem(f) == b + "/" + f.target.service;
    KeyInjectiveRight(a, e.target.service, b, f.target.service, '/');
    var c, d := "/" + e.source.service, "/" + f.source.service;
    assert a == c + "/" + ("ext|" + e.target.namespace) && b == d + "/" + ("ext|" + f.target.namespace);
    KeyInjectiveRight(c, "ext|" + e.target.namespace, d, "ext|" + f.target.namespace, '/');
    assert ("ext|" + e.target.namespace)[4..] == e.target.namespace &&
      ("ext|" + f.target.namespace)[4..] == f.target.namespace;
    assert c[1..] == e.source.service && d[1..] == f.source.service;
  }

  lemma UnresolvedEnds(cluster: string, e: DependencyEdge)
    requires PlainEdge(cluster, e) && e.source.external && e.target.external
    ensures Stem(e) == "/" + Joined(e.source.service, e.target.service)
    ensures Ends(e) == Stem(e) + "/ext"
  {
  }

  lemma UnresolvedBoth(cluster: string, e: DependencyEdge, f: DependencyEdge)
    requires PlainEdge(cluster, e) && PlainEdge(cluster, f) && EdgeKey(e) == EdgeKey(f)
    requires e.source.external && e.target.external && OneJoint(e.source.service, e.target.service)
    ensures SameEdge(e, f)
  {
    SourceSide(cluster, e, f);
    KeyParts(cluster, e, f);
    TargetSide(e, f);
    UnresolvedEnds(cluster, e);
    UnresolvedEnds(cluster, f);
    var s, t, u, v := e.source.service, e.target.service, f.source.service, f.target.service;
    var text := Joined(s, t);
    assert text == Stem(e)[1..] && Joined(u, v) == Stem(f)[1..];
    assert text[|u|..|u| + |JOINT|] == JOINT;
    assert JointAt(text, |u|);
    assert text[..|s|] == s && text[..|u|] == u && text[|s| + |JOINT|..] == t && text[|u| + |JOINT|..] == v;
  }

  // ------------------------------------------------------------------ the other case

  /** The same joined identifiers, split at another joint. */
  function SplitAt(e: DependencyEdge, i: nat): DependencyEdge
    requires JointAt(Joined(e.source.service, e.target.service), i)
  {
    var text := Joined(e.source.service, e.target.service);
    DependencyEdge(ExternalNode(text[..i]), ExternalNode(text[i + |JOINT|..]), e.kind, e.origin, e.details)
  }

  lemma SplitSharesKey(cluster: string, e: DependencyEdge, i: nat)
    requires PlainEdge(cluster, e) && e.source.external && e.target.external
    requires JointAt(Joined(e.source.service, e.target.service), i) && i != |e.source.service|
    ensures var f := SplitAt(e, i); PlainEdge(cluster, f) && EdgeKey(f) == EdgeKey(e) && !SameEdge(f, e)
  {
    var f, text := SplitAt(e, i), Joined(e.source.service, e.target.service);
    UnresolvedEnds(cluster, e);
    UnresolvedEnds(cluster, f);
    assert text == text[..i] + text[i..i + |JOINT|] + text[i + |JOINT|..];
    KeyParts(cluster, e, f);
    assert |f.source.service| == i;
  }

  /** An edge key stands for one edge, details aside, if and only if an end is resolved or the two identifiers contain
      the joint of the key only once when joined. */
  lemma EdgeKeyExact(cluster: string, e: DependencyEdge)
    requires PlainEdge(cluster, e)
    ensures (forall f | PlainEdge(cluster, f) && EdgeKey(f) == EdgeKey(e) :: SameEdge(f, e)) <==>
            !e.source.external || !e.target.external || OneJoint(e.source.service, e.target.service)
  {
    if !e.source.external || !e.target.external || OneJoint(e.source.service, e.target.service) {
      forall f | PlainEdge(cluster, f) && EdgeKey(f) == EdgeKey(e) ensures SameEdge(f, e) {
        if !e.source.external {
          ResolvedSource(cluster, e, f);
        } else if !e.target.external {
          ResolvedTarget(cluster, e, f);
        } else {
          UnresolvedBoth(cluster, e, f);
        }
      }
    } else {
      var i: nat :| i <= |e.source.service| + |e.target.service| &&
        JointAt(Joined(e.source.service, e.target.service), i) &&
                    i != |e.source.service|;
      SplitSharesKey(cluster, e, i);
    }
  }

  // --------------------------------------------------------------------- an instance

  function Call(client: string, server: string): Sample { Sample(map["client" := client, "server" := server], 1.0) }

  /** An identifier that no part of the resolution takes apart: no port, no label of a cluster name, no number. */
  predicate Opaque(id: string) {
    && id != "" && ':' !in id && '.' !in id && (forall c | c in id :: !IsSpace(c))
    && id[0] != '[' && !IsDigit(id[0]) && id[0] != '+' && id[0] != '-' && ToLower(id) == id
  }

  lemma NoPort(id: string)
    requires Opaque(id)
    ensures SplitHostPort(id) == HostPort(id, "") && !Numeric(id)
  {
    assert Count(id, ':') == 0 && LastIndexOf(id, ':') == -1;
    assert id[0] in id;
  }

  lemma OpaqueExternal(r: Resolver, id: string)
    requires Opaque(id)
    ensures r.ResolveEndpoint(id, "").node == ExternalNode(id)
    ensures r.ResolveEndpoint(id, "").kind == KIND_EXTERNAL || DatabaseSystem(id) || MessagingSystem(id)
  {
    TrimSpacePadded("", id, "");
    assert "" + id + "" == id;
    NoPort(id);
    NoLabels(id);
    assert r.Resolve(id) == Resolver.Classify(HostPort(id, ""));
  }

  lemma SystemLengths(id: string)
    requires DatabaseSystem(id) || MessagingSystem(id)
    ensures |id| != 2 && |id| != 12
  {
  }

  const A := "a"
  const B := "bbbb/ext|/cc"
  const C := "a/ext|/bbbb"
  const D := "cc"

  lemma LowerCase(id: string)
    requires forall c | c in id :: !('A' <= c <= 'Z')
    ensures ToLower(id) == id
  {
    assert forall i | 0 <= i < |id| :: id[i] in id;
  }

  lemma InstanceOpaque(id: string)
    requires id in {A, B, C, D}
    ensures Opaque(id)
  {
    assert forall c | c in id :: c in {'a', 'b', 'c', 'e', 'x', 't', '/', '|'};
    LowerCase(id);
  }

  lemma CallLabels(client: string, server: string)
    ensures
      var m := Call(client, server).metric;
      && Label(m, "client") == client && Label(m, "server") == server
      && Label(m, "client_k8s_namespace_name") == "" && Label(m, "server_k8s_namespace_name") == ""
  {
  }

  function CallEdge(client: string, server: string): DependencyEdge {
    DependencyEdge(ExternalNode(client), ExternalNode(server), KIND_SERVICE, ORIGIN_SERVICE_GRAPH,
                   client + " \U{2192} " + server)
  }

  /** A call between two identifiers that name nothing known is drawn between two external services. */
  lemma OpaqueCall(ctx: Context, client: string, server: string)
    requires Opaque(client) && Opaque(server) && !DatabaseSystem(server) && !MessagingSystem(server)
    requires !EgressBucket(client) && !EgressBucket(server)
    ensures ServiceGraphEffect(ctx, Call(client, server)) ==
            Emit(CallEdge(client, server), Nothing)
  {
    CallLabels(client, server);
    OpaqueExternal(ctx.res, client);
    OpaqueExternal(ctx.res, server);
  }

  lemma OneSample(ctx: Context, st: State, s: Sample)
    requires ServiceGraphEffect(ctx, s).Emit?
    ensures ServiceGraphStep(ctx)(st, s).edges == AddBy(EdgeKey, st.edges, ServiceGraphEffect(ctx, s).edge)
  {
  }

  lemma SecondLost(first: DependencyEdge, second: DependencyEdge)
    requires EdgeKey(first) == EdgeKey(second)
    ensures AddBy(EdgeKey, AddBy(EdgeKey, [], first), second) == [first]
  {
    assert AddBy(EdgeKey, [], first) == [first] && first in [first];
  }

  lemma FoldTwo<S, T>(f: (S, T) -> S, s: S, x: T, y: T)
    ensures Fold(f, s, [x, y]) == f(f(s, x), y)
  {
    FoldSnoc(f, s, [], x);
    FoldSnoc(f, s, [x], y);
    assert [] + [x] == [x] && [x] + [y] == [x, y];
  }

  lemma TwoSamples(ctx: Context, st: State, x: Sample, y: Sample)
    requires st.edges == [] && ServiceGraphEffect(ctx, x).Emit? && ServiceGraphEffect(ctx, y).Emit?
    requires EdgeKey(ServiceGraphEffect(ctx, x).edge) == EdgeKey(ServiceGraphEffect(ctx, y).edge)
    ensures Fold(ServiceGraphStep(ctx), st, [x, y]).edges == [ServiceGraphEffect(ctx, x).edge]
  {
    FoldTwo(ServiceGraphStep(ctx), st, x, y);
    OneSample(ctx, st, x);
    OneSample(ctx, ServiceGraphStep(ctx)(st, x), y);
    SecondLost(ServiceGraphEffect(ctx, x).edge, ServiceGraphEffect(ctx, y).edge);
  }

  lemma SameKey(e: DependencyEdge, f: DependencyEdge)
    requires PlainEdge("", e) && PlainEdge("", f) && e.kind == f.kind && e.origin == f.origin
    requires e.source.external && e.target.external && f.source.external && f.target.external
    requires Joined(e.source.service, e.target.service) == Joined(f.source.service, f.target.service)
    ensures EdgeKey(e) == EdgeKey(f)
  {
    UnresolvedEnds("", e);
    UnresolvedEnds("", f);
    KeyParts("", e, f);
  }

  /** Two calls whose identifiers read the same when joined give different edges under one key: the second is lost. */
  lemma SharedKey(ctx: Context, st: State, a: string, b: string, c: string, d: string)
    requires st.edges == [] && Opaque(a) && Opaque(b) && Opaque(c) && Opaque(d)
    requires !EgressBucket(a) && !EgressBucket(b) && !EgressBucket(c) && !EgressBucket(d)
    requires !DatabaseSystem(b) && !MessagingSystem(b) && !DatabaseSystem(d) && !MessagingSystem(d)
    requires Joined(a, b) == Joined(c, d) && a != c
    ensures Loses(ctx, st, Call(a, b), Call(c, d))
  {
    OpaqueCall(ctx, a, b);
    OpaqueCall(ctx, c, d);
    CallsShareKey(a, b, c, d);
    TwoSamples(ctx, st, Call(a, b), Call(c, d));
  }

  lemma CallsShareKey(a: string, b: string, c: string, d: string)
    requires Joined(a, b) == Joined(c, d) && a != c
    ensures EdgeKey(CallEdge(a, b)) == EdgeKey(CallEdge(c, d)) && !SameEdge(CallEdge(a, b), CallEdge(c, d))
  {
    SameKey(CallEdge(a, b), CallEdge(c, d));
  }

  /** Both samples stand for an edge, the edges differ, and only the first is kept. */
  ghost predicate Loses(ctx: Context, st: State, x: Sample, y: Sample) {
    var first, second := ServiceGraphEffect(ctx, x), ServiceGraphEffect(ctx, y);
    && first.Emit? && second.Emit? && !SameEdge(first.edge, second.edge)
    && Fold(ServiceGraphStep(ctx), st, [x, y]).edges == [first.edge]
  }

  /** An instance that needs nothing of the catalog. */
  lemma EdgeKeyAmbiguous(ctx: Context, st: State)
    requires st.edges == []
    ensures Loses(ctx, st, Call(A, B), Call(C, D))
  {
    InstanceOpaque(A);
    InstanceOpaque(B);
    InstanceOpaque(C);
    InstanceOpaque(D);
    assert Joined(A, B) == Joined(C, D);
    if DatabaseSystem(B) || MessagingSystem(B) { SystemLengths(B); }
    if DatabaseSystem(D) || MessagingSystem(D) { SystemLengths(D); }
    SharedKey(ctx, st, A, B, C, D);
  }
}
