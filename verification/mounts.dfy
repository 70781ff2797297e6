/** External URLs of API documents: which route mount they are reached through. */
module Mounts {
  import opened Text
  import opened Sequences
  import opened Catalog

  /** The request path that reaches a document through a route with this path prefix: the document's own path when it
      is already under the prefix, else the prefix followed by it. */
  function ExternalPathForMount(prefix: string, docPath: string): string {
    var p := MountPoint(prefix);
    if p == "/" || docPath == p || (p + "/") <= docPath then docPath else p + docPath
  }

  function MountPoint(prefix: string): string { "/" + Trim(IsSlash, prefix) }

  predicate StartsWithSlash(path: string) { path != "" && path[0] == '/' }

  /** A request path that a route with this prefix serves. */
  predicate LiesUnder(path: string, prefix: string) {
    var p := MountPoint(prefix);
    if p == "/" then StartsWithSlash(path) else path == p || (p + "/") <= path
  }

  /** The external path lies under the mount exactly when the document path is rooted. */
  lemma ExternalPathUnderMount(prefix: string, docPath: string)
    requires docPath != ""
    ensures LiesUnder(ExternalPathForMount(prefix, docPath), prefix) <==> StartsWithSlash(docPath)
  {
    var p := MountPoint(prefix);
    if p != "/" {
      assert (p + docPath)[..|p|] == p && (p + docPath)[|p|] == docPath[0];
      if StartsWithSlash(docPath) {
        assert (p + docPath)[..|p| + 1] == p + "/";
      } else {
        assert (p + "/")[|p|] == '/';
      }
    }
  }

  /** One host and path prefix that a route exposes the service on. */
  datatype Mount = Mount(host: string, prefix: string)

  function MountOn(host: string): string -> Mount { (prefix: string) => Mount(host, prefix) }

  /** A route without hosts exposes nothing; one without prefixes mounts the service at the root. */
  function RouteMounts(r: RouteRef): seq<Mount> {
    if r.hosts == [] then []
    else Map(MountOn(r.hosts[0]), if r.pathPrefixes == [] then [""] else r.pathPrefixes)
  }

  function AllMounts(routes: seq<RouteRef>): seq<Mount> { Flatten(Map(RouteMounts, routes)) }

  /** The choice so far: a host, empty while there is none, and the external path on it. */
  type Choice = (string, string)

  function Better(path: string): (Choice, Mount) -> Choice {
    (best: Choice, m: Mount) =>
      var ext := ExternalPathForMount(m.prefix, path);
      if best.0 == "" || Bytes(ext) < Bytes(best.1) then (m.host, ext) else best
  }

  function Chosen(mounts: seq<Mount>, path: string): Choice { Fold(Better(path), ("", ""), mounts) }

  function URLOf(best: Choice): Option<string> {
    if best.0 == "" then None else Some("https://" + best.0 + best.1)
  }

  /** Consider the mounts of one more route. */
  method ConsiderRoute(r: RouteRef, path: string, before: Choice) returns (best: Choice)
    ensures best == Fold(Better(path), before, RouteMounts(r))
  {
    best := before;
    if r.hosts == [] { return; }
    var host, prefixes := r.hosts[0], if r.pathPrefixes == [] then [""] else r.pathPrefixes;
    for k := 0 to |prefixes|
      invariant best == Fold(Better(path), before, Map(MountOn(host), prefixes[..k]))
    {
      MapNext(MountOn(host), prefixes, k);
      FoldSnoc(Better(path), before, Map(MountOn(host), prefixes[..k]), Mount(host, prefixes[k]));
      var ext := ExternalPathForMount(prefixes[k], path);
      if best.0 == "" || Bytes(ext) < Bytes(best.1) { best := (host, ext); }
    }
    assert prefixes[..|prefixes|] == prefixes;
  }

  method ExternalURLForPath(routes: seq<RouteRef>, path: string) returns (url: Option<string>)
    ensures url == URLOf(Chosen(AllMounts(routes), path))
  {
    var best: Choice := ("", "");
    for i := 0 to |routes|
      invariant best == Chosen(AllMounts(routes[..i]), path)
    {
      assert routes[..i + 1] == routes[..i] + [routes[i]];
      FlattenMapSnoc(RouteMounts, routes[..i], routes[i]);
      FoldAppend(Better(path), ("", ""), AllMounts(routes[..i]), RouteMounts(routes[i]));
      best := ConsiderRoute(routes[i], path, best);
    }
    assert routes[..|routes|] == routes;
    url := URLOf(best);
  }

  /** Mount `i` is the earliest of those with the shortest external path. */
  ghost predicate Wins(mounts: seq<Mount>, path: string, i: nat) {
    Least(LengthVia(path), mounts, i)
  }

  function PathVia(m: Mount, path: string): string { ExternalPathForMount(m.prefix, path) }

  function LengthVia(path: string): Mount -> nat { (m: Mount) => Bytes(PathVia(m, path)) }

  /** With named hosts, the earliest mount of least external path is chosen. */
  lemma {:induction false} ChosenExact(mounts: seq<Mount>, path: string) returns (i: nat)
    requires mounts != [] && forall m | m in mounts :: m.host != ""
    ensures Wins(mounts, path, i) && Chosen(mounts, path) == (mounts[i].host, PathVia(mounts[i], path))
  {
    var n := |mounts| - 1;
    assert mounts[n] in mounts;
    assert Chosen(mounts, path) == Better(path)(Chosen(mounts[..n], path), mounts[n]);
    if n == 0 {
      i := 0;
    } else {
      i := ChosenExact(mounts[..n], path);
      LeastNext(LengthVia(path), mounts, i);
      assert mounts[i] in mounts;
      if Bytes(PathVia(mounts[n], path)) < Bytes(PathVia(mounts[i], path)) { i := n; }
    }
  }

  ghost predicate NamedHosts(routes: seq<RouteRef>) {
    forall r | r in routes :: forall h | h in r.hosts :: h != ""
  }

  lemma MountIn(routes: seq<RouteRef>, m: Mount) returns (r: RouteRef)
    requires m in AllMounts(routes)
    ensures r in routes && r.hosts != [] && m.host == r.hosts[0] && m in RouteMounts(r)
  {
    FlattenIn(Map(RouteMounts, routes), m);
    var i :| 0 <= i < |routes| && m in Map(RouteMounts, routes)[i];
    r := routes[i];
  }

  lemma RouteHasMount(routes: seq<RouteRef>, r: RouteRef)
    requires r in routes && r.hosts != []
    ensures AllMounts(routes) != []
  {
    var i :| 0 <= i < |routes| && routes[i] == r;
    FlattenIn(Map(RouteMounts, routes), RouteMounts(r)[0]);
    assert RouteMounts(r)[0] in Map(RouteMounts, routes)[i];
  }

  /** What a document's external URL is: there is one exactly when some route has a host; it is that of the earliest
      mount with the shortest external path, and the path lies under that mount. */
  lemma ExternalURLExact(routes: seq<RouteRef>, path: string) returns (i: nat)
    requires NamedHosts(routes) && StartsWithSlash(path)
    ensures
      var mounts, best := AllMounts(routes), Chosen(AllMounts(routes), path);
      && (best.0 != "" <==> exists r :: r in routes && r.hosts != [])
      && (best.0 != "" ==>
            && Wins(mounts, path, i) && best == (mounts[i].host, PathVia(mounts[i], path))
            && LiesUnder(best.1, mounts[i].prefix))
  {
    var mounts := AllMounts(routes);
    i := 0;
    if mounts == [] {
      if r :| r in routes && r.hosts != [] { RouteHasMount(routes, r); }
    } else {
      forall m | m in mounts ensures m.host != "" {
        var r := MountIn(routes, m);
        assert r.hosts[0] in r.hosts;
      }
      i := ChosenExact(mounts, path);
      assert mounts[i] in mounts;
      var r := MountIn(routes, mounts[i]);
      ExternalPathUnderMount(mounts[i].prefix, path);
    }
  }
}
