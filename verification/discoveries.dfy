/** What API discovery probes and records, over the catalog's own fields and annotations. */
module Discoveries {
  import opened Text
  import opened Sequences
  import opened Catalog
  import opened Mounts
  import opened Swagger
  import opened SwaggerTheorems
  import Probing

  // ------------------------------------------------------------------------- probes

  const WELL_KNOWN := {
    "/swagger", "/swagger/index.html", "/swagger.json", "/swagger/v1/swagger.json", "/api-docs",
    "/openapi", "/openapi.json", "/v3/api-docs", "/.well-known/openapi"}

  /** The catalog calls for this probe: the application did not opt out, the host is the service's, the port is one of
      its ports, and the path is well known or the declared one. */
  ghost predicate CallsFor(apps: seq<ApplicationEntry>, job: Job) {
    && job.app < |apps| && job.svc < |apps[job.app].services|
    && var app, svc := apps[job.app], apps[job.app].services[job.svc];
       && Label(app.annotations, "dfds.cloud/openapi-probe") != "false"
       && job.host == svc.name + "." + app.namespace + ".svc.cluster.local"
       && (exists p :: p in svc.ports && p.port == job.port)
       && (job.path in WELL_KNOWN || (job.path != "" && job.path == Label(app.annotations, "dfds.cloud/openapi-path")))
  }

  lemma PortOf(svc: ServiceRef, port: int)
    ensures port in Ports(svc) <==> exists p :: p in svc.ports && p.port == port
  {
    DedupMembers(Map(NumberOf, svc.ports), port);
    if p :| p in svc.ports && p.port == port {
      var k :| 0 <= k < |svc.ports| && svc.ports[k] == p;
      assert Map(NumberOf, svc.ports)[k] == port;
    }
    if port in Map(NumberOf, svc.ports) {
      var k :| 0 <= k < |svc.ports| && Map(NumberOf, svc.ports)[k] == port;
      assert svc.ports[k] in svc.ports && svc.ports[k].port == port;
    }
  }

  lemma DefaultPath(path: string)
    ensures path in DEFAULT_PATHS <==> path in WELL_KNOWN
  {
  }

  lemma PathOfApp(app: ApplicationEntry, path: string)
    ensures path in Paths(app) <==>
            path in WELL_KNOWN || (path != "" && path == Label(app.annotations, "dfds.cloud/openapi-path"))
  {
    DefaultPath(path);
    ExtraPath(DEFAULT_PATHS, Label(app.annotations, "dfds.cloud/openapi-path"), path);
  }

  lemma ExtraPath(defaults: seq<string>, extra: string, path: string)
    ensures path in AddBy(Id, defaults, extra) <==> path in defaults || path == extra
  {
  }

  /** The probes of a cycle are exactly those the catalog calls for. */
  lemma ProbesExact(apps: seq<ApplicationEntry>, job: Job)
    ensures job in Jobs(apps, |apps|) <==> CallsFor(apps, job)
  {
    JobsExact(apps, |apps|);
    assert job in Jobs(apps, |apps|) <==> CalledBefore(apps, |apps|)(job);
    DeclaredCalls(apps, job);
  }

  lemma DeclaredCalls(apps: seq<ApplicationEntry>, job: Job)
    ensures Declared(apps, job) <==> CallsFor(apps, job)
  {
    if job.app < |apps| && job.svc < |apps[job.app].services| {
      PortOf(apps[job.app].services[job.svc], job.port);
      PathOfApp(apps[job.app], job.path);
    }
  }

  // ------------------------------------------------------------------ external URLs

  /** A request for `ext` on `host` reaches the document at `path` through the route: on its first host and one of its
      prefixes, or on the whole host when it has none; a path already under the prefix is kept, any other follows it. */
  ghost predicate Reaches(r: RouteRef, path: string, host: string, ext: string) {
    && r.hosts != [] && host == r.hosts[0]
    && exists prefix, core ::
         (prefix in r.pathPrefixes || (r.pathPrefixes == [] && prefix == "")) && Stripped(prefix, core) &&
         ext == if core == "" || path == "/" + core || "/" + core + "/" <= path then path else "/" + core + path
  }

  lemma MountReaches(prefix: string, core: string, path: string)
    requires Stripped(prefix, core)
    ensures ExternalPathForMount(prefix, path) ==
            if core == "" || path == "/" + core || "/" + core + "/" <= path then path else "/" + core + path
  {
    StrippedExact(prefix, core);
    assert MountPoint(prefix) == "/" + core;
  }

  lemma RouteMountsIn(r: RouteRef, m: Mount)
    ensures m in RouteMounts(r) <==>
            r.hosts != [] && m.host == r.hosts[0] &&
              (m.prefix in r.pathPrefixes || (r.pathPrefixes == [] && m.prefix == ""))
  {
    if r.hosts != [] {
      var prefixes := if r.pathPrefixes == [] then [""] else r.pathPrefixes;
      if m.prefix in prefixes && m.host == r.hosts[0] {
        var k :| 0 <= k < |prefixes| && prefixes[k] == m.prefix;
        assert Map(MountOn(r.hosts[0]), prefixes)[k] == m;
      }
    }
  }

  lemma ReachesByMount(routes: seq<RouteRef>, path: string, host: string, ext: string)
    ensures (exists r :: r in routes && Reaches(r, path, host, ext)) <==>
            exists m :: m in AllMounts(routes) && m.host == host && PathVia(m, path) == ext
  {
    if r :| r in routes && Reaches(r, path, host, ext) {
      var prefix, core :| (prefix in r.pathPrefixes || (r.pathPrefixes == [] && prefix == "")) &&
        Stripped(prefix, core) &&
        ext == if core == "" || path == "/" + core || "/" + core + "/" <= path then path else "/" + core + path;
      MountReaches(prefix, core, path);
      RouteMountsIn(r, Mount(host, prefix));
      FlattenMapIn(RouteMounts, routes, Mount(host, prefix));
    }
    if m :| m in AllMounts(routes) && m.host == host && PathVia(m, path) == ext {
      FlattenMapIn(RouteMounts, routes, m);
      var r :| r in routes && m in RouteMounts(r);
      RouteMountsIn(r, m);
      StrippedExact(m.prefix, Trim(IsSlash, m.prefix));
      MountReaches(m.prefix, Trim(IsSlash, m.prefix), path);
    }
  }

  /** A request for `ext` on `host` reaches the document, and no request that does has a path of fewer bytes. */
  ghost predicate ShortestReach(routes: seq<RouteRef>, path: string, host: string, ext: string) {
    && (exists r :: r in routes && Reaches(r, path, host, ext))
    && forall host', ext', r | r in routes && Reaches(r, path, host', ext') :: Bytes(ext) <= Bytes(ext')
  }

  /** The external URL of a document: none when no route has a host, else that of a shortest request that reaches it. */
  ghost predicate URLIs(routes: seq<RouteRef>, path: string, url: Option<string>) {
    if forall r | r in routes :: r.hosts == [] then url == None
    else exists host, ext :: ShortestReach(routes, path, host, ext) && url == Some("https://" + host + ext)
  }

  lemma NoneShorter(routes: seq<RouteRef>, path: string, i: nat, r: RouteRef, host: string, ext: string)
    requires Wins(AllMounts(routes), path, i) && r in routes && Reaches(r, path, host, ext)
    ensures Bytes(PathVia(AllMounts(routes)[i], path)) <= Bytes(ext)
  {
    var mounts := AllMounts(routes);
    ReachesByMount(routes, path, host, ext);
    var m :| m in mounts && m.host == host && PathVia(m, path) == ext;
    LeastOf(LengthVia(path), mounts, i, m);
  }

  lemma LeastOf<T>(cost: T -> nat, xs: seq<T>, i: nat, x: T)
    requires Least(cost, xs, i) && x in xs
    ensures cost(xs[i]) <= cost(x)
  {
  }

  lemma WinnerReaches(routes: seq<RouteRef>, path: string, i: nat)
    requires Wins(AllMounts(routes), path, i)
    ensures ShortestReach(routes, path, AllMounts(routes)[i].host, PathVia(AllMounts(routes)[i], path))
  {
    var m := AllMounts(routes)[i];
    assert m in AllMounts(routes);
    ReachesByMount(routes, path, m.host, PathVia(m, path));
    forall host', ext', r | r in routes && Reaches(r, path, host', ext') {
      NoneShorter(routes, path, i, r, host', ext');
    }
  }

  lemma ExternalURLShown(routes: seq<RouteRef>, path: string)
    requires NamedHosts(routes) && StartsWithSlash(path)
    ensures URLIs(routes, path, URLOf(Chosen(AllMounts(routes), path)))
  {
    var i := ExternalURLExact(routes, path);
    if Chosen(AllMounts(routes), path).0 != "" { WinnerReaches(routes, path, i); }
  }

  // ---------------------------------------------------------------------- documents

  /** The document that a probe finds on a service with these routes. */
  ghost predicate FoundBy(job: Job, routes: seq<RouteRef>, doc: APIDocInfo) {
    && doc.port == job.port && doc.path == job.path
    && doc.url == "http://" + job.host + ":" + Probing.Itoa(job.port) + job.path
    && exists url ::
      URLIs(routes, job.path, url) && doc.externallyAvailable == url.Some? && doc.externalURL == url.GetOr("")
  }

  lemma AnnotatedFields(job: Job, routes: seq<RouteRef>)
    ensures
      var url := URLOf(Chosen(AllMounts(routes), job.path));
      AnnotatedDoc(routes)(job) == DocOf(job).(externallyAvailable := url.Some?, externalURL := url.GetOr(""))
  {
    var doc := DocOf(job);
    assert AnnotatedDoc(routes)(job) == Annotated(routes)(doc) && doc.path == job.path;
  }

  lemma DocFound(job: Job, routes: seq<RouteRef>)
    requires NamedHosts(routes) && StartsWithSlash(job.path)
    ensures FoundBy(job, routes, AnnotatedDoc(routes)(job))
  {
    ExternalURLShown(routes, job.path);
    AnnotatedFields(job, routes);
  }

  /** The documents of a service with hits are those that its answered probes find, one for each port and path. */
  lemma DocumentsShown(was: seq<ApplicationEntry>, now: seq<ApplicationEntry>, hit: Job -> bool, key: Key)
    requires Recorded(was, now, Finds(was, hit)) && ServiceAt(was, key) && Finds(was, hit)(key) != []
    requires NamedHosts(was[key.app].services[key.svc].routes)
    requires forall job | CallsFor(was, job) :: StartsWithSlash(job.path)
    ensures
      var svc, docs := was[key.app].services[key.svc], now[key.app].services[key.svc].apiDocs;
      && DistinctBy(DocKey, docs)
      && (forall doc | doc in docs ::
            exists job ::
              CallsFor(was, job) && job.app == key.app && job.svc == key.svc && hit(job) &&
                FoundBy(job, svc.routes, doc))
      && (forall job | CallsFor(was, job) && job.app == key.app && job.svc == key.svc && hit(job) ::
            exists doc :: doc in docs && FoundBy(job, svc.routes, doc))
  {
    DocsExact(was, now, hit, key);
    var svc, docs := was[key.app].services[key.svc], now[key.app].services[key.svc].apiDocs;
    StrictDistinct(docs);
    forall job ensures Declared(was, job) <==> CallsFor(was, job) { DeclaredCalls(was, job); }
    forall doc | doc in docs
      ensures exists job ::
                CallsFor(was, job) && job.app == key.app && job.svc == key.svc && hit(job) &&
                  FoundBy(job, svc.routes, doc)
    {
      var job :| Hitting(was, hit, key, job) && doc == AnnotatedDoc(svc.routes)(job);
      DocFound(job, svc.routes);
    }
    forall job | CallsFor(was, job) && job.app == key.app && job.svc == key.svc && hit(job)
      ensures exists doc :: doc in docs && FoundBy(job, svc.routes, doc)
    {
      DocFound(job, svc.routes);
      assert Hitting(was, hit, key, job);
      assert AnnotatedDoc(svc.routes)(job) in docs;
    }
  }

  lemma StrictDistinct(docs: seq<APIDocInfo>)
    requires StrictlySorted(docs)
    ensures DistinctBy(DocKey, docs)
  {
    forall i, j | 0 <= i < j < |docs| ensures DocKey(docs[i]) != DocKey(docs[j]) { LexIrreflexive(docs[i].path); }
  }
}
