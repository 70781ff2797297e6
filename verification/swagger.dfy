/** OpenAPI discovery: every (port, path) of every service is probed concurrently, the hits are recorded in order. */
module Swagger {
  import opened Text
  import opened Sequences
  import opened Catalog
  import opened Mounts
  import Probing

  const PROBE_OPT_OUT := "dfds.cloud/openapi-probe"
  const PROBE_PATH := "dfds.cloud/openapi-path"

  const DEFAULT_PATHS := [
    "/swagger", "/swagger/index.html", "/swagger.json", "/swagger/v1/swagger.json", "/api-docs",
    "/openapi", "/openapi.json", "/v3/api-docs", "/.well-known/openapi"]

  // ------------------------------------------------------------------------- jobs

  datatype Job = Job(app: nat, svc: nat, host: string, port: int, path: string)

  predicate OptedOut(app: ApplicationEntry) { Label(app.annotations, PROBE_OPT_OUT) == "false" }

  /** The default paths, and the declared one if it is not among them. */
  function Paths(app: ApplicationEntry): seq<string> {
    var extra := Label(app.annotations, PROBE_PATH);
    if extra == "" then DEFAULT_PATHS else AddBy(Id, DEFAULT_PATHS, extra)
  }

  function NumberOf(p: ServicePort): int { p.port }
  function Ports(svc: ServiceRef): seq<int> { DedupBy(Id, Map(NumberOf, svc.ports)) }
  function ServiceHost(app: ApplicationEntry, svc: ServiceRef): string {
    svc.name + "." + app.namespace + ".svc.cluster.local"
  }

  function JobAt(i: nat, j: nat, host: string, port: int): string -> Job {
    (path: string) => Job(i, j, host, port, path)
  }

  function PortJobs(i: nat, j: nat, host: string, ports: seq<int>, paths: seq<string>): seq<Job> {
    if ports == [] then []
    else PortJobs(i, j, host, ports[..|ports| - 1], paths) + Map(JobAt(i, j, host, ports[|ports| - 1]), paths)
  }

  function ServiceJobs(paths: seq<string>, app: ApplicationEntry, i: nat, j: nat): seq<Job>
    requires j < |app.services|
  {
    PortJobs(i, j, ServiceHost(app, app.services[j]), Ports(app.services[j]), paths)
  }

  /** The probes of the first `n` services of an application. */
  function ServicesJobs(paths: seq<string>, app: ApplicationEntry, i: nat, n: nat): seq<Job>
    requires n <= |app.services|
  {
    if n == 0 then [] else ServicesJobs(paths, app, i, n - 1) + ServiceJobs(paths, app, i, n - 1)
  }

  /** The probes of one application: none if it opted out. */
  function AppJobs(app: ApplicationEntry, i: nat): seq<Job> {
    if OptedOut(app) then [] else ServicesJobs(Paths(app), app, i, |app.services|)
  }

  /** The probes of the first `n` applications. */
  function Jobs(apps: seq<ApplicationEntry>, n: nat): seq<Job>
    requires n <= |apps|
  {
    if n == 0 then [] else Jobs(apps, n - 1) + AppJobs(apps[n - 1], n - 1)
  }

  /** A probe that the catalog calls for. */
  predicate Declared(apps: seq<ApplicationEntry>, job: Job) {
    && job.app < |apps| && job.svc < |apps[job.app].services| && !OptedOut(apps[job.app])
    && var svc := apps[job.app].services[job.svc];
       job.host == ServiceHost(apps[job.app], svc) && job.port in Ports(svc) && job.path in Paths(apps[job.app])
  }

  /** Within a service a probe is identified by its port and path. */
  function JobKey(job: Job): (nat, nat, int, string) { (job.app, job.svc, job.port, job.path) }

  lemma PathsDistinct(app: ApplicationEntry)
    ensures DistinctBy(Id, Paths(app))
  {
  }

  lemma PortsDistinct(svc: ServiceRef)
    ensures DistinctBy(Id, Ports(svc))
  {
    AddAllByKeys(Id, [], Map(NumberOf, svc.ports));
  }

  /** The list holds the jobs that satisfy `p`, each once and under its own key. */
  ghost predicate Exactly(jobs: seq<Job>, p: Job -> bool) {
    DistinctBy(JobKey, jobs) && forall job :: job in jobs <==> p(job)
  }

  lemma ExactlyAppend(a: seq<Job>, p: Job -> bool, b: seq<Job>, q: Job -> bool, r: Job -> bool)
    requires Exactly(a, p) && Exactly(b, q)
    requires forall x, y | p(x) && q(y) :: JobKey(x) != JobKey(y)
    requires forall job :: r(job) == (p(job) || q(job))
    ensures Exactly(a + b, r)
  {
  }

  lemma NoneCalledFor(p: Job -> bool)
    requires forall job :: !p(job)
    ensures Exactly([], p)
  {
  }

  function OnPort(i: nat, j: nat, host: string, port: int, paths: seq<string>): Job -> bool {
    (job: Job) => job.app == i && job.svc == j && job.host == host && job.port == port && job.path in paths
  }

  function OnPorts(i: nat, j: nat, host: string, ports: seq<int>, paths: seq<string>): Job -> bool {
    (job: Job) => job.app == i && job.svc == j && job.host == host && job.port in ports && job.path in paths
  }

  lemma OnePortExact(i: nat, j: nat, host: string, port: int, paths: seq<string>)
    requires DistinctBy(Id, paths)
    ensures Exactly(Map(JobAt(i, j, host, port), paths), OnPort(i, j, host, port, paths))
  {
  }

  lemma {:induction false} PortJobsExact(i: nat, j: nat, host: string, ports: seq<int>, paths: seq<string>)
    requires DistinctBy(Id, ports) && DistinctBy(Id, paths)
    ensures Exactly(PortJobs(i, j, host, ports, paths), OnPorts(i, j, host, ports, paths))
  {
    if ports != [] {
      var n := |ports| - 1;
      PortJobsExact(i, j, host, ports[..n], paths);
      OnePortExact(i, j, host, ports[n], paths);
      assert ports == ports[..n] + [ports[n]];
      assert forall x | 0 <= x < n :: Id(ports[x]) != Id(ports[n]);
      ExactlyAppend(PortJobs(i, j, host, ports[..n], paths), OnPorts(i, j, host, ports[..n], paths),
                    Map(JobAt(i, j, host, ports[n]), paths), OnPort(i, j, host, ports[n], paths),
                    OnPorts(i, j, host, ports, paths));
    }
  }

  /** The probes of the first `n` services of application number `i`. */
  function OnApp(paths: seq<string>, app: ApplicationEntry, i: nat, n: nat): Job -> bool
    requires n <= |app.services|
  {
    (job: Job) =>
      && job.app == i && job.svc < n && job.path in paths
      && job.host == ServiceHost(app, app.services[job.svc]) && job.port in Ports(app.services[job.svc])
  }

  lemma OneMoreService(paths: seq<string>, app: ApplicationEntry, i: nat, n: nat, jobs: seq<Job>)
    requires 0 < n <= |app.services| && DistinctBy(Id, paths) && Exactly(jobs, OnApp(paths, app, i, n - 1))
    ensures Exactly(jobs + ServiceJobs(paths, app, i, n - 1), OnApp(paths, app, i, n))
  {
    var svc := app.services[n - 1];
    PortsDistinct(svc);
    PortJobsExact(i, n - 1, ServiceHost(app, svc), Ports(svc), paths);
    ExactlyAppend(jobs, OnApp(paths, app, i, n - 1), ServiceJobs(paths, app, i, n - 1),
                  OnPorts(i, n - 1, ServiceHost(app, svc), Ports(svc), paths), OnApp(paths, app, i, n));
  }

  lemma {:induction false} ServicesJobsExact(paths: seq<string>, app: ApplicationEntry, i: nat, n: nat)
    requires n <= |app.services| && DistinctBy(Id, paths)
    ensures Exactly(ServicesJobs(paths, app, i, n), OnApp(paths, app, i, n))
  {
    if n == 0 {
      NoneCalledFor(OnApp(paths, app, i, n));
    } else {
      ServicesJobsExact(paths, app, i, n - 1);
      OneMoreService(paths, app, i, n, ServicesJobs(paths, app, i, n - 1));
    }
  }

  /** The probes that the catalog calls for in application number `i`. */
  function Of(apps: seq<ApplicationEntry>, i: nat): Job -> bool {
    (job: Job) => Declared(apps, job) && job.app == i
  }

  /** The probes that the catalog calls for in the first `n` applications. */
  function CalledBefore(apps: seq<ApplicationEntry>, n: nat): Job -> bool {
    (job: Job) => Declared(apps, job) && job.app < n
  }

  lemma AppJobsExact(apps: seq<ApplicationEntry>, i: nat)
    requires i < |apps|
    ensures Exactly(AppJobs(apps[i], i), Of(apps, i))
  {
    if OptedOut(apps[i]) {
      NoneCalledFor(Of(apps, i));
    } else {
      PathsDistinct(apps[i]);
      ServicesJobsExact(Paths(apps[i]), apps[i], i, |apps[i].services|);
      forall job ensures Of(apps, i)(job) == OnApp(Paths(apps[i]), apps[i], i, |apps[i].services|)(job) {}
    }
  }

  lemma CalledOrOf(apps: seq<ApplicationEntry>, n: nat, job: Job)
    requires 0 < n
    ensures CalledBefore(apps, n)(job) == (CalledBefore(apps, n - 1)(job) || Of(apps, n - 1)(job))
  {
  }

  lemma CalledApart(apps: seq<ApplicationEntry>, i: nat, x: Job, y: Job)
    requires CalledBefore(apps, i)(x) && Of(apps, i)(y)
    ensures JobKey(x) != JobKey(y)
  {
  }

  lemma OneMoreApp(apps: seq<ApplicationEntry>, n: nat, jobs: seq<Job>)
    requires 0 < n <= |apps| && Exactly(jobs, CalledBefore(apps, n - 1))
    ensures Exactly(jobs + AppJobs(apps[n - 1], n - 1), CalledBefore(apps, n))
  {
    AppJobsExact(apps, n - 1);
    forall job { CalledOrOf(apps, n, job); }
    forall x, y | CalledBefore(apps, n - 1)(x) && Of(apps, n - 1)(y) ensures JobKey(x) != JobKey(y) {
      CalledApart(apps, n - 1, x, y);
    }
    ExactlyAppend(jobs, CalledBefore(apps, n - 1), AppJobs(apps[n - 1], n - 1), Of(apps, n - 1), CalledBefore(apps, n));
  }

  /** The job list holds exactly the probes that are called for, and no (port, path) of a service twice. */
  lemma {:induction false} JobsExact(apps: seq<ApplicationEntry>, n: nat)
    requires n <= |apps|
    ensures Exactly(Jobs(apps, n), CalledBefore(apps, n))
  {
    if n == 0 {
      NoneCalledFor(CalledBefore(apps, n));
    } else {
      JobsExact(apps, n - 1);
      OneMoreApp(apps, n, Jobs(apps, n - 1));
    }
  }

  method WithPath(defaults: seq<string>, extra: string) returns (paths: seq<string>)
    ensures paths == AddBy(Id, defaults, extra)
  {
    for k := 0 to |defaults|
      invariant extra !in defaults[..k]
    {
      if defaults[k] == extra { return defaults; }
    }
    paths := defaults + [extra];
  }

  method PortProbes(i: nat, j: nat, host: string, port: int, paths: seq<string>) returns (jobs: seq<Job>)
    ensures jobs == Map(JobAt(i, j, host, port), paths)
  {
    jobs := [];
    for l := 0 to |paths|
      invariant jobs == Map(JobAt(i, j, host, port), paths[..l])
    {
      MapNext(JobAt(i, j, host, port), paths, l);
      jobs := jobs + [Job(i, j, host, port, paths[l])];
    }
    assert paths[..|paths|] == paths;
  }

  method ServiceProbes(i: nat, j: nat, host: string, ports: seq<ServicePort>, paths: seq<string>)
    returns (jobs: seq<Job>)
    ensures jobs == PortJobs(i, j, host, DedupBy(Id, Map(NumberOf, ports)), paths)
  {
    var seen: set<int> := {};
    jobs := [];
    for k := 0 to |ports|
      invariant forall p :: p in seen <==> p in DedupBy(Id, Map(NumberOf, ports[..k]))
      invariant jobs == PortJobs(i, j, host, DedupBy(Id, Map(NumberOf, ports[..k])), paths)
    {
      var port := ports[k].port;
      ghost var sofar := DedupBy(Id, Map(NumberOf, ports[..k]));
      GrowMapped(Id, [], NumberOf, ports, k);
      assert (sofar + [port])[..|sofar|] == sofar;
      if port in seen { continue; }
      seen := seen + {port};
      var more := PortProbes(i, j, host, port, paths);
      jobs := jobs + more;
    }
    assert ports[..|ports|] == ports;
  }

  method ServicesProbes(paths: seq<string>, app: ApplicationEntry, i: nat) returns (jobs: seq<Job>)
    ensures jobs == ServicesJobs(paths, app, i, |app.services|)
  {
    jobs := [];
    for j := 0 to |app.services|
      invariant jobs == ServicesJobs(paths, app, i, j)
    {
      var svc := app.services[j];
      var more := ServiceProbes(i, j, svc.name + "." + app.namespace + ".svc.cluster.local", svc.ports, paths);
      jobs := jobs + more;
    }
  }

  method AppProbes(app: ApplicationEntry, i: nat) returns (jobs: seq<Job>)
    ensures jobs == AppJobs(app, i)
  {
    if Label(app.annotations, PROBE_OPT_OUT) == "false" { return []; }
    var paths := DEFAULT_PATHS;
    var extra := Label(app.annotations, PROBE_PATH);
    if extra != "" { paths := WithPath(DEFAULT_PATHS, extra); }
    jobs := ServicesProbes(paths, app, i);
  }

  method BuildJobs(apps: array<ApplicationEntry>) returns (jobs: seq<Job>)
    ensures jobs == Jobs(apps[..], apps.Length)
  {
    jobs := [];
    for i := 0 to apps.Length
      invariant jobs == Jobs(apps[..], i)
    {
      var more := AppProbes(apps[i], i);
      jobs := jobs + more;
    }
  }

  // -------------------------------------------------------------------------- order

  predicate DocLess(a: APIDocInfo, b: APIDocInfo) {
    a.port < b.port || (a.port == b.port && LexLess(a.path, b.path))
  }

  lemma DocOrder()
    ensures StrictWeakOrder(DocLess)
  {
    forall a: APIDocInfo ensures !DocLess(a, a) { LexIrreflexive(a.path); }
    forall a, b, c | DocLess(a, b) && DocLess(b, c) ensures DocLess(a, c) {
      if a.port == b.port == c.port { LexTransitive(a.path, b.path, c.path); }
    }
    forall a, b, c | DocLess(a, c) ensures DocLess(a, b) || DocLess(b, c) {
      LexTotal(a.path, b.path);
      LexTotal(b.path, c.path);
      if a.port == b.port == c.port && LexLess(b.path, a.path) { LexTransitive(b.path, a.path, c.path); }
    }
  }

  lemma DocAsymmetric(a: APIDocInfo, b: APIDocInfo)
    requires DocLess(a, b)
    ensures !DocLess(b, a)
  {
    DocOrder();
    assert DocLess(b, a) ==> DocLess(a, a);
  }

  lemma DocBetween(a: APIDocInfo, b: APIDocInfo, c: APIDocInfo)
    requires DocLess(a, c)
    ensures DocLess(a, b) || DocLess(b, c)
  {
    DocOrder();
    assert DocLess(a, c);
  }

  method Swap(docs: array<APIDocInfo>, j: nat)
    requires 0 < j < docs.Length
    modifies docs
    ensures docs[j - 1] == old(docs[j]) && docs[j] == old(docs[j - 1])
    ensures forall k | 0 <= k < docs.Length && k != j && k != j - 1 :: docs[k] == old(docs[k])
    ensures multiset(docs[..]) == multiset(old(docs[..]))
  {
    docs[j - 1], docs[j] := docs[j], docs[j - 1];
  }

  /** Sink the element at `i` into the sorted elements before it. */
  method Insert(docs: array<APIDocInfo>, i: nat)
    requires 0 < i < docs.Length && SortedBy(DocLess, docs[..i])
    modifies docs
    ensures SortedBy(DocLess, docs[..i + 1]) && multiset(docs[..]) == multiset(old(docs[..]))
  {
    assert forall k | 0 <= k < i :: docs[..i][k] == docs[k];
    var j := i;
    while j > 0
      invariant 0 <= j <= i
      invariant forall x, y | 0 <= x < y <= i && y != j :: !DocLess(docs[y], docs[x])
      invariant multiset(docs[..]) == multiset(old(docs[..]))
    {
      var a, b := docs[j - 1], docs[j];
      if a.port < b.port || (a.port == b.port && !LexLess(b.path, a.path)) {
        forall x | 0 <= x < j ensures !DocLess(docs[j], docs[x]) {
          if DocLess(docs[j], docs[x]) { DocBetween(docs[j], docs[j - 1], docs[x]); }
        }
        break;
      }
      DocAsymmetric(b, a);
      Swap(docs, j);
      j := j - 1;
    }
    assert forall x, y | 0 <= x < y <= i :: !DocLess(docs[y], docs[x]);
  }

  /** Insertion sort by port, then path. */
  method SortDocs(docs: array<APIDocInfo>)
    modifies docs
    ensures SortedBy(DocLess, docs[..]) && multiset(docs[..]) == multiset(old(docs[..]))
  {
    var i := 1;
    while i < docs.Length
      invariant i >= 1 && (i <= docs.Length ==> SortedBy(DocLess, docs[..i]))
      invariant docs.Length > 0 ==> i <= docs.Length
      invariant multiset(docs[..]) == multiset(old(docs[..]))
    {
      Insert(docs, i);
      i := i + 1;
    }
    assert docs.Length > 0 ==> docs[..docs.Length] == docs[..];
  }

  // ------------------------------------------------------------------------ probing

  function DocOf(job: Job): APIDocInfo {
    APIDocInfo(job.port, job.path, "http://" + job.host + ":" + Probing.Itoa(job.port) + job.path, false, "")
  }

  /** A document, marked externally available when some route exposes the service. */
  function Annotated(routes: seq<RouteRef>): APIDocInfo -> APIDocInfo {
    (doc: APIDocInfo) =>
      match URLOf(Chosen(AllMounts(routes), doc.path))
      case Some(url) => doc.(externallyAvailable := true, externalURL := url)
      case None => doc
  }

  datatype Key = Key(app: nat, svc: nat)

  function HitOn(hit: Job -> bool, key: Key): Job -> bool {
    (job: Job) => job.app == key.app && job.svc == key.svc && hit(job)
  }

  function HitIn(hit: Job -> bool, keys: set<Key>): Job -> bool {
    (job: Job) => hit(job) && Key(job.app, job.svc) in keys
  }

  /** The documents that a list of probes finds on one service. */
  function FoundAmong(jobs: seq<Job>, hit: Job -> bool): Key -> seq<APIDocInfo> {
    (key: Key) => Map(DocOf, Filter(HitOn(hit, key), jobs))
  }

  ghost predicate Holds(results: map<Key, seq<APIDocInfo>>, found: Key -> seq<APIDocInfo>) {
    forall key :: if found(key) == [] then key !in results else key in results && results[key] == found(key)
  }

  lemma FoundNext(done: seq<Job>, job: Job, hit: Job -> bool, key: Key)
    ensures FoundAmong(done + [job], hit)(key) ==
            FoundAmong(done, hit)(key) + (if HitOn(hit, key)(job) then [DocOf(job)] else [])
  {
  }

  function Grown(results: map<Key, seq<APIDocInfo>>, key: Key, doc: APIDocInfo): map<Key, seq<APIDocInfo>> {
    results[key := (if key in results then results[key] else []) + [doc]]
  }

  lemma HoldsNext(results: map<Key, seq<APIDocInfo>>, f: Key -> seq<APIDocInfo>, g: Key -> seq<APIDocInfo>, key: Key,
                  doc: APIDocInfo)
    requires Holds(results, f) && g(key) == f(key) + [doc] && forall k | k != key :: g(k) == f(k)
    ensures Holds(Grown(results, key, doc), g)
  {
  }

  lemma ProbeDone(results: map<Key, seq<APIDocInfo>>, done: seq<Job>, job: Job, hit: Job -> bool)
    requires Holds(results, FoundAmong(done, hit))
    ensures Holds(if hit(job) then Grown(results, Key(job.app, job.svc), DocOf(job)) else results,
                  FoundAmong(done + [job], hit))
  {
    var f, g := FoundAmong(done, hit), FoundAmong(done + [job], hit);
    forall key ensures g(key) == f(key) + (if HitOn(hit, key)(job) then [DocOf(job)] else []) {
      FoundNext(done, job, hit, key);
    }
    if hit(job) {
      HoldsNext(results, f, g, Key(job.app, job.svc), DocOf(job));
    } else {
      forall key ensures g(key) == f(key) {}
    }
  }

  function DocsAt(results: map<Key, seq<APIDocInfo>>, key: Key): seq<APIDocInfo> {
    if key in results then results[key] else []
  }

  lemma HeldDocs(results: map<Key, seq<APIDocInfo>>, done: seq<Job>, jobs: seq<Job>, hit: Job -> bool, key: Key)
    requires Holds(results, FoundAmong(done, hit)) && multiset(done) == multiset(jobs)
    ensures multiset(DocsAt(results, key)) == multiset(FoundAmong(jobs, hit)(key))
    ensures key in results <==> FoundAmong(jobs, hit)(key) != []
  {
    HeldAt(results, FoundAmong(done, hit), key);
    FoundPermutation(done, jobs, hit, key);
    assert |multiset(FoundAmong(done, hit)(key))| == |multiset(FoundAmong(jobs, hit)(key))|;
  }

  /** Probe every job; the probes complete in any order, each appending its document under the lock. */
  method RunProbes(jobs: seq<Job>, hit: Job -> bool) returns (results: map<Key, seq<APIDocInfo>>, ghost done: seq<Job>)
    ensures multiset(done) == multiset(jobs) && Holds(results, FoundAmong(done, hit))
    ensures forall key :: multiset(DocsAt(results, key)) == multiset(FoundAmong(jobs, hit)(key))
    ensures forall key :: key in results <==> FoundAmong(jobs, hit)(key) != []
  {
    results, done := map[], [];
    var pending := multiset(jobs);
    while pending != multiset{}
      invariant multiset(done) + pending == multiset(jobs)
      invariant Holds(results, FoundAmong(done, hit))
      decreases |pending|
    {
      var job :| job in pending;
      ProbeDone(results, done, job, hit);
      pending, done := pending - multiset{job}, done + [job];
      if !hit(job) { continue; }
      results := Grown(results, Key(job.app, job.svc), DocOf(job));
    }
    forall key
      ensures multiset(DocsAt(results, key)) == multiset(FoundAmong(jobs, hit)(key))
      ensures key in results <==> FoundAmong(jobs, hit)(key) != []
    {
      HeldDocs(results, done, jobs, hit, key);
    }
  }

  method AnnotateDoc(routes: seq<RouteRef>, doc: APIDocInfo) returns (r: APIDocInfo)
    ensures r == Annotated(routes)(doc)
  {
    var url := ExternalURLForPath(routes, doc.path);
    r := if url.Some? then doc.(externallyAvailable := true, externalURL := url.value) else doc;
  }

  method AnnotateExternalAvailability(routes: seq<RouteRef>, docs: array<APIDocInfo>)
    modifies docs
    ensures docs[..] == Map(Annotated(routes), old(docs[..]))
  {
    ghost var was, done := docs[..], Map(Annotated(routes), docs[..]);
    for i := 0 to docs.Length
      invariant forall k | 0 <= k < docs.Length :: docs[k] == if k < i then done[k] else was[k]
    {
      docs[i] := AnnotateDoc(routes, docs[i]);
    }
    assert docs[..] == done;
  }

  /** What becomes of a service on which `found` was found: untouched without hits, else its documents are replaced
      by the found ones, annotated and in order. */
  ghost predicate Documented(was: ServiceRef, now: ServiceRef, found: seq<APIDocInfo>) {
    if found == [] then now == was
    else
      && now == was.(apiDocs := now.apiDocs)
      && SortedBy(DocLess, now.apiDocs)
      && multiset(now.apiDocs) == multiset(Map(Annotated(was.routes), found))
  }

  lemma AnnotatedSorted(routes: seq<RouteRef>, docs: seq<APIDocInfo>)
    requires SortedBy(DocLess, docs)
    ensures SortedBy(DocLess, Map(Annotated(routes), docs))
  {
  }

  method RecordDocs(svc: ServiceRef, found: seq<APIDocInfo>) returns (now: ServiceRef, n: nat)
    requires found != []
    ensures Documented(svc, now, found) && n == |found|
  {
    var docs := new APIDocInfo[|found|](k requires 0 <= k < |found| => found[k]);
    assert docs[..] == found;
    SortDocs(docs);
    ghost var sorted := docs[..];
    AnnotateExternalAvailability(svc.routes, docs);
    now, n := svc.(apiDocs := docs[..]), docs.Length;
    AnnotatedSorted(svc.routes, sorted);
    MapPermutation(Annotated(svc.routes), sorted, found);
  }

  ghost predicate ServiceAt(apps: seq<ApplicationEntry>, key: Key) {
    key.app < |apps| && key.svc < |apps[key.app].services|
  }

  /** The applications with the found documents recorded, everything else as it was. */
  ghost predicate Recorded(was: seq<ApplicationEntry>, now: seq<ApplicationEntry>, found: Key -> seq<APIDocInfo>) {
    && |now| == |was|
    && (forall i | 0 <= i < |was| ::
          now[i] == was[i].(services := now[i].services) && |now[i].services| == |was[i].services|)
    && (forall key | ServiceAt(was, key) ::
          Documented(was[key.app].services[key.svc], now[key.app].services[key.svc], found(key)))
  }

  function Except(found: Key -> seq<APIDocInfo>, rest: set<Key>): Key -> seq<APIDocInfo> {
    (key: Key) => if key in rest then [] else found(key)
  }

  function SetService(app: ApplicationEntry, j: nat, svc: ServiceRef): ApplicationEntry
    requires j < |app.services|
  {
    app.(services := app.services[j := svc])
  }

  lemma RecordedStep(was: seq<ApplicationEntry>, now: seq<ApplicationEntry>, f: Key -> seq<APIDocInfo>,
                     g: Key -> seq<APIDocInfo>, key: Key, svc: ServiceRef)
    requires Recorded(was, now, f) && ServiceAt(was, key)
    requires f(key) == [] && (forall k | k != key :: g(k) == f(k))
    requires Documented(was[key.app].services[key.svc], svc, g(key))
    ensures now[key.app].services[key.svc] == was[key.app].services[key.svc]
    ensures Recorded(was, now[key.app := SetService(now[key.app], key.svc, svc)], g)
  {
    var next := now[key.app := SetService(now[key.app], key.svc, svc)];
    assert Documented(was[key.app].services[key.svc], now[key.app].services[key.svc], f(key));
    forall k | ServiceAt(was, k) ensures Documented(was[k.app].services[k.svc], next[k.app].services[k.svc], g(k)) {
      if k == key {
        assert next[k.app].services[k.svc] == svc;
      } else {
        assert Documented(was[k.app].services[k.svc], now[k.app].services[k.svc], f(k));
        assert next[k.app].services[k.svc] == now[k.app].services[k.svc];
      }
    }
  }

  lemma NothingRecorded(apps: seq<ApplicationEntry>, f: Key -> seq<APIDocInfo>)
    requires forall key :: f(key) == []
    ensures Recorded(apps, apps, f)
  {
  }

  /** Depends on the recorded documents up to order. */
  lemma RecordedCongruent(was: seq<ApplicationEntry>, now: seq<ApplicationEntry>, f: Key -> seq<APIDocInfo>,
                          g: Key -> seq<APIDocInfo>)
    requires Recorded(was, now, f) && forall key :: multiset(f(key)) == multiset(g(key))
    ensures Recorded(was, now, g)
  {
    forall key | ServiceAt(was, key)
      ensures Documented(was[key.app].services[key.svc], now[key.app].services[key.svc], g(key))
    {
      DocumentedCongruent(was[key.app].services[key.svc], now[key.app].services[key.svc], f(key), g(key));
    }
  }

  lemma DocumentedCongruent(was: ServiceRef, now: ServiceRef, f: seq<APIDocInfo>, g: seq<APIDocInfo>)
    requires Documented(was, now, f) && multiset(f) == multiset(g)
    ensures Documented(was, now, g)
  {
    assert |multiset(f)| == |multiset(g)|;
    MapPermutation(Annotated(was.routes), f, g);
  }

  lemma HeldAt(results: map<Key, seq<APIDocInfo>>, found: Key -> seq<APIDocInfo>, key: Key)
    requires Holds(results, found)
    ensures key in results <==> found(key) != []
    ensures key in results ==> results[key] == found(key)
  {
  }

  method RecordOne(apps: array<ApplicationEntry>, key: Key, docs: seq<APIDocInfo>, ghost was: seq<ApplicationEntry>,
                   ghost f: Key -> seq<APIDocInfo>, ghost g: Key -> seq<APIDocInfo>)
    returns (n: nat)
    requires Recorded(was, apps[..], f) && ServiceAt(was, key) && docs != []
    requires f(key) == [] && g(key) == docs && forall k | k != key :: g(k) == f(k)
    modifies apps
    ensures Recorded(was, apps[..], g) && n == |docs|
  {
    ghost var now := apps[..];
    RecordedShape(was, now, f, key);
    var svc;
    svc, n := RecordDocs(apps[key.app].services[key.svc], docs);
    RecordedStep(was, now, f, g, key, svc);
    apps[key.app] := SetService(apps[key.app], key.svc, svc);
    assert apps[..] == now[key.app := SetService(now[key.app], key.svc, svc)];
  }

  lemma RecordedShape(was: seq<ApplicationEntry>, now: seq<ApplicationEntry>, f: Key -> seq<APIDocInfo>, key: Key)
    requires Recorded(was, now, f) && ServiceAt(was, key) && f(key) == []
    ensures ServiceAt(now, key) && now[key.app].services[key.svc] == was[key.app].services[key.svc]
  {
  }

  /** `count` adds up the documents of the keys it is given. */
  ghost predicate Counts(count: set<Key> -> nat, results: map<Key, seq<APIDocInfo>>) {
    && count({}) == 0
    && forall keys, key {:trigger count(keys + {key})} | key in results && key !in keys ::
         count(keys + {key}) == count(keys) + |results[key]|
  }

  /** The state of the recording loop: everything but the services in `rest` is recorded and counted. */
  ghost predicate RecordedBut(was: seq<ApplicationEntry>, now: seq<ApplicationEntry>,
                              results: map<Key, seq<APIDocInfo>>,
                              found: Key -> seq<APIDocInfo>, count: set<Key> -> nat, rest: set<Key>, hits: nat) {
    rest <= results.Keys && Recorded(was, now, Except(found, rest)) && hits == count(results.Keys - rest)
  }

  method RecordKey(apps: array<ApplicationEntry>, results: map<Key, seq<APIDocInfo>>, rest: set<Key>, key: Key,
                   ghost was: seq<ApplicationEntry>, ghost found: Key -> seq<APIDocInfo>)
    returns (n: nat)
    requires Recorded(was, apps[..], Except(found, rest)) && ServiceAt(was, key)
    requires Holds(results, found) && key in results && key in rest
    modifies apps
    ensures Recorded(was, apps[..], Except(found, rest - {key})) && n == |results[key]|
  {
    HeldAt(results, found, key);
    n := RecordOne(apps, key, results[key], was, Except(found, rest), Except(found, rest - {key}));
  }

  lemma RecordedNext(was: seq<ApplicationEntry>, now: seq<ApplicationEntry>, results: map<Key, seq<APIDocInfo>>,
                     found: Key -> seq<APIDocInfo>, count: set<Key> -> nat, rest: set<Key>, key: Key, hits: nat)
    requires rest <= results.Keys && key in rest && hits == count(results.Keys - rest) && Counts(count, results)
    requires Recorded(was, now, Except(found, rest - {key}))
    ensures RecordedBut(was, now, results, found, count, rest - {key}, hits + |results[key]|)
  {
    assert results.Keys - (rest - {key}) == (results.Keys - rest) + {key};
  }

  /** Record one of the services in `rest`, any of them. */
  method RecordNext(apps: array<ApplicationEntry>, results: map<Key, seq<APIDocInfo>>, rest: set<Key>, hits: nat,
                    ghost was: seq<ApplicationEntry>, ghost found: Key -> seq<APIDocInfo>, ghost count: set<Key> -> nat)
    returns (rest': set<Key>, hits': nat)
    requires rest != {} && RecordedBut(was, apps[..], results, found, count, rest, hits)
    requires Holds(results, found) && Counts(count, results) && forall key | key in results :: ServiceAt(was, key)
    modifies apps
    ensures RecordedBut(was, apps[..], results, found, count, rest', hits') && rest' < rest
  {
    var key :| key in rest;
    var n := RecordKey(apps, results, rest, key, was, found);
    rest', hits' := rest - {key}, hits + n;
    RecordedNext(was, apps[..], results, found, count, rest, key, hits);
  }

  lemma RecordStart(results: map<Key, seq<APIDocInfo>>, was: seq<ApplicationEntry>, found: Key -> seq<APIDocInfo>,
                    count: set<Key> -> nat)
    requires Holds(results, found) && Counts(count, results)
    ensures RecordedBut(was, was, results, found, count, results.Keys, 0)
  {
    forall key ensures Except(found, results.Keys)(key) == [] { HeldAt(results, found, key); }
    NothingRecorded(was, Except(found, results.Keys));
    assert results.Keys - results.Keys == {};
  }

  lemma RecordEnd(was: seq<ApplicationEntry>, now: seq<ApplicationEntry>, results: map<Key, seq<APIDocInfo>>,
                  found: Key -> seq<APIDocInfo>, count: set<Key> -> nat, hits: nat)
    requires RecordedBut(was, now, results, found, count, {}, hits)
    ensures Recorded(was, now, found) && hits == count(results.Keys)
  {
    assert results.Keys - {} == results.Keys;
    RecordedCongruent(was, now, Except(found, {}), found);
  }

  /** Record every service's documents, in any order, and count them. */
  method RecordAll(apps: array<ApplicationEntry>, results: map<Key, seq<APIDocInfo>>, ghost was: seq<ApplicationEntry>,
                   ghost found: Key -> seq<APIDocInfo>, ghost count: set<Key> -> nat)
    returns (hits: nat)
    requires apps[..] == was && Holds(results, found) && forall key | key in results :: ServiceAt(was, key)
    requires Counts(count, results)
    modifies apps
    ensures Recorded(was, apps[..], found) && hits == count(results.Keys)
  {
    var rest := results.Keys;
    hits := 0;
    RecordStart(results, was, found, count);
    while rest != {}
      invariant RecordedBut(was, apps[..], results, found, count, rest, hits)
      decreases rest
    {
      rest, hits := RecordNext(apps, results, rest, hits, was, found, count);
    }
    RecordEnd(was, apps[..], results, found, count, hits);
  }

  lemma CountStep(done: seq<Job>, hit: Job -> bool, keys: set<Key>, key: Key)
    requires key !in keys
    ensures |Filter(HitIn(hit, keys + {key}), done)| == |Filter(HitIn(hit, keys), done)| + |FoundAmong(done, hit)(key)|
  {
  }

  function CountOn(done: seq<Job>, hit: Job -> bool): set<Key> -> nat {
    (keys: set<Key>) => |Filter(HitIn(hit, keys), done)|
  }

  lemma FoundIn(done: seq<Job>, hit: Job -> bool, job: Job)
    requires job in done && hit(job)
    ensures FoundAmong(done, hit)(Key(job.app, job.svc)) != []
  {
    FilterIn(HitOn(hit, Key(job.app, job.svc)), done, job);
  }

  lemma FoundOrigin(done: seq<Job>, hit: Job -> bool, key: Key) returns (job: Job)
    requires FoundAmong(done, hit)(key) != []
    ensures job in done && hit(job) && job.app == key.app && job.svc == key.svc
  {
    job := Filter(HitOn(hit, key), done)[0];
    FilterIn(HitOn(hit, key), done, job);
  }

  /** What a cycle finds does not depend on the completion order, up to the order of the finds. */
  lemma FoundPermutation(a: seq<Job>, b: seq<Job>, hit: Job -> bool, key: Key)
    requires multiset(a) == multiset(b)
    ensures multiset(FoundAmong(a, hit)(key)) == multiset(FoundAmong(b, hit)(key))
  {
    FilterPermutation(HitOn(hit, key), a, b);
    MapPermutation(DocOf, Filter(HitOn(hit, key), a), Filter(HitOn(hit, key), b));
  }

  lemma AllCounted(done: seq<Job>, jobs: seq<Job>, hit: Job -> bool, results: map<Key, seq<APIDocInfo>>)
    requires Holds(results, FoundAmong(done, hit)) && multiset(done) == multiset(jobs)
    ensures |Filter(HitIn(hit, results.Keys), done)| == |Filter(hit, jobs)|
  {
    forall job | job in done ensures HitIn(hit, results.Keys)(job) == hit(job) {
      if hit(job) {
        FoundIn(done, hit, job);
        HeldAt(results, FoundAmong(done, hit), Key(job.app, job.svc));
      }
    }
    FilterCongruent(HitIn(hit, results.Keys), hit, done);
    FilterPermutation(hit, done, jobs);
    assert |multiset(Filter(hit, done))| == |multiset(Filter(hit, jobs))|;
  }

  /** Discover the API documents of every service. `hit` tells which probes answer with a document. */
  method Probe(apps: array<ApplicationEntry>, hit: Job -> bool) returns (probes: nat, hits: nat)
    modifies apps
    ensures
      var jobs := Jobs(old(apps[..]), apps.Length);
      Recorded(old(apps[..]), apps[..], FoundAmong(jobs, hit)) && probes == |jobs| && hits == |Filter(hit, jobs)|
  {
    ghost var was := apps[..];
    var jobs := BuildJobs(apps);
    if |jobs| == 0 {
      NothingRecorded(was, FoundAmong(jobs, hit));
      return 0, 0;
    }
    var results, done := RunProbes(jobs, hit);
    forall key | key in results ensures ServiceAt(was, key) {
      HeldAt(results, FoundAmong(done, hit), key);
      var job := FoundOrigin(done, hit, key);
      assert job in multiset(done);
      JobsExact(was, |was|);
      assert CalledBefore(was, |was|)(job);
    }
    FilterNone(HitIn(hit, {}), done);
    forall keys, key | key in results && key !in keys
      ensures CountOn(done, hit)(keys + {key}) == CountOn(done, hit)(keys) + |results[key]|
    {
      CountStep(done, hit, keys, key);
      HeldAt(results, FoundAmong(done, hit), key);
    }
    hits := RecordAll(apps, results, was, FoundAmong(done, hit), CountOn(done, hit));
    AllCounted(done, jobs, hit, results);
    forall key ensures multiset(FoundAmong(done, hit)(key)) == multiset(FoundAmong(jobs, hit)(key)) {
      FoundPermutation(done, jobs, hit, key);
    }
    RecordedCongruent(was, apps[..], FoundAmong(done, hit), FoundAmong(jobs, hit));
    probes := |jobs|;
  }
}
