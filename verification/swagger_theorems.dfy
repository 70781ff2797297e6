/** The documents recorded on a service are the sorted set of its hits, whatever order the probes complete in. */
module SwaggerTheorems {
  import opened Text
  import opened Sequences
  import opened Catalog
  import opened Swagger

  function DocKey(doc: APIDocInfo): (int, string) { (doc.port, doc.path) }

  lemma {:induction false} FilterDistinct<T, K>(key: T -> K, p: T -> bool, s: seq<T>)
    requires DistinctBy(key, s)
    ensures DistinctBy(key, Filter(p, s))
  {
    if s != [] {
      var n := |s| - 1;
      FilterDistinct(key, p, s[..n]);
      forall x | x in Filter(p, s[..n]) ensures key(x) != key(s[n]) { FilterIn(p, s[..n], x); }
    }
  }

  lemma {:induction false} CountAtMostOne<T, K>(key: T -> K, s: seq<T>, x: T)
    requires DistinctBy(key, s)
    ensures multiset(s)[x] <= 1
  {
    if s != [] {
      var n := |s| - 1;
      assert s == s[..n] + [s[n]];
      CountAtMostOne(key, s[..n], x);
      if x == s[n] { assert x !in s[..n]; }
    }
  }

  lemma CountAtLeastTwo<T>(s: seq<T>, i: nat, j: nat)
    requires i < j < |s| && s[i] == s[j]
    ensures multiset(s)[s[i]] >= 2
  {
    assert s == s[..j] + [s[j]] + s[j + 1..];
    assert s[i] in s[..j];
  }

  /** Rearranging keeps keys distinct. */
  lemma DistinctPermutation<T, K>(key: T -> K, s: seq<T>, t: seq<T>)
    requires DistinctBy(key, s) && multiset(s) == multiset(t)
    ensures DistinctBy(key, t)
  {
    forall x | x in t ensures x in s { assert x in multiset(t); }
    forall i, j | 0 <= i < j < |t| ensures key(t[i]) != key(t[j]) {
      assert t[i] in t && t[j] in t;
      var k :| 0 <= k < |s| && s[k] == t[i];
      var l :| 0 <= l < |s| && s[l] == t[j];
      if t[i] == t[j] {
        CountAtLeastTwo(t, i, j);
        CountAtMostOne(key, s, t[i]);
      }
    }
  }

  lemma MapDistinct<T, U, K, L>(f: T -> U, key: T -> K, key': U -> L, s: seq<T>)
    requires DistinctBy(key, s)
    requires forall x, y | x in s && y in s && key(x) != key(y) :: key'(f(x)) != key'(f(y))
    ensures DistinctBy(key', Map(f, s))
  {
  }

  ghost predicate StrictlySorted(docs: seq<APIDocInfo>) {
    forall i, j | 0 <= i < j < |docs| :: DocLess(docs[i], docs[j])
  }

  lemma SortedDistinct(docs: seq<APIDocInfo>)
    requires SortedBy(DocLess, docs) && DistinctBy(DocKey, docs)
    ensures StrictlySorted(docs)
  {
    forall i, j | 0 <= i < j < |docs| ensures DocLess(docs[i], docs[j]) {
      LexTotal(docs[i].path, docs[j].path);
      assert DocKey(docs[i]) != DocKey(docs[j]);
    }
  }

  /** The probes of service `key` that answer with a document. */
  function HitJobs(apps: seq<ApplicationEntry>, hit: Job -> bool, key: Key): seq<Job> {
    Filter(HitOn(hit, key), Jobs(apps, |apps|))
  }

  function Finds(apps: seq<ApplicationEntry>, hit: Job -> bool): Key -> seq<APIDocInfo> {
    FoundAmong(Jobs(apps, |apps|), hit)
  }

  function AnnotatedDoc(routes: seq<RouteRef>): Job -> APIDocInfo { (job: Job) => Annotated(routes)(DocOf(job)) }

  lemma AnnotatedFound(apps: seq<ApplicationEntry>, hit: Job -> bool, key: Key, routes: seq<RouteRef>)
    ensures Map(Annotated(routes), Finds(apps, hit)(key)) == Map(AnnotatedDoc(routes), HitJobs(apps, hit, key))
  {
  }

  lemma AnnotatedKey(routes: seq<RouteRef>, job: Job)
    ensures DocKey(AnnotatedDoc(routes)(job)) == (job.port, job.path)
  {
    var doc := Annotated(routes)(DocOf(job));
    assert AnnotatedDoc(routes)(job) == doc;
    assert doc.port == job.port && doc.path == job.path;
  }

  /** No two documents found on a service share port and path. */
  lemma FoundDistinct(apps: seq<ApplicationEntry>, hit: Job -> bool, key: Key, routes: seq<RouteRef>)
    ensures DistinctBy(DocKey, Map(Annotated(routes), Finds(apps, hit)(key)))
  {
    var jobs, f := HitJobs(apps, hit, key), AnnotatedDoc(routes);
    JobsExact(apps, |apps|);
    FilterDistinct(JobKey, HitOn(hit, key), Jobs(apps, |apps|));
    forall x, y | x in jobs && y in jobs && JobKey(x) != JobKey(y) ensures DocKey(f(x)) != DocKey(f(y)) {
      FilterIn(HitOn(hit, key), Jobs(apps, |apps|), x);
      FilterIn(HitOn(hit, key), Jobs(apps, |apps|), y);
      AnnotatedKey(routes, x);
      AnnotatedKey(routes, y);
    }
    MapDistinct(f, JobKey, DocKey, jobs);
    AnnotatedFound(apps, hit, key, routes);
  }

  /** A probe of service `key` that the catalog calls for and that answers with a document. */
  ghost predicate Hitting(apps: seq<ApplicationEntry>, hit: Job -> bool, key: Key, job: Job) {
    Declared(apps, job) && job.app == key.app && job.svc == key.svc && hit(job)
  }

  lemma HittingJobs(apps: seq<ApplicationEntry>, hit: Job -> bool, key: Key, job: Job)
    ensures job in HitJobs(apps, hit, key) <==> Hitting(apps, hit, key, job)
  {
    JobsExact(apps, |apps|);
    FilterIn(HitOn(hit, key), Jobs(apps, |apps|), job);
    assert CalledBefore(apps, |apps|)(job) <==> Declared(apps, job);
  }

  /** The documents of a service with hits: strictly sorted by port and path, and exactly those of its hitting
      probes. */
  lemma DocsExact(was: seq<ApplicationEntry>, now: seq<ApplicationEntry>, hit: Job -> bool, key: Key)
    requires Recorded(was, now, Finds(was, hit)) && ServiceAt(was, key) && Finds(was, hit)(key) != []
    ensures
      var svc, docs := was[key.app].services[key.svc], now[key.app].services[key.svc].apiDocs;
      && StrictlySorted(docs) && |docs| == |Finds(was, hit)(key)|
      && forall doc ::
        doc in docs <==> exists job :: Hitting(was, hit, key, job) && doc == AnnotatedDoc(svc.routes)(job)
  {
    var svc, docs := was[key.app].services[key.svc], now[key.app].services[key.svc].apiDocs;
    var found := Map(Annotated(svc.routes), Finds(was, hit)(key));
    assert Documented(svc, now[key.app].services[key.svc], Finds(was, hit)(key));
    FoundDistinct(was, hit, key, svc.routes);
    DistinctPermutation(DocKey, found, docs);
    SortedDistinct(docs);
    assert |multiset(docs)| == |multiset(found)|;
    AnnotatedFound(was, hit, key, svc.routes);
    forall doc
      ensures doc in docs <==> exists job :: Hitting(was, hit, key, job) && doc == AnnotatedDoc(svc.routes)(job)
    {
      assert doc in docs <==> doc in multiset(docs);
      assert doc in found <==> doc in multiset(found);
      DocOrigin(was, hit, key, svc.routes, doc);
    }
  }

  lemma DocOrigin(apps: seq<ApplicationEntry>, hit: Job -> bool, key: Key, routes: seq<RouteRef>, doc: APIDocInfo)
    ensures doc in Map(AnnotatedDoc(routes), HitJobs(apps, hit, key)) <==>
            exists job :: Hitting(apps, hit, key, job) && doc == AnnotatedDoc(routes)(job)
  {
    var jobs := HitJobs(apps, hit, key);
    var docs := Map(AnnotatedDoc(routes), jobs);
    if doc in docs {
      var i :| 0 <= i < |docs| && docs[i] == doc;
      HittingJobs(apps, hit, key, jobs[i]);
    }
    if job :| Hitting(apps, hit, key, job) && doc == AnnotatedDoc(routes)(job) {
      HittingJobs(apps, hit, key, job);
      var i :| 0 <= i < |jobs| && jobs[i] == job;
      assert docs[i] == doc;
    }
  }

  /** Two cycles over the same applications in which each probe fares the same record the same documents, whatever
      order the probes complete in and the services are recorded in. */
  lemma SwaggerDeterministic(was: seq<ApplicationEntry>, a: seq<ApplicationEntry>, b: seq<ApplicationEntry>,
                             hit: Job -> bool)
    requires Recorded(was, a, Finds(was, hit)) && Recorded(was, b, Finds(was, hit))
    ensures a == b
  {
    forall i | 0 <= i < |was| ensures a[i] == b[i] {
      forall j | 0 <= j < |was[i].services| ensures a[i].services[j] == b[i].services[j] {
        SameDocs(was, a, b, hit, Key(i, j));
      }
      assert a[i].services == b[i].services;
      assert a[i] == was[i].(services := a[i].services);
    }
  }

  lemma SameDocs(was: seq<ApplicationEntry>, a: seq<ApplicationEntry>, b: seq<ApplicationEntry>, hit: Job -> bool,
                 key: Key)
    requires Recorded(was, a, Finds(was, hit)) && Recorded(was, b, Finds(was, hit)) && ServiceAt(was, key)
    ensures a[key.app].services[key.svc] == b[key.app].services[key.svc]
  {
    var found := Finds(was, hit)(key);
    var svc, x, y := was[key.app].services[key.svc], a[key.app].services[key.svc], b[key.app].services[key.svc];
    assert Documented(svc, x, found) && Documented(svc, y, found);
    if found != [] {
      DocsExact(was, a, hit, key);
      DocsExact(was, b, hit, key);
      DocOrder();
      StrictlySortedUnique(DocLess, x.apiDocs, y.apiDocs);
    }
  }

  // ------------------------------------------------------------------- hit counting

  /** The documents found on the first `m` services of application `i`. */
  function TotalOf(found: Key -> seq<APIDocInfo>, i: nat, m: nat): nat {
    if m == 0 then 0 else TotalOf(found, i, m - 1) + |found(Key(i, m - 1))|
  }

  /** The documents found on the first `n` applications. */
  function Total(found: Key -> seq<APIDocInfo>, apps: seq<ApplicationEntry>, n: nat): nat
    requires n <= |apps|
  {
    if n == 0 then 0 else Total(found, apps, n - 1) + TotalOf(found, n - 1, |apps[n - 1].services|)
  }

  function HitBelow(hit: Job -> bool, i: nat, m: nat): Job -> bool {
    (job: Job) => hit(job) && job.app == i && job.svc < m
  }
  function HitWithin(hit: Job -> bool, n: nat): Job -> bool { (job: Job) => hit(job) && job.app < n }

  lemma {:induction false} CountBelow(jobs: seq<Job>, hit: Job -> bool, i: nat, m: nat)
    ensures |Filter(HitBelow(hit, i, m), jobs)| == TotalOf(FoundAmong(jobs, hit), i, m)
  {
    if m == 0 {
      FilterNone(HitBelow(hit, i, 0), jobs);
    } else {
      CountBelow(jobs, hit, i, m - 1);
      SplitCount(HitBelow(hit, i, m - 1), HitOn(hit, Key(i, m - 1)), HitBelow(hit, i, m), jobs);
    }
  }

  lemma SplitCount<T>(p: T -> bool, q: T -> bool, r: T -> bool, s: seq<T>)
    requires forall x | x in s :: (r(x) <==> p(x) || q(x)) && !(p(x) && q(x))
    ensures |Filter(r, s)| == |Filter(p, s)| + |Filter(q, s)|
  {
  }

  lemma {:induction false} CountWithin(apps: seq<ApplicationEntry>, jobs: seq<Job>, hit: Job -> bool, n: nat)
    requires n <= |apps| && forall job | job in jobs :: job.app < |apps| && job.svc < |apps[job.app].services|
    ensures |Filter(HitWithin(hit, n), jobs)| == Total(FoundAmong(jobs, hit), apps, n)
  {
    if n == 0 {
      FilterNone(HitWithin(hit, 0), jobs);
    } else {
      var p, q, r := HitWithin(hit, n - 1), HitBelow(hit, n - 1, |apps[n - 1].services|), HitWithin(hit, n);
      CountWithin(apps, jobs, hit, n - 1);
      CountBelow(jobs, hit, n - 1, |apps[n - 1].services|);
      SplitCount(p, q, r, jobs);
    }
  }

  /** The number of hits a cycle reports is the number of documents it records, over all services. */
  lemma HitsAreDocuments(apps: seq<ApplicationEntry>, hit: Job -> bool)
    ensures |Filter(hit, Jobs(apps, |apps|))| == Total(Finds(apps, hit), apps, |apps|)
  {
    var jobs := Jobs(apps, |apps|);
    JobsExact(apps, |apps|);
    forall job | job in jobs ensures Declared(apps, job) { assert CalledBefore(apps, |apps|)(job); }
    CountWithin(apps, jobs, hit, |apps|);
    FilterCongruent(HitWithin(hit, |apps|), hit, jobs);
  }
}
