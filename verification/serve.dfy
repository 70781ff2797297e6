/** Serving: the verdict store, and the overlay of its verdicts onto applications without touching the
    shared snapshot. */
module Serving {
  import opened Text
  import opened Sequences
  import opened Catalog
  import opened Probing

  type Verdicts = map<string, ReachabilityResult>

  predicate ResultLess(a: ReachabilityResult, b: ReachabilityResult) {
    if a.host != b.host then LexLess(a.host, b.host) else LexLess(a.url, b.url)
  }

  lemma ResultOrder()
    ensures StrictWeakOrder(ResultLess)
  {
    forall a: ReachabilityResult ensures !ResultLess(a, a) { LexIrreflexive(a.url); }
    forall a, b, c | ResultLess(a, b) && ResultLess(b, c) ensures ResultLess(a, c) { ResultTransitive(a, b, c); }
    forall a, b, c | ResultLess(a, c) ensures ResultLess(a, b) || ResultLess(b, c) {
      LexTotal(a.host, b.host);
      LexTotal(a.url, b.url);
      if ResultLess(b, a) { ResultTransitive(b, a, c); }
    }
  }

  lemma ResultTransitive(a: ReachabilityResult, b: ReachabilityResult, c: ReachabilityResult)
    requires ResultLess(a, b) && ResultLess(b, c)
    ensures ResultLess(a, c)
  {
    if a.host == b.host == c.host {
      LexTransitive(a.url, b.url, c.url);
    } else if a.host != b.host && b.host != c.host {
      LexTransitive(a.host, b.host, c.host);
      LexIrreflexive(c.host);
    }
  }

  /** `keys` enumerates the domain of `m`, each key once. */
  ghost predicate Enumerates(keys: seq<string>, m: Verdicts) {
    && (forall i, j | 0 <= i < j < |keys| :: keys[i] != keys[j])
    && (forall k :: k in keys <==> k in m)
  }

  function VerdictAt(m: Verdicts): string -> Option<ReachabilityResult> {
    (k: string) => if k in m then Some(m[k]) else None
  }

  /** The latest verdicts, replaced as a whole. */
  class Store {
    var snapshot: Verdicts

    constructor ()
      ensures snapshot == map[]
    {
      snapshot := map[];
    }

    method Put(results: Verdicts)
      modifies this
      ensures snapshot == results
    {
      snapshot := results;
    }

    method Lookup(key: string) returns (found: Option<ReachabilityResult>)
      ensures found == VerdictAt(snapshot)(key)
    {
      found := if key in snapshot then Some(snapshot[key]) else None;
    }

    /** Every current verdict, one per key, sorted by host and URL. */
    method All() returns (out: seq<ReachabilityResult>, ghost keys: seq<string>)
      ensures Enumerates(keys, snapshot)
      ensures multiset(out) == multiset(ResultsOf(snapshot, keys))
      ensures SortedBy(ResultLess, out)
    {
      out, keys := [], [];
      var rest := snapshot.Keys;
      while rest != {}
        invariant rest <= snapshot.Keys
        invariant forall i, j | 0 <= i < j < |keys| :: keys[i] != keys[j]
        invariant forall k :: k in keys <==> k in snapshot && k !in rest
        invariant out == ResultsOf(snapshot, keys)
      {
        var key :| key in rest;
        assert (keys + [key])[..|keys|] == keys;
        keys := keys + [key];
        out := out + [snapshot[key]];
        rest := rest - {key};
      }
      ResultOrder();
      out := SortSlice(out, ResultLess);
    }
  }

  function ResultsOf(m: Verdicts, keys: seq<string>): seq<ReachabilityResult>
    requires forall k | k in keys :: k in m
  {
    if keys == [] then []
    else
      assert keys[|keys| - 1] in keys;
      ResultsOf(m, keys[..|keys| - 1]) + [m[keys[|keys| - 1]]]
  }

  // --------------------------------------------------------------------- overlay

  /** The store as a request sees it: the snapshot current at its n-th lookup. */
  type Seen = nat -> Verdicts

  /** What the prober stores while a request is being served: the last snapshot put before its n-th lookup and after
      the one before that, if any. */
  type Arrivals = nat -> Option<Verdicts>

  /** What the store holds when the t-th lookup is about to happen, up to arrivals just before it. */
  function Held(first: Verdicts, arrivals: Arrivals, t: nat): Verdicts {
    if t == 0 then first else arrivals(t - 1).GetOr(Held(first, arrivals, t - 1))
  }

  function HeldFrom(first: Verdicts, arrivals: Arrivals): nat -> Verdicts { (t: nat) => Held(first, arrivals, t) }

  /** `held` is what the store holds over time, given the arrivals. */
  ghost predicate Evolves(held: nat -> Verdicts, arrivals: Arrivals) {
    forall t: nat {:trigger arrivals(t)} :: held(t + 1) == arrivals(t).GetOr(held(t))
  }

  /** What the lookups see: the t-th happens after the t-th arrival. */
  function AtLookup(held: nat -> Verdicts): Seen { (t: nat) => held(t + 1) }

  function SeenFrom(first: Verdicts, arrivals: Arrivals): Seen { AtLookup(HeldFrom(first, arrivals)) }

  /** The verdicts found for a service's hosts, in order, by lookups `t`, `t + 1`, ... */
  function Found(namespace: string, service: string, hosts: seq<string>, seen: Seen, t: nat): seq<ReachabilityResult> {
    if hosts == [] then []
    else
      var n := |hosts| - 1;
      var key := StoreKey(namespace, service, hosts[n]);
      Found(namespace, service, hosts[..n], seen, t) + (if key in seen(t + n) then [seen(t + n)[key]] else [])
  }

  /** A service with its verdicts; one without any is left alone. */
  function WithVerdicts(svc: ServiceRef, results: seq<ReachabilityResult>): ServiceRef {
    if results == [] then svc else svc.(reachability := results)
  }

  /** Number of lookups that the first `n` services take. */
  function Lookups(services: seq<ServiceRef>, n: nat): nat
    requires n <= |services|
  {
    if n == 0 then 0 else Lookups(services, n - 1) + |services[n - 1].externalHosts|
  }

  /** A served application: its entry, and the service slice that it may share with the snapshot. */
  datatype ServedApp = ServedApp(entry: ApplicationEntry, services: array<ServiceRef>)

  ghost function View(a: ServedApp): ApplicationEntry
    reads a.services
  {
    a.entry.(services := a.services[..])
  }

  /** Look up one host, after what the prober stored in the meantime. */
  method LookupNext(store: Store, arrivals: Arrivals, key: string, t: nat, ghost held: nat -> Verdicts)
    returns (found: Option<ReachabilityResult>)
    requires Evolves(held, arrivals) && store.snapshot == held(t)
    modifies store
    ensures store.snapshot == held(t + 1)
    ensures found == VerdictAt(AtLookup(held)(t))(key)
  {
    var arrival := arrivals(t);
    if arrival.Some? { store.Put(arrival.value); }
    found := store.Lookup(key);
  }

  method FindVerdicts(namespace: string, svc: ServiceRef, store: Store, arrivals: Arrivals, t: nat,
                      ghost held: nat -> Verdicts)
    returns (results: seq<ReachabilityResult>)
    requires Evolves(held, arrivals) && store.snapshot == held(t)
    modifies store
    ensures store.snapshot == held(t + |svc.externalHosts|)
    ensures results == Found(namespace, svc.name, svc.externalHosts, AtLookup(held), t)
  {
    results := [];
    for k := 0 to |svc.externalHosts|
      invariant store.snapshot == held(t + k)
      invariant results == Found(namespace, svc.name, svc.externalHosts[..k], AtLookup(held), t)
    {
      assert svc.externalHosts[..k + 1][..k] == svc.externalHosts[..k];
      var r := LookupNext(store, arrivals, StoreKey(namespace, svc.name, svc.externalHosts[k]), t + k, held);
      if r.Some? { results := results + [r.value]; }
    }
    assert svc.externalHosts[..|svc.externalHosts|] == svc.externalHosts;
  }

  /** The verdicts of the i-th service of a slice whose first lookup is the t-th. */
  function VerdictsAt(namespace: string, services: seq<ServiceRef>, seen: Seen, t: nat, i: nat): seq<ReachabilityResult>
    requires i < |services|
  {
    Found(namespace, services[i].name, services[i].externalHosts, seen, t + Lookups(services, i))
  }

  ghost predicate FoundAll(verdicts: seq<seq<ReachabilityResult>>, namespace: string, services: seq<ServiceRef>,
                           seen: Seen, t: nat) {
    |verdicts| == |services| && forall i {:trigger VerdictsAt(namespace, services, seen, t, i)} | 0 <= i < |services| ::
      verdicts[i] == VerdictsAt(namespace, services, seen, t, i)
  }

  method CopySlice(a: array<ServiceRef>) returns (b: array<ServiceRef>)
    ensures fresh(b) && b[..] == a[..]
  {
    b := new ServiceRef[a.Length];
    forall k | 0 <= k < a.Length { b[k] := a[k]; }
  }

  /** The slice once the first `n` services have been overlaid. */
  function Overlaid(services: seq<ServiceRef>, verdicts: seq<seq<ReachabilityResult>>, n: nat): seq<ServiceRef>
    requires n <= |services| == |verdicts|
  {
    seq(|services|,
        k requires 0 <= k < |services| => if k < n then WithVerdicts(services[k], verdicts[k]) else services[k])
  }

  predicate AnyVerdict(verdicts: seq<seq<ReachabilityResult>>, n: nat)
    requires n <= |verdicts|
  {
    n > 0 && (AnyVerdict(verdicts, n - 1) || verdicts[n - 1] != [])
  }

  lemma OverlaidNext(services: seq<ServiceRef>, verdicts: seq<seq<ReachabilityResult>>, n: nat)
    requires n < |services| == |verdicts|
    ensures Overlaid(services, verdicts, n)[n] == services[n]
    ensures Overlaid(services, verdicts, n + 1) ==
            Overlaid(services, verdicts, n)[n := WithVerdicts(services[n], verdicts[n])]
  {
  }

  /** Look up the next service's hosts. */
  method NextVerdicts(namespace: string, svc: ServiceRef, store: Store, arrivals: Arrivals, clock: nat,
                      ghost held: nat -> Verdicts, ghost services: seq<ServiceRef>, ghost i: nat, ghost t: nat,
                      ghost verdicts: seq<seq<ReachabilityResult>>)
    returns (results: seq<ReachabilityResult>, clock': nat)
    requires FoundAll(verdicts, namespace, services, AtLookup(held), t)
    requires i < |services| && svc == services[i] && clock == t + Lookups(services, i)
    requires Evolves(held, arrivals) && store.snapshot == held(clock)
    modifies store
    ensures results == verdicts[i] && clock' == t + Lookups(services, i + 1)
    ensures store.snapshot == held(clock')
  {
    results := FindVerdicts(namespace, svc, store, arrivals, clock, held);
    clock' := clock + |svc.externalHosts|;
    assert verdicts[i] == VerdictsAt(namespace, services, AtLookup(held), t, i);
  }

  /** Overlay one service, copying the shared slice before the first write. */
  method OverlayService(shared: array<ServiceRef>, services: array<ServiceRef>, changed: bool, i: nat,
                        results: seq<ReachabilityResult>, ghost was: seq<ServiceRef>,
                        ghost verdicts: seq<seq<ReachabilityResult>>)
    returns (services': array<ServiceRef>, changed': bool)
    requires |verdicts| == |was| && i < |was| && results == verdicts[i]
    requires shared[..] == was && services[..] == Overlaid(was, verdicts, i) && (changed <==> services != shared)
    modifies if changed then {services} else {}
    ensures shared[..] == was && services'[..] == Overlaid(was, verdicts, i + 1)
    ensures changed' == (changed || results != []) && (changed' <==> services' != shared)
    ensures services' == services || fresh(services')
  {
    services', changed' := services, changed;
    OverlaidNext(was, verdicts, i);
    if results == [] { return; }
    if !changed { services' := CopySlice(shared); }
    changed' := true;
    services'[i] := shared[i].(reachability := results);
  }

  /** A slice whose first `i` services have been overlaid; the shared one is as it was. */
  ghost predicate Partly(shared: array<ServiceRef>, services: array<ServiceRef>, changed: bool,
                         was: seq<ServiceRef>, verdicts: seq<seq<ReachabilityResult>>, i: nat)
    reads shared, services
  {
    && i <= |was| == |verdicts| && shared[..] == was && services[..] == Overlaid(was, verdicts, i)
    && changed == AnyVerdict(verdicts, i) && (changed <==> services != shared)
  }

  /** The store as the t-th lookup will find it, and the clock after the lookups of the first `i` services. */
  ghost predicate UpTo(store: Store, held: nat -> Verdicts, clock: nat, was: seq<ServiceRef>, i: nat, t: nat)
    reads store
  {
    i <= |was| && clock == t + Lookups(was, i) && store.snapshot == held(clock)
  }

  method OverlayStep(namespace: string, shared: array<ServiceRef>, services: array<ServiceRef>, changed: bool, i: nat,
                     store: Store, arrivals: Arrivals, clock: nat, ghost held: nat -> Verdicts, ghost t: nat,
                     ghost was: seq<ServiceRef>, ghost verdicts: seq<seq<ReachabilityResult>>)
    returns (services': array<ServiceRef>, changed': bool, clock': nat)
    requires Evolves(held, arrivals) && FoundAll(verdicts, namespace, was, AtLookup(held), t) && i < |was|
    requires Partly(shared, services, changed, was, verdicts, i) && UpTo(store, held, clock, was, i, t)
    modifies store, if changed then {services} else {}
    ensures Partly(shared, services', changed', was, verdicts, i + 1)
    ensures UpTo(store, held, clock', was, i + 1, t)
    ensures services' == services || fresh(services')
  {
    assert shared[i] == was[i];
    var results;
    results, clock' := NextVerdicts(namespace, shared[i], store, arrivals, clock, held, was, i, t, verdicts);
    services', changed' := OverlayService(shared, services, changed, i, results, was, verdicts);
  }

  /** Overlay the store onto a slice. */
  method OverlaySlice(namespace: string, shared: array<ServiceRef>, store: Store, arrivals: Arrivals, t: nat,
                      ghost held: nat -> Verdicts,
                      ghost was: seq<ServiceRef>, ghost verdicts: seq<seq<ReachabilityResult>>)
    returns (services: array<ServiceRef>, changed: bool, clock: nat)
    requires shared[..] == was && FoundAll(verdicts, namespace, was, AtLookup(held), t)
    requires Evolves(held, arrivals) && store.snapshot == held(t)
    modifies store
    ensures Partly(shared, services, changed, was, verdicts, |was|)
    ensures UpTo(store, held, clock, was, |was|, t)
    ensures services != shared ==> fresh(services)
  {
    services, changed, clock := shared, false, t;
    for i := 0 to shared.Length
      invariant Partly(shared, services, changed, was, verdicts, i)
      invariant UpTo(store, held, clock, was, i, t)
      invariant services != shared ==> fresh(services)
    {
      services, changed, clock :=
        OverlayStep(namespace, shared, services, changed, i, store, arrivals, clock, held, t, was, verdicts);
    }
  }

  /** The verdicts of each service of a slice. */
  function VerdictLists(namespace: string, services: seq<ServiceRef>, seen: Seen,
                        t: nat): (lists: seq<seq<ReachabilityResult>>)
    ensures |lists| == |services|
  {
    seq(|services|, i requires 0 <= i < |services| => VerdictsAt(namespace, services, seen, t, i))
  }

  lemma ListsFound(namespace: string, services: seq<ServiceRef>, seen: Seen, t: nat)
    ensures FoundAll(VerdictLists(namespace, services, seen, t), namespace, services, seen, t)
  {
  }

  /** An application as a request serves it, its first lookup being the t-th. */
  function ServeApp(app: ApplicationEntry, seen: Seen, t: nat): ApplicationEntry {
    app.(services := Overlaid(app.services, VerdictLists(app.namespace, app.services, seen, t), |app.services|))
  }

  function LookupsOf(services: seq<ServiceRef>): nat { Lookups(services, |services|) }
  function AppLookups(app: ApplicationEntry): nat { LookupsOf(app.services) }

  function CatalogLookups(apps: seq<ApplicationEntry>): nat {
    if apps == [] then 0 else CatalogLookups(apps[..|apps| - 1]) + AppLookups(apps[|apps| - 1])
  }

  /** A catalog as a request serves it, application after application. */
  function ServeApps(apps: seq<ApplicationEntry>, seen: Seen): seq<ApplicationEntry> {
    seq(|apps|, i requires 0 <= i < |apps| => ServeApp(apps[i], seen, CatalogLookups(apps[..i])))
  }

  // Requests that see the same snapshots are served the same.

  lemma {:induction false} FoundAlike(namespace: string, service: string, hosts: seq<string>, a: Seen, b: Seen, t: nat)
    requires forall n :: a(n) == b(n)
    ensures Found(namespace, service, hosts, a, t) == Found(namespace, service, hosts, b, t)
  {
    if hosts != [] { FoundAlike(namespace, service, hosts[..|hosts| - 1], a, b, t); }
  }

  lemma ServedAlike(app: ApplicationEntry, a: Seen, b: Seen, t: nat)
    requires forall n :: a(n) == b(n)
    ensures ServeApp(app, a, t) == ServeApp(app, b, t)
  {
    forall k: nat | k < |app.services|
      ensures VerdictsAt(app.namespace, app.services, a, t, k) == VerdictsAt(app.namespace, app.services, b, t, k)
    {
      var svc := app.services[k];
      FoundAlike(app.namespace, svc.name, svc.externalHosts, a, b, t + Lookups(app.services, k));
    }
    assert VerdictLists(app.namespace, app.services, a, t) == VerdictLists(app.namespace, app.services, b, t);
  }

  lemma ServeAppsAlike(apps: seq<ApplicationEntry>, a: Seen, b: Seen)
    requires forall n :: a(n) == b(n)
    ensures ServeApps(apps, a) == ServeApps(apps, b)
  {
    forall i | 0 <= i < |apps| ensures ServeApps(apps, a)[i] == ServeApps(apps, b)[i] {
      ServedAlike(apps[i], a, b, CatalogLookups(apps[..i]));
    }
  }

  /** Overlay the store onto one application, reading it once per host while the prober may replace its snapshot. No
      other object that existed before the call changes; without verdicts the application is returned as it is. */
  method OverlayApp(app: ServedApp, store: Store, arrivals: Arrivals, t: nat, ghost held: nat -> Verdicts)
    returns (out: ServedApp, clock: nat)
    requires Evolves(held, arrivals) && store.snapshot == held(t)
    modifies store
    ensures clock == t + LookupsOf(app.services[..]) && store.snapshot == held(clock)
    ensures View(out) == ServeApp(View(app), AtLookup(held), t)
    ensures var lists := VerdictLists(app.entry.namespace, app.services[..], AtLookup(held), t);
            if AnyVerdict(lists, |lists|) then fresh(out.services) else out == app
  {
    ghost var was, seen := app.services[..], AtLookup(held);
    ghost var lists := VerdictLists(app.entry.namespace, was, seen, t);
    ListsFound(app.entry.namespace, was, seen, t);
    var services, changed;
    services, changed, clock := OverlaySlice(app.entry.namespace, app.services, store, arrivals, t, held, was, lists);
    out := if changed then ServedApp(app.entry, services) else app;
  }

  lemma ServeNext(apps: seq<ApplicationEntry>, seen: Seen, i: nat)
    requires i < |apps|
    ensures ServeApps(apps[..i + 1], seen) ==
            ServeApps(apps[..i], seen) + [ServeApp(apps[i], seen, CatalogLookups(apps[..i]))]
    ensures CatalogLookups(apps[..i + 1]) == CatalogLookups(apps[..i]) + AppLookups(apps[i])
  {
    assert forall k | 0 <= k <= i :: apps[..i + 1][..k] == apps[..k];
    assert forall k | 0 <= k <= i :: apps[..i][..k] == apps[..k];
  }

  /** `apps` show `entries`. */
  ghost predicate Shows(apps: seq<ServedApp>, entries: seq<ApplicationEntry>)
    reads set a | a in apps :: a.services
  {
    |apps| == |entries| && forall k | 0 <= k < |apps| :: View(apps[k]) == entries[k]
  }

  lemma ShowsNext(apps: seq<ServedApp>, entries: seq<ApplicationEntry>, app: ServedApp, entry: ApplicationEntry)
    requires Shows(apps, entries) && View(app) == entry
    ensures Shows(apps + [app], entries + [entry])
  {
  }

  /** `out` shows the first `i` entries overlaid, and the store is as the next lookup will find it. */
  ghost predicate Served(out: seq<ServedApp>, entries: seq<ApplicationEntry>, i: nat, store: Store,
                         held: nat -> Verdicts, clock: nat)
    reads store, set a | a in out :: a.services
  {
    && i <= |entries| && Shows(out, ServeApps(entries[..i], AtLookup(held)))
    && clock == CatalogLookups(entries[..i]) && store.snapshot == held(clock)
  }

  method OverlayNext(app: ServedApp, store: Store, arrivals: Arrivals, clock: nat, before: seq<ServedApp>,
                     ghost held: nat -> Verdicts, ghost entries: seq<ApplicationEntry>, ghost i: nat)
    returns (out: seq<ServedApp>, clock': nat)
    requires Evolves(held, arrivals) && i < |entries| && View(app) == entries[i]
    requires Served(before, entries, i, store, held, clock)
    modifies store
    ensures Served(out, entries, i + 1, store, held, clock')
  {
    var one;
    one, clock' := OverlayApp(app, store, arrivals, clock, held);
    out := before + [one];
    ghost var front, last := ServeApps(entries[..i], AtLookup(held)), ServeApp(entries[i], AtLookup(held), clock);
    ShowsNext(before, front, one, last);
    ServeNext(entries, AtLookup(held), i);
    assert ServeApps(entries[..i + 1], AtLookup(held)) == front + [last];
  }

  /** Overlay every application of a catalog, in order. */
  method OverlayApps(apps: seq<ServedApp>, store: Store, arrivals: Arrivals, ghost entries: seq<ApplicationEntry>)
    returns (out: seq<ServedApp>)
    requires Shows(apps, entries)
    modifies store
    ensures Shows(out, ServeApps(entries, SeenFrom(old(store.snapshot), arrivals))) && Shows(apps, entries)
  {
    ghost var held := HeldFrom(store.snapshot, arrivals);
    out := [];
    var clock := 0;
    for i := 0 to |apps|
      invariant Shows(apps, entries) && Served(out, entries, i, store, held, clock)
    {
      out, clock := OverlayNext(apps[i], store, arrivals, clock, out, held, entries, i);
    }
    assert entries[..|entries|] == entries;
  }

  // ------------------------------------------------------- agreement with the prober

  predicate ServiceAt(apps: seq<ApplicationEntry>, i: nat, k: nat) { i < |apps| && k < |apps[i].services| }

  predicate NamedAlike(apps: seq<ApplicationEntry>, i: nat, k: nat, j: nat, l: nat)
    requires ServiceAt(apps, i, k) && ServiceAt(apps, j, l)
  {
    apps[i].namespace == apps[j].namespace && apps[i].services[k].name == apps[j].services[l].name
  }

  /** Services of one name in one namespace are routed alike, and names hold no '/'. */
  ghost predicate Consistent(apps: seq<ApplicationEntry>) {
    && (forall i: nat, k: nat | ServiceAt(apps, i, k) ::
          SlashFree(apps[i].namespace) && SlashFree(apps[i].services[k].name))
    && (forall i: nat, k: nat, j: nat, l: nat | ServiceAt(apps, i, k) && ServiceAt(apps, j, l) &&
        NamedAlike(apps, i, k, j, l) ::
          apps[i].services[k].routes == apps[j].services[l].routes)
  }

  /** `t` is the target of host `h` of service `k` of application `i`. */
  ghost predicate IsTarget(apps: seq<ApplicationEntry>, t: Target, i: nat, k: nat, h: string) {
    ServiceAt(apps, i, k) && TargetOf(apps[i].namespace, apps[i].services[k], h) == Some(t)
  }

  lemma {:induction false} AppTargetFrom(namespace: string, services: seq<ServiceRef>, t: Target)
    returns (k: nat, h: string)
    requires t in AppTargets(namespace, services)
    ensures k < |services| && TargetOf(namespace, services[k], h) == Some(t)
  {
    var n := |services| - 1;
    if t in AppTargets(namespace, services[..n]) {
      k, h := AppTargetFrom(namespace, services[..n], t);
    } else {
      k := n;
      h :| h in RouteHosts(services[n].routes) && TargetOf(namespace, services[n], h) == Some(t);
    }
  }

  lemma {:induction false} CatalogTargetFrom(apps: seq<ApplicationEntry>, t: Target) returns (i: nat, k: nat, h: string)
    requires t in CatalogTargets(apps)
    ensures IsTarget(apps, t, i, k, h)
  {
    var n := |apps| - 1;
    if t in CatalogTargets(apps[..n]) {
      i, k, h := CatalogTargetFrom(apps[..n], t);
    } else {
      i := n;
      k, h := AppTargetFrom(apps[n].namespace, apps[n].services, t);
    }
  }

  lemma ServiceTargetIn(namespace: string, svc: ServiceRef, h: string, t: Target)
    requires TargetOf(namespace, svc, h) == Some(t)
    ensures t in ServiceTargets(namespace, svc)
  {
    WinnerExact(svc.routes, h);
    var i := WinnerIndex(svc.routes, h).value;
    assert svc.routes[i] in svc.routes && h in RouteHosts(svc.routes);
  }

  lemma {:induction false} ServiceWithinApp(namespace: string, services: seq<ServiceRef>, k: nat)
    requires k < |services|
    ensures multiset(ServiceTargets(namespace, services[k])) <= AppTargets(namespace, services)
  {
    if k < |services| - 1 { ServiceWithinApp(namespace, services[..|services| - 1], k); }
  }

  lemma {:induction false} AppWithinCatalog(apps: seq<ApplicationEntry>, i: nat)
    requires i < |apps|
    ensures AppTargets(apps[i].namespace, apps[i].services) <= CatalogTargets(apps)
  {
    if i < |apps| - 1 { AppWithinCatalog(apps[..|apps| - 1], i); }
  }

  lemma CatalogTargetIn(apps: seq<ApplicationEntry>, t: Target, i: nat, k: nat, h: string)
    requires IsTarget(apps, t, i, k, h)
    ensures t in CatalogTargets(apps)
  {
    ServiceTargetIn(apps[i].namespace, apps[i].services[k], h, t);
    ServiceWithinApp(apps[i].namespace, apps[i].services, k);
    AppWithinCatalog(apps, i);
    assert t in multiset(ServiceTargets(apps[i].namespace, apps[i].services[k]));
  }

  lemma StoreKeyInjective(ns: string, svc: string, h: string, ns': string, svc': string, h': string)
    requires SlashFree(ns) && SlashFree(svc) && SlashFree(ns') && SlashFree(svc')
    requires StoreKey(ns, svc, h) == StoreKey(ns', svc', h')
    ensures ns == ns' && svc == svc' && h == h'
  {
    assert StoreKey(ns, svc, h) == ns + ['/'] + (svc + "/" + h);
    KeyInjective(ns, svc + "/" + h, ns', svc' + "/" + h', '/');
    KeyInjective(svc, h, svc', h', '/');
  }

  /** In a consistent catalog a store key belongs to one service and one host. */
  lemma KeyOwner(apps: seq<ApplicationEntry>, i: nat, k: nat, h: string, j: nat, l: nat, g: string)
    requires Consistent(apps) && ServiceAt(apps, i, k) && ServiceAt(apps, j, l)
    requires StoreKey(apps[i].namespace, apps[i].services[k].name, h) ==
             StoreKey(apps[j].namespace, apps[j].services[l].name, g)
    ensures NamedAlike(apps, i, k, j, l) && apps[i].services[k].routes == apps[j].services[l].routes && h == g
  {
    StoreKeyInjective(apps[i].namespace, apps[i].services[k].name, h, apps[j].namespace, apps[j].services[l].name, g);
    assert NamedAlike(apps, i, k, j, l);
  }

  /** In a consistent catalog a store key stands for one target. */
  lemma SameKeySameTarget(apps: seq<ApplicationEntry>, t: Target, u: Target)
    requires Consistent(apps) && t in CatalogTargets(apps) && u in CatalogTargets(apps) && t.key == u.key
    ensures t == u
  {
    var i, k, h := CatalogTargetFrom(apps, t);
    var j, l, g := CatalogTargetFrom(apps, u);
    KeyOwner(apps, i, k, h, j, l, g);
  }

  /** The outcome of a probe cycle is the same whatever order the probes complete in. */
  lemma ProbeDeterministic(apps: seq<ApplicationEntry>, net: Network, a: Verdicts, b: Verdicts)
    requires Consistent(apps) && Covers(a, net, CatalogTargets(apps)) && Covers(b, net, CatalogTargets(apps))
    ensures a == b
  {
    OutcomesAgree(apps, net, a, b);
    OutcomesAgree(apps, net, b, a);
    SameMap(a, b);
  }

  lemma SameMap(a: Verdicts, b: Verdicts)
    requires a.Keys <= b.Keys && b.Keys <= a.Keys && forall key | key in a :: a[key] == b[key]
    ensures a == b
  {
  }

  lemma OutcomesAgree(apps: seq<ApplicationEntry>, net: Network, a: Verdicts, b: Verdicts)
    requires Consistent(apps) && Covers(a, net, CatalogTargets(apps)) && Covers(b, net, CatalogTargets(apps))
    ensures a.Keys <= b.Keys && forall key | key in a :: a[key] == b[key]
  {
    forall key | key in a ensures key in b && a[key] == b[key] { SameVerdict(apps, net, a, b, key); }
  }

  lemma SameVerdict(apps: seq<ApplicationEntry>, net: Network, a: Verdicts, b: Verdicts, key: string)
    requires Consistent(apps) && Covers(a, net, CatalogTargets(apps)) && Covers(b, net, CatalogTargets(apps))
    requires key in a
    ensures key in b && a[key] == b[key]
  {
    var t :| t in CatalogTargets(apps) && t.key == key && a[key] == Verdict(t, FinalReply(net, t));
    var u :| u in CatalogTargets(apps) && u.key == key && b[key] == Verdict(u, FinalReply(net, u));
    SameKeySameTarget(apps, t, u);
  }

  lemma Holder(apps: seq<ApplicationEntry>, net: Network, results: Verdicts, key: string)
    returns (u: Target, j: nat, l: nat, g: string)
    requires Covers(results, net, CatalogTargets(apps)) && key in results
    ensures IsTarget(apps, u, j, l, g) && results[key] == Verdict(u, FinalReply(net, u))
    ensures key == StoreKey(apps[j].namespace, apps[j].services[l].name, g)
  {
    u :| u in CatalogTargets(apps) && u.key == key && results[key] == Verdict(u, FinalReply(net, u));
    j, l, g := CatalogTargetFrom(apps, u);
  }

  lemma TargetHeld(apps: seq<ApplicationEntry>, net: Network, results: Verdicts, t: Target, i: nat, k: nat, h: string)
    requires Covers(results, net, CatalogTargets(apps)) && IsTarget(apps, t, i, k, h)
    ensures StoreKey(apps[i].namespace, apps[i].services[k].name, h) in results
  {
    CatalogTargetIn(apps, t, i, k, h);
  }

  /** The verdict of a host's own probe, if it is probed. */
  function OwnVerdict(namespace: string, svc: ServiceRef, h: string, net: Network): Option<ReachabilityResult> {
    match TargetOf(namespace, svc, h)
    case Some(t) => Some(Verdict(t, FinalReply(net, t)))
    case None => None
  }

  /** After a probe cycle, the store holds for each host of a service the verdict of that host's own target, and
      nothing for a host without target. */
  lemma StoredVerdict(apps: seq<ApplicationEntry>, net: Network, results: Verdicts, i: nat, k: nat, h: string)
    requires Consistent(apps) && Covers(results, net, CatalogTargets(apps)) && ServiceAt(apps, i, k)
    ensures VerdictAt(results)(StoreKey(apps[i].namespace, apps[i].services[k].name, h)) ==
            OwnVerdict(apps[i].namespace, apps[i].services[k], h, net)
  {
    var svc := apps[i].services[k];
    var key := StoreKey(apps[i].namespace, svc.name, h);
    if key in results {
      var u, j, l, g := Holder(apps, net, results, key);
      KeyOwner(apps, i, k, h, j, l, g);
    } else {
      var own := TargetOf(apps[i].namespace, svc, h);
      if own.Some? { TargetHeld(apps, net, results, own.value, i, k, h); }
    }
  }

  /** What a service should show: for each host, in order, the verdict of its probe unless it opted out. */
  function Expected(namespace: string, svc: ServiceRef, hosts: seq<string>, net: Network): seq<ReachabilityResult> {
    if hosts == [] then []
    else
      var n := |hosts| - 1;
      Expected(namespace, svc, hosts[..n], net) +
        (match OwnVerdict(namespace, svc, hosts[n], net)
         case Some(v) => [v]
         case None => [])
  }

  /** The `count` lookups from the t-th on all see the same snapshot. */
  ghost predicate Unchanging(seen: Seen, results: Verdicts, t: nat, count: nat) {
    forall n | t <= n < t + count :: seen(n) == results
  }

  /** Looking up any host of a service yields the verdict of that host's own probe. */
  ghost predicate Answers(results: Verdicts, namespace: string, svc: ServiceRef, net: Network) {
    forall h :: VerdictAt(results)(StoreKey(namespace, svc.name, h)) == OwnVerdict(namespace, svc, h, net)
  }

  lemma StoreAnswers(apps: seq<ApplicationEntry>, net: Network, results: Verdicts, i: nat, k: nat)
    requires Consistent(apps) && Covers(results, net, CatalogTargets(apps)) && ServiceAt(apps, i, k)
    ensures Answers(results, apps[i].namespace, apps[i].services[k], net)
  {
    forall h ensures VerdictAt(results)(StoreKey(apps[i].namespace, apps[i].services[k].name, h)) ==
                     OwnVerdict(apps[i].namespace, apps[i].services[k], h, net)
    {
      StoredVerdict(apps, net, results, i, k, h);
    }
  }

  lemma {:induction false} FoundExpected(namespace: string, svc: ServiceRef, hosts: seq<string>, net: Network,
                                         results: Verdicts, seen: Seen, t: nat)
    requires Answers(results, namespace, svc, net) && Unchanging(seen, results, t, |hosts|)
    ensures Found(namespace, svc.name, hosts, seen, t) == Expected(namespace, svc, hosts, net)
  {
    if hosts != [] {
      var n := |hosts| - 1;
      FoundExpected(namespace, svc, hosts[..n], net, results, seen, t);
      assert VerdictAt(results)(StoreKey(namespace, svc.name, hosts[n])) == OwnVerdict(namespace, svc, hosts[n], net);
      assert seen(t + n) == results;
    }
  }

  /** A service during whose lookups the store does not change shows exactly the verdicts of its probed hosts that
      did not opt out, in the order of its external hosts. */
  lemma ServedAsProbed(apps: seq<ApplicationEntry>, net: Network, results: Verdicts, i: nat, k: nat, seen: Seen, t: nat)
    requires Consistent(apps) && Covers(results, net, CatalogTargets(apps)) && ServiceAt(apps, i, k)
    requires Unchanging(seen, results, t + Lookups(apps[i].services, k), |apps[i].services[k].externalHosts|)
    ensures VerdictsAt(apps[i].namespace, apps[i].services, seen, t, k) ==
            Expected(apps[i].namespace, apps[i].services[k], apps[i].services[k].externalHosts, net)
  {
    StoreAnswers(apps, net, results, i, k);
    ShownAsAnswered(apps[i].namespace, apps[i].services, net, results, k, seen, t);
  }

  lemma ShownAsAnswered(namespace: string, services: seq<ServiceRef>, net: Network, results: Verdicts, k: nat,
                        seen: Seen, t: nat)
    requires k < |services| && Answers(results, namespace, services[k], net)
    requires Unchanging(seen, results, t + Lookups(services, k), |services[k].externalHosts|)
    ensures VerdictsAt(namespace, services, seen, t, k) ==
            Expected(namespace, services[k], services[k].externalHosts, net)
  {
    FoundExpected(namespace, services[k], services[k].externalHosts, net, results, seen, t + Lookups(services, k));
  }
}
