/** Whole telemetry runs, read off the samples: what each workload ends up with, and what DNS contributed. */
module ObservedRuns {
  import opened Text
  import opened Sequences
  import opened Catalog
  import opened Engines
  import opened OverlaySpec
  import opened OverlayIntegrity
  import opened OverlayAccounting
  import opened Observations

  // ------------------------------------------------------------------- DNS answers

  /** A reverse lookup gives the first name that is not blank, without its closing dot; `i` is its position. */
  lemma {:induction false} FirstNameExact(names: seq<string>) returns (i: nat)
    ensures i <= |names| && forall j | 0 <= j < i :: TrimSuffix(TrimSpace(names[j]), ".") == ""
    ensures if i < |names| then FirstName(names) == TrimSuffix(TrimSpace(names[i]), ".") != ""
            else FirstName(names) == ""
  {
    i := 0;
    if |names| > 0 && TrimSuffix(TrimSpace(names[0]), ".") == "" {
      i := FirstNameExact(names[1..]);
      forall j | 0 <= j < i + 1 ensures TrimSuffix(TrimSpace(names[j]), ".") == "" {
        if j > 0 { assert names[1..][j - 1] == names[j]; }
      }
      i := i + 1;
    }
  }

  /** A forward lookup gives the IP addresses of its answer. */
  lemma {:induction false} UsableExact(net: Network, addrs: seq<string>, ip: string)
    ensures ip in UsableIPs(net, addrs) <==>
            ip != "" && net.isBareIP(ip) && exists a :: a in addrs && TrimSpace(a) == ip
  {
    if addrs != [] {
      var n := |addrs| - 1;
      UsableExact(net, addrs[..n], ip);
      assert addrs == addrs[..n] + [addrs[n]];
    }
  }

  /** Every name in `d` that is not in `c` answers a query made in between. */
  ghost predicate AnswersQueries(net: Network, c: Caches, d: Caches) {
    && c.clock <= d.clock
    && (forall ip | ip in d.ptr && ip !in c.ptr ::
          exists t {:trigger net.ptr(t, ip)} :: c.clock <= t < d.clock && d.ptr[ip] == FirstName(net.ptr(t, ip)))
    && (forall h | h in d.hosts && h !in c.hosts ::
          exists t {:trigger net.forward(t, h)} ::
            c.clock <= t < d.clock && d.hosts[h] == UsableIPs(net, net.forward(t, h)))
  }

  lemma ReverseAnswered(net: Network, c0: Caches, c: Caches, ip: string)
    requires AnswersQueries(net, c0, c)
    ensures AnswersQueries(net, c0, ReverseLookup(net, c, ip))
  {
  }

  lemma ForwardAnswered(net: Network, c0: Caches, c: Caches, host: string)
    requires AnswersQueries(net, c0, c)
    ensures AnswersQueries(net, c0, ForwardLookup(net, c, host))
  {
  }

  ghost predicate Remembers(net: Network, c: Caches, d: Caches) { Pinned(c, d) && AnswersQueries(net, c, d) }

  lemma HttpRemembers(ctx: Context, c: Caches, st: State, s: Sample)
    requires Remembers(ctx.net, c, st.caches)
    ensures Remembers(ctx.net, c, HttpSample(ctx, st, s).caches)
  {
    var peer := ExternalHost(ctx.net, st.caches, RawHost(s));
    var key, name, mid := NodeJoinKey(Client(ctx, s)), HttpPeerHost(s, peer.host), st.(caches := peer.caches);
    HttpPins(ctx, st, s);
    ReverseAnswered(ctx.net, c, st.caches, RawHost(s));
    ForwardAnswered(ctx.net, c, peer.caches, name);
    EffectGrows(ctx, RecordPeer(ctx, mid, key, name), HttpEffect(ctx, s, peer.host, peer.keep));
  }

  lemma DatabaseRemembers(ctx: Context, c: Caches, st: State, s: Sample)
    requires Remembers(ctx.net, c, st.caches)
    ensures Remembers(ctx.net, c, DatabaseSample(ctx, st, s).caches)
  {
    DatabasePins(ctx, st, s);
    ReverseAnswered(ctx.net, c, st.caches, RawHost(s));
  }

  lemma StepsKeepCaches(ctx: Context, st: State, s: Sample)
    ensures ServiceGraphStep(ctx)(st, s).caches == st.caches && MessagingStep(ctx)(st, s).caches == st.caches
    ensures RuntimeStep(ctx)(st, s).caches == st.caches
  {
    EffectGrows(ctx, st, ServiceGraphEffect(ctx, s));
    EffectGrows(ctx, st, MessagingEffect(ctx, s));
  }

  lemma StepsRemember(ctx: Context, c: Caches, dropped: Sample -> bool, st: State, s: Sample)
    requires Remembers(ctx.net, c, st.caches)
    ensures Remembers(ctx.net, c, ServiceGraphStep(ctx)(st, s).caches)
    ensures Remembers(ctx.net, c, HttpStep(ctx)(st, s).caches)
    ensures Remembers(ctx.net, c, DatabaseStep(ctx, dropped)(st, s).caches)
    ensures Remembers(ctx.net, c, MessagingStep(ctx)(st, s).caches)
    ensures Remembers(ctx.net, c, RuntimeStep(ctx)(st, s).caches)
  {
    StepsKeepCaches(ctx, st, s);
    HttpRemembers(ctx, c, st, s);
    DatabaseRemembers(ctx, c, st, s);
  }

  /** The DNS caches of a run: what was there stays, and every entry added is the answer of a query of this run. */
  lemma CachesObserved(ctx: Context, st: State, answers: Answers)
    ensures Remembers(ctx.net, st.caches, Overlaid(ctx, st, answers).caches)
  {
    var inv := (a: State) => Remembers(ctx.net, st.caches, a.caches);
    var dropped := Dropped(ctx, Samples(answers.database));
    forall a, s | inv(a)
      ensures inv(ServiceGraphStep(ctx)(a, s)) && inv(HttpStep(ctx)(a, s)) && inv(DatabaseStep(ctx, dropped)(a, s))
      ensures inv(MessagingStep(ctx)(a, s)) && inv(RuntimeStep(ctx)(a, s))
    {
      StepsRemember(ctx, st.caches, dropped, a, s);
    }
    PhasesKeep(ctx, inv, st, answers);
  }

  // -------------------------------------------------------------------- HTTP peers

  /** What an HTTP sample makes known as a peer of workload `key`: the shown name, and the addresses it resolved to. */
  function PeersSaid(ctx: Context, d: Caches, key: string, s: Sample): set<string> {
    var client, raw := ctx.res.ResolveClient(s.metric), Address(s.metric).host;
    if Label(s.metric, "server_address") == "" || client.external ||
      client.namespace + "/" + client.service != key then {}
    else
      var name := Shown(ctx.net, d.ptr, raw);
      var addrs := if !ctx.net.isBareIP(name) && name in d.hosts then d.hosts[name] else [];
      (set h | h in [name] + addrs) - {""}
  }

  lemma PeersStep(ctx: Context, st: State, s: Sample, d: Caches, key: string)
    requires Pinned(HttpSample(ctx, st, s).caches, d)
    requires Label(s.metric, "server_address") != "" && !Client(ctx, s).external
    ensures Peers(HttpSample(ctx, st, s).peers, key) == Peers(st.peers, key) + PeersSaid(ctx, d, key, s)
  {
    var peer := ExternalHost(ctx.net, st.caches, RawHost(s));
    var own, name, mid := NodeJoinKey(Client(ctx, s)), HttpPeerHost(s, peer.host), st.(caches := peer.caches);
    HttpPins(ctx, st, s);
    PinnedTransitive(peer.caches, HttpSample(ctx, st, s).caches, d);
    ShownLater(ctx.net, st.caches, RawHost(s), d);
    EffectGrows(ctx, RecordPeer(ctx, mid, own, name), HttpEffect(ctx, s, peer.host, peer.keep));
    PeersRecorded(ctx, mid, own, name, d, key);
  }

  lemma PeersRecorded(ctx: Context, st: State, own: string, name: string, d: Caches, key: string)
    requires Pinned(RecordPeer(ctx, st, own, name).caches, d)
    ensures
      var addrs := if !ctx.net.isBareIP(name) && name in d.hosts then d.hosts[name] else [];
      Peers(RecordPeer(ctx, st, own, name).peers, key) ==
      Peers(st.peers, key) + (if key == own then (set h | h in [name] + addrs) - {""} else {})
  {
    if !ctx.net.isBareIP(name) {
      var c := ForwardLookup(ctx.net, st.caches, name);
      AddPeersExact(AddPeer(st.peers, own, name), own, c.hosts[name], key);
    }
  }

  lemma PeersStepped(ctx: Context, st: State, s: Sample, d: Caches, key: string)
    requires Pinned(HttpStep(ctx)(st, s).caches, d)
    ensures Peers(HttpStep(ctx)(st, s).peers, key) == Peers(st.peers, key) + PeersSaid(ctx, d, key, s)
  {
    if Label(s.metric, "server_address") != "" && !Client(ctx, s).external { PeersStep(ctx, st, s, d, key); }
  }

  /** The HTTP peers of a workload after the phase: those it had, and those that its samples make known. */
  lemma {:induction false} PeersObserved(ctx: Context, st: State, samples: seq<Sample>, d: Caches, key: string)
    requires Pinned(Fold(HttpStep(ctx), st, samples).caches, d)
    ensures Peers(Fold(HttpStep(ctx), st, samples).peers, key) ==
            Peers(st.peers, key) + set s, h | s in samples && h in PeersSaid(ctx, d, key, s) :: h
  {
    if samples != [] {
      var n := |samples| - 1;
      var before := Fold(HttpStep(ctx), st, samples[..n]);
      HttpStepPins(ctx, before, samples[n]);
      PinnedTransitive(before.caches, HttpStep(ctx)(before, samples[n]).caches, d);
      PeersObserved(ctx, st, samples[..n], d, key);
      PeersStepped(ctx, before, samples[n], d, key);
      SaidSnoc((s: Sample) => PeersSaid(ctx, d, key, s), samples[..n], samples[n]);
      assert samples == samples[..n] + [samples[n]];
    }
  }

  lemma SaidSnoc(says: Sample -> set<string>, samples: seq<Sample>, x: Sample)
    ensures (set s, h | s in samples + [x] && h in says(s) :: h) ==
            (set s, h | s in samples && h in says(s) :: h) + says(x)
  {
  }

  lemma HttpStepPins(ctx: Context, st: State, s: Sample)
    ensures Pinned(st.caches, HttpStep(ctx)(st, s).caches)
  {
    HttpPins(ctx, st, s);
  }

  // ---------------------------------------------------------------------- runtimes

  /** The language that a sample detects for application number `i`; "" when it detects none. */
  function Detected(ctx: Context, i: nat): Sample -> string {
    (s: Sample) =>
      var client, lang := ctx.res.ResolveClient(s.metric), Label(s.metric, "telemetry_sdk_language");
      var key := client.namespace + "/" + client.service;
      if !client.external && key in ctx.index && ctx.index[key] == i && lang != "generic" then lang else ""
  }

  /** What `was` becomes when only a blank is overwritten. */
  function Filled(was: string, says: Sample -> string, samples: seq<Sample>): string {
    if samples == [] then was
    else
      var prior := Filled(was, says, samples[..|samples| - 1]);
      if prior != "" then prior else says(samples[|samples| - 1])
  }

  lemma {:induction false} FilledExact(was: string, says: Sample -> string, samples: seq<Sample>) returns (k: nat)
    ensures k <= |samples| && forall j | 0 <= j < k :: says(samples[j]) == ""
    ensures k < |samples| ==> says(samples[k]) != ""
    ensures Filled(was, says, samples) == if was != "" || k == |samples| then was else says(samples[k])
  {
    k := 0;
    if samples != [] {
      var n := |samples| - 1;
      k := FilledExact(was, says, samples[..n]);
      if k == n && says(samples[n]) == "" { k := n + 1; }
    }
  }

  lemma RuntimeStepAt(ctx: Context, st: State, s: Sample, i: nat)
    requires i < |st.apps|
    ensures |RuntimeStep(ctx)(st, s).apps| == |st.apps|
    ensures var was := st.apps[i].runtime;
            RuntimeStep(ctx)(st, s).apps[i] == st.apps[i].(runtime := if was != "" then was else Detected(ctx, i)(s))
  {
  }

  lemma {:induction false} RuntimeFold(ctx: Context, st: State, samples: seq<Sample>, i: nat)
    requires i < |st.apps|
    ensures |Fold(RuntimeStep(ctx), st, samples).apps| == |st.apps|
    ensures Fold(RuntimeStep(ctx), st, samples).apps[i] ==
            st.apps[i].(runtime := Filled(st.apps[i].runtime, Detected(ctx, i), samples))
  {
    if samples != [] {
      var n := |samples| - 1;
      RuntimeFold(ctx, st, samples[..n], i);
      RuntimeStepAt(ctx, Fold(RuntimeStep(ctx), st, samples[..n]), samples[n], i);
    }
  }

  /** A known runtime stays; an unknown one becomes the first that is detected, at sample `k`, if any is. Nothing else
      about the application changes. */
  lemma RuntimesObserved(ctx: Context, st: State, samples: seq<Sample>, i: nat) returns (k: nat)
    requires i < |st.apps|
    ensures |Fold(RuntimeStep(ctx), st, samples).apps| == |st.apps|
    ensures k <= |samples| && forall j | 0 <= j < k :: Detected(ctx, i)(samples[j]) == ""
    ensures k < |samples| ==> Detected(ctx, i)(samples[k]) != ""
    ensures
      var was, now := st.apps[i], Fold(RuntimeStep(ctx), st, samples).apps[i];
      now == was.(runtime := if was.runtime != "" || k == |samples| then was.runtime else Detected(ctx, i)(samples[k]))
  {
    RuntimeFold(ctx, st, samples, i);
    k := FilledExact(st.apps[i].runtime, Detected(ctx, i), samples);
  }

  // ----------------------------------------------------------------------- traffic

  /** The requests, and the failed ones, that a sample reports for application number `i`. */
  function Requests(ctx: Context, i: nat): Sample -> real {
    (s: Sample) =>
      var client := ctx.res.ResolveClient(s.metric);
      var key := client.namespace + "/" + client.service;
      if !client.external && key in ctx.index && ctx.index[key] == i then s.value else 0.0
  }

  function Failures(ctx: Context, i: nat): Sample -> real {
    (s: Sample) => if "5" <= Label(s.metric, "http_response_status_code") then Requests(ctx, i)(s) else 0.0
  }

  /** After a run over applications without rates, the request rate of an application is what was reported for it, and
      its error rate is the share of answers whose status code begins with a 5. */
  lemma RatesObserved(ctx: Context, apps0: seq<ApplicationEntry>, caches: Caches, answers: Answers, i: nat)
    requires i < |apps0| && Unrated(apps0) && forall s | s in Samples(answers.traffic) :: s.value >= 0.0
    ensures
      var samples, apps := Samples(answers.traffic), Overlaid(ctx, Start(apps0, caches), answers).apps;
      |apps| == |apps0| && RatesAre(apps[i], Sum(Requests(ctx, i), samples), Sum(Failures(ctx, i), samples))
  {
    var owner, samples := Attributed(ctx, |apps0|), Samples(answers.traffic);
    ErrorRateIsShare(ctx, apps0, caches, answers, i);
    forall s: Sample { SampleCounts(ctx, |apps0|, i, s); }
    SumSame(Requests(ctx, i), Traffic(owner, i), samples);
    SumSame(Failures(ctx, i), Errors(owner, i), samples);
  }

  lemma SampleCounts(ctx: Context, n: nat, i: nat, s: Sample)
    requires i < n
    ensures Requests(ctx, i)(s) == Traffic(Attributed(ctx, n), i)(s)
    ensures Failures(ctx, i)(s) == Errors(Attributed(ctx, n), i)(s)
  {
    StatusFive(Label(s.metric, "http_response_status_code"));
    assert ServerError(s) <==> "5" <= Label(s.metric, "http_response_status_code");
    var owner := Attributed(ctx, n);
    assert Errors(owner, i)(s) == if ServerError(s) then Traffic(owner, i)(s) else 0.0;
    assert Failures(ctx, i)(s) == if ServerError(s) then Requests(ctx, i)(s) else 0.0;
  }

  lemma StatusFive(code: string)
    ensures "5" <= code <==> code != "" && code[0] == '5'
  {
  }

  lemma {:induction false} SumSame<T>(f: T -> real, g: T -> real, s: seq<T>)
    requires forall x | x in s :: f(x) == g(x)
    ensures Sum(f, s) == Sum(g, s)
  {
    if s != [] { SumSame(f, g, s[..|s| - 1]); }
  }

  // ------------------------------------------------------------------- a whole run

  lemma {:induction false} EdgesAppend(a: seq<Effect>, b: seq<Effect>)
    ensures EdgesIn(a + b) == EdgesIn(a) + EdgesIn(b)
  {
    if b == [] {
      assert a + b == a;
    } else {
      assert (a + b)[..|a + b| - 1] == a + b[..|b| - 1];
      EdgesAppend(a, b[..|b| - 1]);
    }
  }

  lemma {:induction false} AttachedAppend(ctx: Context, a: seq<Effect>, b: seq<Effect>, i: nat)
    ensures DatabasesIn(ctx, a + b, i) == DatabasesIn(ctx, a, i) + DatabasesIn(ctx, b, i)
    ensures TopicsIn(ctx, a + b, i) == TopicsIn(ctx, a, i) + TopicsIn(ctx, b, i)
  {
    if b == [] {
      assert a + b == a;
    } else {
      assert (a + b)[..|a + b| - 1] == a + b[..|b| - 1];
      AttachedAppend(ctx, a, b[..|b| - 1], i);
    }
  }

  lemma LeftThen(ctx: Context, x: State, a: seq<Effect>, y: State, b: seq<Effect>, z: State)
    requires Left(ctx, x, y, a) && Left(ctx, y, z, b)
    ensures Left(ctx, x, z, a + b)
  {
    EdgesAppend(a, b);
    AddAllByAppend(EdgeKey, x.edges, EdgesIn(a), EdgesIn(b));
    forall i: nat | i < |x.apps| ensures AppLeft(ctx, x.apps[i], z.apps[i], a + b, i) {
      assert AppLeft(ctx, x.apps[i], y.apps[i], a, i) && AppLeft(ctx, y.apps[i], z.apps[i], b, i);
      AttachedAppend(ctx, a, b, i);
      AddAllByAppend(DatabaseKey, x.apps[i].databases, DatabasesIn(ctx, a, i), DatabasesIn(ctx, b, i));
      AddAllByAppend(TopicKey, x.apps[i].kafkaTopics, TopicsIn(ctx, a, i), TopicsIn(ctx, b, i));
    }
  }

  /** Everything that the samples of a run report, phase by phase; `http` are the peers known after the HTTP phase. */
  function Reported(ctx: Context, answers: Answers, http: map<string, set<string>>,
                    ptr: map<string, string>): seq<Effect> {
    Map(GraphSays(ctx), Samples(answers.serviceGraph)) + Map(HttpSays(ctx, ptr), Samples(answers.httpClient)) +
    Map(DatabaseSays(ctx, http, ptr, Samples(answers.database)), Samples(answers.database)) +
    Map(MessagingSays(ctx), Samples(answers.messaging))
  }

  lemma {:induction false} CachesKept(step: (State, Sample) -> State, st: State, samples: seq<Sample>)
    requires forall a: State, s :: step(a, s).caches == a.caches
    ensures Fold(step, st, samples).caches == st.caches
  {
    if samples != [] { CachesKept(step, st, samples[..|samples| - 1]); }
  }

  lemma EndCaches(ctx: Context, st: State, answers: Answers)
    ensures Overlaid(ctx, st, answers).caches == AfterDatabase(ctx, st, answers).caches
    ensures Pinned(AfterHttp(ctx, st, answers).caches, AfterDatabase(ctx, st, answers).caches)
  {
    forall a: State, s
      ensures MessagingStep(ctx)(a, s).caches == a.caches && RuntimeStep(ctx)(a, s).caches == a.caches
    {
      StepsKeepCaches(ctx, a, s);
    }
    CachesKept(MessagingStep(ctx), AfterDatabase(ctx, st, answers), Samples(answers.messaging));
    CachesKept(RuntimeStep(ctx), AfterMessaging(ctx, st, answers), Samples(answers.runtime));
    var db := Samples(answers.database);
    var step := DatabaseStep(ctx, Dropped(ctx, db));
    forall a: State, s ensures Pinned(a.caches, step(a, s).caches) { DatabaseStepKeeps(ctx, Dropped(ctx, db), a, s); }
    FoldPinned(step, AfterHttp(ctx, st, answers), db, 0);
  }

  /** The runtime and traffic phases record neither edges nor databases nor topics. */
  lemma RestLeavesNothing(ctx: Context, st: State, runtime: seq<Sample>, traffic: seq<Sample>)
    ensures Left(ctx, st, ApplyTraffic(ctx, Fold(RuntimeStep(ctx), st, runtime), traffic), [])
  {
    RuntimeKeepsEdges(ctx, st, runtime);
    var end := ApplyTraffic(ctx, Fold(RuntimeStep(ctx), st, runtime), traffic);
    forall i: nat | i < |st.apps| ensures |end.apps| == |st.apps| && AppLeft(ctx, st.apps[i], end.apps[i], [], i) {
      RuntimeFold(ctx, st, runtime, i);
    }
  }

  lemma {:induction false} RuntimeKeepsEdges(ctx: Context, st: State, samples: seq<Sample>)
    ensures Fold(RuntimeStep(ctx), st, samples).edges == st.edges
    ensures |Fold(RuntimeStep(ctx), st, samples).apps| == |st.apps|
  {
    if samples != [] { RuntimeKeepsEdges(ctx, st, samples[..|samples| - 1]); }
  }

  /** A whole run: the edges are those that the samples report, in order, one per key; an application gains the
      databases and topics that the samples about it report, in order, one per key; and nothing else. */
  lemma RunObserved(ctx: Context, apps0: seq<ApplicationEntry>, caches: Caches, answers: Answers)
    ensures
      var start := Start(apps0, caches);
      var end := Overlaid(ctx, start, answers);
      Left(ctx, start, end, Reported(ctx, answers, AfterHttp(ctx, start, answers).peers, end.caches.ptr))
  {
    var start := Start(apps0, caches);
    var d := Overlaid(ctx, start, answers).caches;
    var graph := Fold(ServiceGraphStep(ctx), start, Samples(answers.serviceGraph));
    var http, db := AfterHttp(ctx, start, answers), Samples(answers.database);
    EndCaches(ctx, start, answers);
    GraphObserved(ctx, start, Samples(answers.serviceGraph));
    HttpObserved(ctx, graph, Samples(answers.httpClient), d);
    DatabasesObserved(ctx, http, db, d);
    MessagingObserved(ctx, AfterDatabase(ctx, start, answers), Samples(answers.messaging));
    RestLeavesNothing(ctx, AfterMessaging(ctx, start, answers), Samples(answers.runtime), Samples(answers.traffic));
    var a, b := Map(GraphSays(ctx), Samples(answers.serviceGraph)),
    Map(HttpSays(ctx, d.ptr), Samples(answers.httpClient));
    var c, e := Map(DatabaseSays(ctx, http.peers, d.ptr, db), db), Map(MessagingSays(ctx), Samples(answers.messaging));
    LeftChain(ctx, start, a, graph, b, http, c, AfterDatabase(ctx, start, answers), e,
              AfterMessaging(ctx, start, answers),
              Overlaid(ctx, start, answers));
  }

  lemma LeftChain(ctx: Context, s0: State, a: seq<Effect>, s1: State, b: seq<Effect>, s2: State, c: seq<Effect>,
                  s3: State, e: seq<Effect>, s4: State, s5: State)
    requires Left(ctx, s0, s1, a) && Left(ctx, s1, s2, b) && Left(ctx, s2, s3, c) && Left(ctx, s3, s4, e)
    requires Left(ctx, s4, s5, [])
    ensures Left(ctx, s0, s5, a + b + c + e)
  {
    LeftThen(ctx, s0, a, s1, b, s2);
    LeftThen(ctx, s0, a + b, s2, c, s3);
    LeftThen(ctx, s0, a + b + c, s3, e, s4);
    LeftThen(ctx, s0, a + b + c + e, s4, [], s5);
    assert a + b + c + e + [] == a + b + c + e;
  }

  lemma {:induction false} InReports(ctx: Context, reports: seq<Effect>, i: nat)
    ensures forall db :: db in DatabasesIn(ctx, reports, i) <==>
              exists r :: r in reports && About(ctx, r, i) && r.attach == Database(db) &&
                (db.system != "" || db.name != "")
    ensures forall t :: t in TopicsIn(ctx, reports, i) <==>
              exists r :: r in reports && About(ctx, r, i) && r.attach == Topic(t) && t.name != ""
    ensures forall e :: e in EdgesIn(reports) <==> exists r :: r in reports && r.Emit? && r.edge == e
  {
    if reports != [] {
      var n := |reports| - 1;
      InReports(ctx, reports[..n], i);
      assert reports == reports[..n] + [reports[n]];
    }
  }

  /** The report gives application number `i` this database. */
  predicate GivesDatabase(ctx: Context, r: Effect, i: nat, db: DatabaseRef) {
    About(ctx, r, i) && r.attach == Database(db) && (db.system != "" || db.name != "")
  }

  predicate GivesTopic(ctx: Context, r: Effect, i: nat, t: KafkaTopicRef) {
    About(ctx, r, i) && r.attach == Topic(t) && t.name != ""
  }

  /** The databases are reported ones, and there is one for each system and name that is reported. */
  ghost predicate DatabasesRecorded(ctx: Context, reports: seq<Effect>, i: nat, kept: seq<DatabaseRef>) {
    && (forall db | db in kept :: exists r :: r in reports && GivesDatabase(ctx, r, i, db))
    && (forall r, db | r in reports && GivesDatabase(ctx, r, i, db) ::
          exists x :: x in kept && x.system == db.system && x.name == db.name)
    && forall j, k | 0 <= j < k < |kept| :: kept[j].system != kept[k].system || kept[j].name != kept[k].name
  }

  ghost predicate TopicsRecorded(ctx: Context, reports: seq<Effect>, i: nat, kept: seq<KafkaTopicRef>) {
    && (forall t | t in kept :: exists r :: r in reports && GivesTopic(ctx, r, i, t))
    && (forall r, t | r in reports && GivesTopic(ctx, r, i, t) ::
          exists x :: x in kept && x.name == t.name && x.direction == t.direction)
    && forall j, k | 0 <= j < k < |kept| :: kept[j].name != kept[k].name || kept[j].direction != kept[k].direction
  }

  ghost predicate EdgesRecorded<K>(key: DependencyEdge -> K, reports: seq<Effect>, kept: seq<DependencyEdge>) {
    && (forall e | e in kept :: exists r :: r in reports && r.Emit? && r.edge == e)
    && (forall r | r in reports && r.Emit? :: exists x :: x in kept && key(x) == key(r.edge))
    && DistinctBy(key, kept)
  }

  lemma DatabasesKept(ctx: Context, reports: seq<Effect>, i: nat)
    ensures DatabasesRecorded(ctx, reports, i, DedupBy(DatabaseKey, DatabasesIn(ctx, reports, i)))
  {
    InReports(ctx, reports, i);
    KeptOnce(DatabaseKey, DatabasesIn(ctx, reports, i));
  }

  lemma TopicsKept(ctx: Context, reports: seq<Effect>, i: nat)
    ensures TopicsRecorded(ctx, reports, i, DedupBy(TopicKey, TopicsIn(ctx, reports, i)))
  {
    InReports(ctx, reports, i);
    KeptOnce(TopicKey, TopicsIn(ctx, reports, i));
  }

  lemma EdgesKept<K>(ctx: Context, key: DependencyEdge -> K, reports: seq<Effect>)
    ensures EdgesRecorded(key, reports, DedupBy(key, EdgesIn(reports)))
  {
    InReports(ctx, reports, 0);
    KeptOnce(key, EdgesIn(reports));
  }

  /** What a run leaves of an application that had no databases and topics, and of the edges: one database for each
      system and name that a sample about it reports, one topic for each name and direction, one edge for each key. */
  lemma RunRecords(ctx: Context, apps0: seq<ApplicationEntry>, caches: Caches, answers: Answers, i: nat, end: State,
                   reports: seq<Effect>)
    requires i < |apps0| && apps0[i].databases == [] && apps0[i].kafkaTopics == []
    requires end == Overlaid(ctx, Start(apps0, caches), answers)
    requires reports == Reported(ctx, answers, AfterHttp(ctx, Start(apps0, caches), answers).peers, end.caches.ptr)
    ensures |end.apps| == |apps0| && DatabasesRecorded(ctx, reports, i, end.apps[i].databases)
    ensures TopicsRecorded(ctx, reports, i, end.apps[i].kafkaTopics) && EdgesRecorded(EdgeKey, reports, end.edges)
  {
    RunObserved(ctx, apps0, caches, answers);
    assert AppLeft(ctx, apps0[i], end.apps[i], reports, i);
    DatabasesKept(ctx, reports, i);
    TopicsKept(ctx, reports, i);
    EdgesKept(ctx, EdgeKey, reports);
  }

  lemma KeptOnce<T, K>(key: T -> K, all: seq<T>)
    ensures DistinctBy(key, DedupBy(key, all)) && forall x | x in DedupBy(key, all) :: x in all
    ensures forall x | x in all :: exists y :: y in DedupBy(key, all) && key(y) == key(x)
  {
    AddAllByKeys(key, [], all);
    forall x | x in all ensures exists y :: y in DedupBy(key, all) && key(y) == key(x) {
      assert HasKey(key, all, key(x));
    }
  }
}
