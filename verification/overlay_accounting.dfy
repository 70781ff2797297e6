/** What the overlay's numbers mean: traffic is conserved, and error rates are shares of it. */
module OverlayAccounting {
  import opened Text
  import opened Sequences
  import opened Catalog
  import opened Engines
  import opened OverlaySpec
  import opened OverlayIntegrity

  // ------------------------------------------------------------------- traffic

  function RequestRate(app: ApplicationEntry): real { app.requestRate }

  /** Traffic attributed to one of the first `k` applications. */
  function Owned(owner: Sample -> Option<nat>, k: nat): Sample -> real {
    (s: Sample) => if owner(s).Some? && owner(s).value < k then s.value else 0.0
  }

  lemma {:induction false} OwnedByTotals(owner: Sample -> Option<nat>, samples: seq<Sample>,
                                         apps: seq<ApplicationEntry>)
    requires forall i | 0 <= i < |apps| :: apps[i].requestRate == Sum(Traffic(owner, i), samples)
    ensures Sum(RequestRate, apps) == Sum(Owned(owner, |apps|), samples)
  {
    if apps == [] {
      SumFilter(Owned(owner, 0), s => false, samples);
      FilterNone(s => false, samples);
    } else {
      var n := |apps| - 1;
      OwnedByTotals(owner, samples, apps[..n]);
      SumAdd(Owned(owner, n + 1), Owned(owner, n), Traffic(owner, n), samples);
    }
  }

  // ------------------------------------------------------------ rates before traffic

  /** The rates are those the applications started with. */
  ghost predicate SameRates(apps0: seq<ApplicationEntry>, apps: seq<ApplicationEntry>) {
    |apps| == |apps0| && forall i | 0 <= i < |apps| ::
      apps[i].requestRate == apps0[i].requestRate && apps[i].errorRate == apps0[i].errorRate
  }

  lemma AttachKeepsRates(ctx: Context, apps0: seq<ApplicationEntry>, st: State, eff: Effect)
    requires SameRates(apps0, st.apps)
    ensures SameRates(apps0, ApplyEffect(ctx, st, eff).apps)
  {
  }

  lemma GraphKeepsRates(ctx: Context, apps0: seq<ApplicationEntry>, st: State, s: Sample)
    requires SameRates(apps0, st.apps)
    ensures SameRates(apps0, ServiceGraphStep(ctx)(st, s).apps) && SameRates(apps0, MessagingStep(ctx)(st, s).apps)
    ensures SameRates(apps0, RuntimeStep(ctx)(st, s).apps)
  {
    AttachKeepsRates(ctx, apps0, st, ServiceGraphEffect(ctx, s));
    AttachKeepsRates(ctx, apps0, st, MessagingEffect(ctx, s));
  }

  lemma HttpKeepsRates(ctx: Context, apps0: seq<ApplicationEntry>, st: State, s: Sample)
    requires SameRates(apps0, st.apps)
    ensures SameRates(apps0, HttpStep(ctx)(st, s).apps)
  {
    var peer := ExternalHost(ctx.net, st.caches, RawHost(s));
    var st' := RecordPeer(ctx, st.(caches := peer.caches), NodeJoinKey(Client(ctx, s)), HttpPeerHost(s, peer.host));
    AttachKeepsRates(ctx, apps0, st', HttpEffect(ctx, s, peer.host, peer.keep));
  }

  lemma DatabaseKeepsRates(ctx: Context, apps0: seq<ApplicationEntry>, st: State, s: Sample, dropped: Sample -> bool)
    requires SameRates(apps0, st.apps)
    ensures SameRates(apps0, DatabaseStep(ctx, dropped)(st, s).apps)
  {
    var peer := ExternalHost(ctx.net, st.caches, RawHost(s));
    var http := Peers(st.peers, NodeJoinKey(Client(ctx, s)));
    AttachKeepsRates(ctx, apps0, st.(caches := peer.caches), DatabaseEffect(ctx, http, s, peer.host, peer.keep));
  }

  /** Only the traffic phase touches the rates. */
  lemma RatesBeforeTraffic(ctx: Context, apps0: seq<ApplicationEntry>, caches: Caches, answers: Answers)
    ensures SameRates(apps0, AfterRuntime(ctx, Start(apps0, caches), answers).apps)
  {
    var inv := (st: State) => SameRates(apps0, st.apps);
    var dropped := Dropped(ctx, Samples(answers.database));
    forall st, s | inv(st)
      ensures inv(ServiceGraphStep(ctx)(st, s)) && inv(HttpStep(ctx)(st, s)) && inv(DatabaseStep(ctx, dropped)(st, s))
      ensures inv(MessagingStep(ctx)(st, s)) && inv(RuntimeStep(ctx)(st, s))
    {
      GraphKeepsRates(ctx, apps0, st, s);
      HttpKeepsRates(ctx, apps0, st, s);
      DatabaseKeepsRates(ctx, apps0, st, s, dropped);
    }
    PhasesKeep(ctx, inv, Start(apps0, caches), answers);
  }

  /** The applications as they are collected: no rates yet. */
  predicate Unrated(apps: seq<ApplicationEntry>) {
    forall i | 0 <= i < |apps| :: apps[i].requestRate == 0.0 && apps[i].errorRate == 0.0
  }

  /** No traffic is lost and none is counted twice: after a run over collected applications, the request rates add up to
      the traffic samples attributed to them. */
  lemma TrafficConserved(ctx: Context, apps0: seq<ApplicationEntry>, caches: Caches, answers: Answers)
    requires Unrated(apps0) && forall s | s in Samples(answers.traffic) :: s.value >= 0.0
    ensures Sum(RequestRate, Overlaid(ctx, Start(apps0, caches), answers).apps) ==
            Sum(Owned(Attributed(ctx, |apps0|), |apps0|), Samples(answers.traffic))
  {
    var st, samples := AfterRuntime(ctx, Start(apps0, caches), answers), Samples(answers.traffic);
    RatesBeforeTraffic(ctx, apps0, caches, answers);
    var owner := Attributed(ctx, |apps0|);
    var apps := ApplyTraffic(ctx, st, samples).apps;
    forall i | 0 <= i < |apps| ensures apps[i].requestRate == Sum(Traffic(owner, i), samples) {
      ErrorsWithinTraffic(owner, samples, i);
      assert apps[i] == WithTraffic(owner, samples, i, st.apps[i]);
    }
    OwnedByTotals(owner, samples, apps);
  }

  lemma ErrorsWithinTraffic(owner: Sample -> Option<nat>, samples: seq<Sample>, i: nat)
    requires forall s | s in samples :: s.value >= 0.0
    ensures 0.0 <= Sum(Errors(owner, i), samples) <= Sum(Traffic(owner, i), samples)
  {
  }

  /** The error rate is the share `errors` of the request rate, a number between 0 and 1. */
  ghost predicate RatesAre(app: ApplicationEntry, traffic: real, errors: real) {
    app.requestRate == traffic && 0.0 <= app.errorRate <= 1.0 && app.errorRate * traffic == errors
  }

  /** After a run over collected applications, an error rate is the server-error share of the application's own
      traffic. */
  lemma ErrorRateIsShare(ctx: Context, apps0: seq<ApplicationEntry>, caches: Caches, answers: Answers, i: nat)
    requires i < |apps0| && Unrated(apps0) && forall s | s in Samples(answers.traffic) :: s.value >= 0.0
    ensures
      var owner, samples, apps :=
        Attributed(ctx, |apps0|), Samples(answers.traffic), Overlaid(ctx, Start(apps0, caches), answers).apps;
      |apps| == |apps0| && RatesAre(apps[i], Sum(Traffic(owner, i), samples), Sum(Errors(owner, i), samples))
  {
    var st, samples := AfterRuntime(ctx, Start(apps0, caches), answers), Samples(answers.traffic);
    RatesBeforeTraffic(ctx, apps0, caches, answers);
    var owner := Attributed(ctx, |apps0|);
    ErrorShare(owner, samples, i, st.apps[i]);
    assert ApplyTraffic(ctx, st, samples).apps[i] == WithTraffic(owner, samples, i, st.apps[i]);
  }

  lemma ErrorShare(owner: Sample -> Option<nat>, samples: seq<Sample>, i: nat, app: ApplicationEntry)
    requires app.requestRate == 0.0 && app.errorRate == 0.0
    requires forall s | s in samples :: s.value >= 0.0
    ensures RatesAre(WithTraffic(owner, samples, i, app), Sum(Traffic(owner, i), samples),
                     Sum(Errors(owner, i), samples))
  {
    ErrorsWithinTraffic(owner, samples, i);
    var total, errors := Sum(Traffic(owner, i), samples), Sum(Errors(owner, i), samples);
    if total > 0.0 {
      ShareBounded(errors, total);
      assert WithTraffic(owner, samples, i, app) == app.(requestRate := total, errorRate := errors / total);
    }
  }

  lemma ShareBounded(part: real, whole: real)
    requires 0.0 <= part <= whole && whole > 0.0
    ensures 0.0 <= part / whole <= 1.0 && part / whole * whole == part
  {
  }
}
