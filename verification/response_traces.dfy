/** When a response shows one verdict snapshot: exactly when no probe cycle ends between its first and its last
    lookup. */
module ResponseTraces {
  import opened Text
  import opened Serving
  import opened Workers
  import opened WorkerTheorems

  /** Where in a run a request arrived and looked up its hosts. */
  datatype Trace = Trace(arrived: nat, looks: seq<nat>)

  /** Event `p` ends a probe cycle, so that the store holds a new snapshot. */
  predicate StoresAt(sys: System, events: seq<Event>, p: nat)
    requires p < |events|
  {
    var s := Run(sys, events[..p]);
    match events[p]
    case TickEnd(results, net) => s.tick.Some? && sys.outcome(s.tick.value.cat, net, results)
    case _ => false
  }

  predicate CanLook(sys: System, s: State, id: nat) {
    id in s.open && |s.open[id].seen| < Wanted(sys, s.open[id].source) && |s.stored| > 0
  }

  /** The trace of the request that carries number `id` at the end of a run. */
  function TraceOf(sys: System, events: seq<Event>, id: nat): Trace {
    if events == [] then Trace(0, [])
    else
      var n := |events| - 1;
      var s, prior := Run(sys, events[..n]), TraceOf(sys, events[..n], id);
      match events[n]
      case Arrive(i) => if i == id && id !in s.open then Trace(n, []) else prior
      case Look(i) => if i == id && CanLook(sys, s, id) then Trace(prior.arrived, prior.looks + [n]) else prior
      case _ => prior
  }

  /** A request loaded the catalog that was live when it arrived; each of its lookups saw the snapshot current then. */
  ghost predicate Traced(sys: System, events: seq<Event>, id: nat, source: Option<Loaded>, looks: seq<nat>, tr: Trace) {
    && tr.arrived < |events| && events[tr.arrived] == Arrive(id) && source == Load(Run(sys, events[..tr.arrived]))
    && |tr.looks| == |looks|
    && (forall k | 0 <= k < |looks| :: LookedAt(sys, events, id, tr.looks[k], looks[k]) && tr.arrived < tr.looks[k])
    && (forall j, k | 0 <= j < k < |looks| :: tr.looks[j] < tr.looks[k])
  }

  /** Event `p` is a lookup of request `id` that saw snapshot number `look`. */
  ghost predicate LookedAt(sys: System, events: seq<Event>, id: nat, p: nat, look: nat) {
    p < |events| && events[p] == Look(id) && look == |Run(sys, events[..p]).stored| - 1
  }

  lemma TracedExtends(sys: System, events: seq<Event>, n: nat, id: nat, source: Option<Loaded>, looks: seq<nat>,
                      tr: Trace)
    requires n <= |events| && Traced(sys, events[..n], id, source, looks, tr)
    ensures Traced(sys, events, id, source, looks, tr) && forall k | 0 <= k < |looks| :: tr.looks[k] < n
  {
    assert forall p | 0 <= p < n :: events[..n][..p] == events[..p];
    forall k | 0 <= k < |looks| ensures LookedAt(sys, events, id, tr.looks[k], looks[k]) {
      assert LookedAt(sys, events[..n], id, tr.looks[k], looks[k]);
    }
  }

  lemma TracedLook(sys: System, events: seq<Event>, id: nat, source: Option<Loaded>, looks: seq<nat>, tr: Trace,
                   look: nat)
    requires events != [] && Traced(sys, events[..|events| - 1], id, source, looks, tr)
    requires LookedAt(sys, events, id, |events| - 1, look)
    ensures Traced(sys, events, id, source, looks + [look], Trace(tr.arrived, tr.looks + [|events| - 1]))
  {
    var n := |events| - 1;
    TracedExtends(sys, events, n, id, source, looks, tr);
    var all, times := looks + [look], tr.looks + [n];
    forall k | 0 <= k < |all| ensures LookedAt(sys, events, id, times[k], all[k]) && tr.arrived < times[k] {
      if k < n { assert k < |looks| ==> LookedAt(sys, events, id, tr.looks[k], looks[k]); }
    }
  }

  /** Requests in progress are traced. */
  lemma {:induction false} OpenTraced(sys: System, events: seq<Event>, id: nat)
    requires id in Run(sys, events).open
    ensures
      var req := Run(sys, events).open[id];
      Traced(sys, events, id, req.source, req.looks, TraceOf(sys, events, id))
  {
    var n := |events| - 1;
    var s, e := Run(sys, events[..n]), events[n];
    assert Run(sys, events) == Step(sys)(s, e);
    if id in s.open {
      OpenTraced(sys, events[..n], id);
      var req, tr := s.open[id], TraceOf(sys, events[..n], id);
      if e == Look(id) && CanLook(sys, s, id) {
        TracedLook(sys, events, id, req.source, req.looks, tr, |s.stored| - 1);
      } else {
        TracedExtends(sys, events, n, id, req.source, req.looks, tr);
      }
    }
  }

  lemma OnlyAnswers(sys: System, s: State, e: Event, n: nat)
    requires |s.sent| <= n < |Step(sys)(s, e).sent|
    ensures e.Respond? && e.id in s.open && Step(sys)(s, e).sent[n] == Answer(sys, e.id, s.open[e.id])
  {
    match e
    case CollectOk(_) =>
    case CollectFail =>
    case TickBegin =>
    case TickEnd(_, _) =>
    case Arrive(_) =>
    case Look(_) =>
    case Respond(id) =>
      assert id in s.open && |s.open[id].seen| == Wanted(sys, s.open[id].source);
  }

  /** Answered requests are traced up to their answer. */
  lemma {:induction false} SentTraced(sys: System, events: seq<Event>, n: nat) returns (p: nat, tr: Trace)
    requires n < |Run(sys, events).sent|
    ensures
      var r := Run(sys, events).sent[n];
      && p < |events| && events[p] == Respond(r.request) && tr == TraceOf(sys, events[..p], r.request)
      && Traced(sys, events, r.request, r.source, r.looks, tr)
  {
    var m := |events| - 1;
    var s, e := Run(sys, events[..m]), events[m];
    assert Run(sys, events) == Step(sys)(s, e);
    StepExtends(sys, s, e);
    var r := Run(sys, events).sent[n];
    if n < |s.sent| {
      p, tr := SentTraced(sys, events[..m], n);
      assert events[..m][..p] == events[..p];
      TracedExtends(sys, events, m, r.request, r.source, r.looks, tr);
    } else {
      OnlyAnswers(sys, s, e, n);
      p, tr := m, TraceOf(sys, events[..m], r.request);
      OpenTraced(sys, events[..m], r.request);
      TracedExtends(sys, events, m, r.request, r.source, r.looks, tr);
    }
  }

  lemma StoresOne(sys: System, s: State, e: Event)
    ensures |Step(sys)(s, e).stored| == |s.stored| +
              (if e.TickEnd? && s.tick.Some? && sys.outcome(s.tick.value.cat, e.net, e.results) then 1 else 0)
  {
  }

  /** The store gains a snapshot at exactly the events that end a cycle. */
  lemma {:induction false} SnapshotsBetween(sys: System, events: seq<Event>, p: nat, q: nat)
    requires p <= q <= |events|
    ensures |Run(sys, events[..p]).stored| <= |Run(sys, events[..q]).stored|
    ensures |Run(sys, events[..p]).stored| == |Run(sys, events[..q]).stored| <==>
            forall m | p <= m < q :: !StoresAt(sys, events, m)
  {
    if p < q {
      SnapshotsBetween(sys, events, p, q - 1);
      assert events[..q][..q - 1] == events[..q - 1];
      var s := Run(sys, events[..q - 1]);
      assert Run(sys, events[..q]) == Step(sys)(s, events[q - 1]);
      StoresOne(sys, s, events[q - 1]);
      if StoresAt(sys, events, q - 1) {
        assert |Run(sys, events[..q]).stored| == |s.stored| + 1;
      } else {
        assert |Run(sys, events[..q]).stored| == |s.stored|;
      }
    }
  }

  /** A response shows one snapshot if and only if no probe cycle ended between its first lookup and its last one. */
  lemma OneSnapshotExactly(sys: System, events: seq<Event>, n: nat) returns (p: nat, tr: Trace)
    requires n < |Run(sys, events).sent| && Run(sys, events).sent[n].looks != []
    ensures
      var r := Run(sys, events).sent[n];
      && p < |events| && events[p] == Respond(r.request) && tr == TraceOf(sys, events[..p], r.request)
      && Traced(sys, events, r.request, r.source, r.looks, tr)
      && (AllAt(r.looks, r.looks[0]) <==>
            forall m | tr.looks[0] < m < tr.looks[|tr.looks| - 1] :: !StoresAt(sys, events, m))
  {
    var r := Run(sys, events).sent[n];
    p, tr := SentTraced(sys, events, n);
    var last := |r.looks| - 1;
    assert LookedAt(sys, events, r.request, tr.looks[0], r.looks[0]);
    assert LookedAt(sys, events, r.request, tr.looks[last], r.looks[last]);
    RunSafe(sys, events);
    assert ResponseInv(sys, Run(sys, events), r);
    SnapshotsBetween(sys, events, tr.looks[0], tr.looks[last]);
    assert !StoresAt(sys, events, tr.looks[0]);
  }

  /** Metadata and data of a response come from one catalog: that of the last collection that had succeeded when the
      request arrived, or the empty one before the first. Its verdicts were looked up in stored snapshots, never going
      back to an older one. */
  lemma ResponseCoherent(sys: System, events: seq<Event>, n: nat) returns (arrived: nat, seen: seq<Verdicts>)
    requires n < |Run(sys, events).sent|
    ensures
      var r := Run(sys, events).sent[n];
      && arrived < |events| && events[arrived] == Arrive(r.request)
      && var done := Collections(events[..arrived]);
         var cat := if done == [] then CatalogView(0, 0, sys.cluster, []) else done[|done| - 1];
         && r.meta.collectedAt == cat.collectedAt && r.meta.publishedAt == cat.publishedAt &&
           r.meta.cluster == cat.cluster
         && r.data == sys.serve(cat, seen) && |seen| == sys.lookups(cat)
         && LooksInv(Run(sys, events).stored, r.looks) && seen == SnapshotsAt(Run(sys, events).stored, r.looks)
  {
    var r := Run(sys, events).sent[n];
    var p, tr := SentTraced(sys, events, n);
    RunSafe(sys, events);
    assert ResponseInv(sys, Run(sys, events), r);
    LastCatalogKept(sys, events[..tr.arrived]);
    arrived, seen := tr.arrived, SnapshotsAt(Run(sys, events).stored, r.looks);
  }
}
