/** The two background workers and the requests they run beside, as one step system. The collector publishes catalogs;
    the prober loads a catalog, probes it, and replaces the verdict store; a request loads the catalog once and the
    verdict store once for every host it shows. Between any two of these steps any other may happen. */
module Workers {
  import opened Text
  import opened Sequences
  import opened Catalog
  import opened Probing
  import opened Serving

  datatype CatalogView = CatalogView(collectedAt: int, publishedAt: int, cluster: string, apps: seq<ApplicationEntry>)

  datatype Meta = Meta(collectedAt: int, publishedAt: int, cluster: string)

  /** A catalog as loaded from the shared pointer, with its number in publication order. */
  datatype Loaded = Loaded(cat: CatalogView, index: nat)

  /** A snapshot the store held; `origin` is the catalog probed, with the network it was probed over. */
  datatype Stored = Stored(results: Verdicts, origin: Option<Origin>)
  datatype Origin = Origin(index: nat, net: Network)

  /** A request in progress: the verdict snapshots its lookups saw so far, with their numbers. */
  datatype Request = Request(source: Option<Loaded>, seen: seq<Verdicts>, looks: seq<nat>)

  datatype Response = Response(request: nat, meta: Meta, data: seq<ApplicationEntry>, source: Option<Loaded>,
                               looks: seq<nat>)

  /** What the workers and requests compute: whether a probe cycle over a catalog can end with some verdicts, how many
      lookups it takes to serve a catalog, and what is served given the snapshots these saw. */
  datatype System = System(
    cluster: string, outcome: (CatalogView, Network, Verdicts) -> bool,
    lookups: CatalogView -> nat, serve: (CatalogView, seq<Verdicts>) -> seq<ApplicationEntry>)

  /** `live` and `store` are the two shared pointers; `published` and `stored` remember what they held. */
  datatype State = State(
    live: Option<CatalogView>, store: Verdicts, tick: Option<Loaded>,
    open: map<nat, Request>, sent: seq<Response>, published: seq<CatalogView>, stored: seq<Stored>)

  datatype Event =
    | CollectOk(cat: CatalogView)
    | CollectFail
    | TickBegin
    | TickEnd(results: Verdicts, net: Network)
    | Arrive(id: nat)
    | Look(id: nat)
    | Respond(id: nat)

  function Init(): State { State(None, map[], None, map[], [], [], [Stored(map[], None)]) }

  function Load(s: State): Option<Loaded> {
    if s.live.Some? && |s.published| > 0 then Some(Loaded(s.live.value, |s.published| - 1)) else None
  }

  /** The catalog a request works on: the one it loaded, or an empty one. */
  function ViewOf(cluster: string, source: Option<Loaded>): CatalogView {
    match source
    case Some(l) => l.cat
    case None => CatalogView(0, 0, cluster, [])
  }

  function MetaOf(cat: CatalogView): Meta { Meta(cat.collectedAt, cat.publishedAt, cat.cluster) }

  predicate Ready(s: State) { s.live.Some? }

  function Wanted(sys: System, source: Option<Loaded>): nat { sys.lookups(ViewOf(sys.cluster, source)) }

  function Answer(sys: System, id: nat, req: Request): Response {
    var cat := ViewOf(sys.cluster, req.source);
    Response(id, MetaOf(cat), sys.serve(cat, req.seen), req.source, req.looks)
  }

  /** One step; a step that is not possible leaves the state as it is. */
  function Step(sys: System): (State, Event) -> State {
    (s: State, e: Event) =>
      match e
      case CollectOk(cat) => s.(live := Some(cat), published := s.published + [cat])
      case CollectFail => s
      case TickBegin => if s.tick == None then s.(tick := Load(s)) else s
      case TickEnd(results, net) =>
        if s.tick.Some? && sys.outcome(s.tick.value.cat, net, results) then
          s.(store := results, tick := None,
             stored := s.stored + [Stored(results, Some(Origin(s.tick.value.index, net)))])
        else s
      case Arrive(id) => if id in s.open then s else s.(open := s.open[id := Request(Load(s), [], [])])
      case Look(id) =>
        if id in s.open && |s.open[id].seen| < Wanted(sys, s.open[id].source) && |s.stored| > 0 then
          var req := s.open[id];
          s.(open := s.open[id := Request(req.source, req.seen + [s.store], req.looks + [|s.stored| - 1])])
        else s
      case Respond(id) =>
        if id in s.open && |s.open[id].seen| == Wanted(sys, s.open[id].source) then
          s.(open := s.open - {id}, sent := s.sent + [Answer(sys, id, s.open[id])])
        else s
  }

  function Run(sys: System, events: seq<Event>): State { Fold(Step(sys), Init(), events) }

  // --------------------------------------------------------------------- invariant

  ghost predicate IsPublished(s: State, source: Option<Loaded>) {
    source.Some? ==> source.value.index < |s.published| && s.published[source.value.index] == source.value.cat
  }

  /** The number of the catalog a snapshot stems from; -1 for the initial, empty one. */
  function Rank(x: Stored): int { if x.origin.Some? then x.origin.value.index else -1 }

  /** A snapshot is the initial, empty one, or the outcome of probing a published catalog. */
  ghost predicate Grounded(sys: System, published: seq<CatalogView>, x: Stored) {
    match x.origin
    case None => x.results == map[]
    case Some(o) => o.index < |published| && sys.outcome(published[o.index], o.net, x.results)
  }

  ghost predicate StoreInv(sys: System, s: State) {
    && s.stored != [] && s.store == s.stored[|s.stored| - 1].results
    && (forall k | 0 <= k < |s.stored| :: Grounded(sys, s.published, s.stored[k]))
    && (forall j, k | 0 <= j < k < |s.stored| :: Rank(s.stored[j]) <= Rank(s.stored[k]))
    && (s.tick.Some? ==> Rank(s.stored[|s.stored| - 1]) <= s.tick.value.index)
  }

  ghost predicate CatalogInv(s: State) {
    && (s.live == if s.published == [] then None else Some(s.published[|s.published| - 1]))
    && IsPublished(s, s.tick)
  }

  /** The numbers of the snapshots seen never decrease. */
  ghost predicate LooksInv(stored: seq<Stored>, looks: seq<nat>) {
    && (forall n | 0 <= n < |looks| :: looks[n] < |stored|)
    && (forall m, n | 0 <= m < n < |looks| :: looks[m] <= looks[n])
  }

  /** The snapshots with these numbers. */
  function SnapshotsAt(stored: seq<Stored>, looks: seq<nat>): seq<Verdicts>
    requires forall n | 0 <= n < |looks| :: looks[n] < |stored|
  {
    seq(|looks|, n requires 0 <= n < |looks| => stored[looks[n]].results)
  }

  ghost predicate RequestInv(sys: System, s: State, req: Request) {
    && IsPublished(s, req.source) && LooksInv(s.stored, req.looks)
    && req.seen == SnapshotsAt(s.stored, req.looks) && |req.looks| <= Wanted(sys, req.source)
  }

  /** A response stems from one catalog, metadata and data; its verdicts were looked up in stored snapshots, one
      lookup per shown host, never going back to an older snapshot. */
  ghost predicate ResponseInv(sys: System, s: State, r: Response) {
    && IsPublished(s, r.source) && LooksInv(s.stored, r.looks)
    && var cat := ViewOf(sys.cluster, r.source);
       r.meta == MetaOf(cat) && |r.looks| == sys.lookups(cat)
       && r.data == sys.serve(cat, SnapshotsAt(s.stored, r.looks))
  }

  ghost predicate Inv(sys: System, s: State) {
    && CatalogInv(s) && StoreInv(sys, s)
    && (forall id | id in s.open :: RequestInv(sys, s, s.open[id]))
    && (forall k | 0 <= k < |s.sent| :: ResponseInv(sys, s, s.sent[k]))
  }

  /** `t` may come later in a run than `s`: nothing published, stored or sent is ever taken back. */
  ghost predicate Extends(s: State, t: State) {
    && s.published <= t.published && s.stored <= t.stored && s.sent <= t.sent
  }

  lemma LooksExtend(stored: seq<Stored>, more: seq<Stored>, looks: seq<nat>)
    requires stored <= more && LooksInv(stored, looks)
    ensures LooksInv(more, looks) && SnapshotsAt(more, looks) == SnapshotsAt(stored, looks)
  {
  }

  /** What holds of requests and responses keeps holding. */
  lemma Kept(sys: System, s: State, t: State)
    requires Inv(sys, s) && Extends(s, t)
    ensures forall req | RequestInv(sys, s, req) :: RequestInv(sys, t, req)
    ensures forall r | ResponseInv(sys, s, r) :: ResponseInv(sys, t, r)
    ensures forall k | 0 <= k < |s.stored| :: Grounded(sys, t.published, s.stored[k])
  {
    forall req | RequestInv(sys, s, req) ensures RequestInv(sys, t, req) { LooksExtend(s.stored, t.stored, req.looks); }
    forall r | ResponseInv(sys, s, r) ensures ResponseInv(sys, t, r) { LooksExtend(s.stored, t.stored, r.looks); }
  }

  lemma StepExtends(sys: System, s: State, e: Event)
    ensures Extends(s, Step(sys)(s, e))
  {
  }

  lemma CollectorKeeps(sys: System, s: State, cat: CatalogView)
    requires Inv(sys, s)
    ensures Inv(sys, Step(sys)(s, CollectOk(cat)))
  {
    Kept(sys, s, Step(sys)(s, CollectOk(cat)));
  }

  lemma LoadPublished(sys: System, s: State)
    requires Inv(sys, s)
    ensures IsPublished(s, Load(s))
    ensures Load(s).Some? ==> Rank(s.stored[|s.stored| - 1]) <= Load(s).value.index
  {
    assert Grounded(sys, s.published, s.stored[|s.stored| - 1]);
  }

  lemma ProberKeeps(sys: System, s: State, e: Event)
    requires Inv(sys, s) && (e.TickBegin? || e.TickEnd?)
    ensures Inv(sys, Step(sys)(s, e))
  {
    var t := Step(sys)(s, e);
    Kept(sys, s, t);
    LoadPublished(sys, s);
    assert forall k | 0 <= k < |s.stored| :: t.stored[k] == s.stored[k];
  }

  lemma LookKeeps(sys: System, s: State, req: Request)
    requires Inv(sys, s) && RequestInv(sys, s, req) && |req.seen| < Wanted(sys, req.source)
    ensures RequestInv(sys, s, Request(req.source, req.seen + [s.store], req.looks + [|s.stored| - 1]))
  {
    var looks := req.looks + [|s.stored| - 1];
    assert SnapshotsAt(s.stored, looks) == SnapshotsAt(s.stored, req.looks) + [s.store];
  }

  lemma RequestKeeps(sys: System, s: State, e: Event)
    requires Inv(sys, s) && (e.Arrive? || e.Look? || e.Respond?)
    ensures Inv(sys, Step(sys)(s, e))
  {
    var t := Step(sys)(s, e);
    Kept(sys, s, t);
    match e
    case Arrive(id) =>
      assert RequestInv(sys, s, Request(Load(s), [], []));
    case Look(id) =>
      if id in s.open && |s.open[id].seen| < Wanted(sys, s.open[id].source) { LookKeeps(sys, s, s.open[id]); }
    case Respond(id) =>
      if id in s.open && |s.open[id].seen| == Wanted(sys, s.open[id].source) {
        assert RequestInv(sys, s, s.open[id]);
        assert ResponseInv(sys, s, Answer(sys, id, s.open[id]));
      }
  }

  lemma StepKeeps(sys: System, s: State, e: Event)
    requires Inv(sys, s)
    ensures Inv(sys, Step(sys)(s, e))
  {
    match e
    case CollectOk(cat) => CollectorKeeps(sys, s, cat);
    case CollectFail =>
    case TickBegin => ProberKeeps(sys, s, e);
    case TickEnd(_, _) => ProberKeeps(sys, s, e);
    case Arrive(_) => RequestKeeps(sys, s, e);
    case Look(_) => RequestKeeps(sys, s, e);
    case Respond(_) => RequestKeeps(sys, s, e);
  }
}
