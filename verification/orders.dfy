/** The orders in which the catalog, its documents, its targets and its verdicts are listed. */
module Orders {
  import opened Text
  import opened Sequences
  import opened Catalog
  import opened Assembling
  import opened Probing
  import Serving
  import Swagger

  /** Lexicographic order, by the position of the first difference. */
  ghost predicate Before(a: string, b: string) { exists k: nat :: BeforeAt(a, b, k) }

  /** No later element has to come before an earlier one. */
  ghost predicate InOrder<T>(before: (T, T) -> bool, s: seq<T>) {
    forall i, j | 0 <= i < j < |s| :: !before(s[j], s[i])
  }

  /** Applications are listed by namespace, then by name. */
  lemma ApplicationsInOrder(apps: seq<ApplicationEntry>)
    requires SortedBy(EntryLess, apps)
    ensures InOrder((a: ApplicationEntry, b: ApplicationEntry) =>
                      if a.namespace == b.namespace then Before(a.name, b.name)
                        else Before(a.namespace, b.namespace), apps)
  {
    forall a: string, b: string ensures Before(a, b) <==> LexLess(a, b) { LexExact(a, b); }
  }

  /** Documents are listed by port, then by path. */
  lemma DocumentsInOrder(docs: seq<APIDocInfo>)
    requires SortedBy(Swagger.DocLess, docs)
    ensures InOrder((a: APIDocInfo, b: APIDocInfo) => a.port < b.port || (a.port == b.port && Before(a.path, b.path)),
                    docs)
  {
    forall a: string, b: string ensures Before(a, b) <==> LexLess(a, b) { LexExact(a, b); }
  }

  /** Targets are listed by their store key, verdicts by host, then by URL. */
  lemma TargetsInOrder(targets: seq<Target>)
    requires SortedBy(TargetLess, targets)
    ensures InOrder((a: Target, b: Target) => Before(a.key, b.key), targets)
  {
    forall a: string, b: string ensures Before(a, b) <==> LexLess(a, b) { LexExact(a, b); }
  }

  lemma VerdictsInOrder(shown: seq<ReachabilityResult>)
    requires SortedBy(Serving.ResultLess, shown)
    ensures InOrder((a: ReachabilityResult, b: ReachabilityResult) =>
                      if a.host == b.host then Before(a.url, b.url) else Before(a.host, b.host), shown)
  {
    forall a: string, b: string ensures Before(a, b) <==> LexLess(a, b) { LexExact(a, b); }
  }
}
