# Verification of ssu-catalog

ssu-catalog rebuilds a catalog of a Kubernetes cluster every cycle: it scans all namespaces concurrently, joins
workloads, services and routes into application entries, looks for API documents, overlays what telemetry observed,
and publishes the result. A second worker probes the exposed hosts and keeps their verdicts; requests overlay those
verdicts onto the catalog they serve. This project models that pipeline in Dafny and proves properties of it.

## How the model is laid out

| files | component | main results |
|---|---|---|
| `text.dfy`, `sequences.dfy`, `catalog.dfy`, `orders.dfy` | Go's strings, slices, unstable sort; the catalog's records and orders | order is total and lexicographic, joined keys are injective on delimiter-free parts |
| `scan.dfy`, `ingress.dfy`, `traefik.dfy` | concurrent scans merged under a lock; Ingress and IngressRoute routing | schedule independence of the merge, match-expression round trip |
| `collector.dfy`, `assembly.dfy`, `netpol.dfy`, `assembly_theorems.dfy`, `selection.dfy` | assembly of the application entries | same catalog for every schedule, every service accounted for, what each entry, service and declared edge shows of the scanned objects |
| `resolver.dfy`, `identities.dfy`, `engines.dfy`, `overlay_spec.dfy`, `overlay.dfy` | address resolution, engine conflicts, the six telemetry phases over shared mutable state | address forms agree, which labels name a workload, reconciliation is a fixpoint, `Apply` refines its specification |
| `observations.dfy`, `observed_runs.dfy` | what a telemetry run records, read off the labels of its samples | the edges, databases, topics, peers, runtimes and rates of a run are exactly the reported ones |
| `overlay_integrity.dfy`, `overlay_isolation.dfy`, `overlay_accounting.dfy`, `edge_keys.dfy` | theorems about the overlay | referential integrity, phantom rejection under changing DNS, per-workload non-interference over all six phases, traffic conservation, when an edge key stands for one edge |
| `mounts.dfy`, `swagger.dfy`, `swagger_theorems.dfy`, `discoveries.dfy` | OpenAPI discovery | same documents for every completion order, exact hit count, exact probes, documents and external URLs |
| `expect.dfy`, `reachability.dfy`, `serve.dfy`, `pipeline.dfy`, `outcomes.dfy` | expectation language, targets, probing, verdict store, copy-on-write overlay | determinism of a cycle, what a verdict says about the replies, agreement between what is probed and what is served |
| `workers.dfy`, `response_traces.dfy`, `worker_theorems.dfy`, `mixed_response.dfy` | both workers and the requests as one step system | safety over every interleaving, when a response shows one snapshot, end-to-end agreement, a run that mixes two |

Where the source updates things in place, the model does too: `Overlay.EdgeSet`, `Overlay.ClientPeers`,
`Overlay.Overlayer` and `Serving.Store` are classes, the overlay and API discovery write into an array of
applications, documents are sorted in place, and the served slice is an array that is copied before the first write.
Each loop is proved against a specification function, and the theorems are about that function. Goroutines and map
iteration are nondeterministic choices, so a method's contract holds for every schedule. The workers are steps of a
transition system.

The outside world is a parameter: scan results, query answers, DNS replies (which may change from one query to the
next), HTTP replies and the GitOps attribution are inputs of the operations that use them.

## Where the code does not do what its description suggests

- An absent label equals the empty value in selector matching. `Collecting.SelectorAgreement` proves that matching
  agrees with Kubernetes on all label sets exactly for the selectors without an empty value.
- An application's own name can be taken over by a later application's service name. `Resolving.OwnNameTakenOver`
  is an instance; `Resolving.OwnNameResolves` is the exact condition.
- The engine reconciliation starts its maximum at zero, so it would drop every engine of a conflict whose counts are
  all negative. `Engines.SomeEngineKept` is the exact condition; counts are never negative (`Engines.NonNegativeKeepsOne`).
- A host that already carries brackets does not survive joining and splitting (`Resolving.HostPortRoundTrip` is an
  if-and-only-if).
- Two edges between unresolved identifiers that contain delimiters can share a key, and the second is dropped:
  `EdgeKeys.EdgeKeyAmbiguous` is a pair of service-graph samples that lose an edge for any catalog, `EdgeKeys.SharedKey`
  the family it belongs to. `EdgeKeys.EdgeKeyExact` is the exact condition: a key stands for one edge if and only if
  an end is resolved or the two identifiers, joined, contain the joint of the key once.
- The short and fully qualified addresses of a workload whose name contains a dot are read by their first two labels, so
  they can miss the workload (`Resolving.DottedNameLost`). `Resolving.AddressFormsAgree` is an if-and-only-if on the name.
- A document path that is not rooted yields an external path outside its mount (`Mounts.ExternalPathUnderMount` is an
  if-and-only-if).
- The verdict store is loaded once per host, so one response can mix two probe cycles: in
  `MixedResponse.ResponseMixesSnapshots` it does, on a catalog collected from a scan. A response shows one snapshot if
  and only if no probe cycle ends between its first lookup and its last (`ResponseTraces.OneSnapshotExactly`).

## Model

| member | source | states |
|---|---|---|
| Text.LexTotal | internal/reachability/prober.go:194-197 | Go's string order, which the sorts rely on, is total |
| Text.LexExact | internal/reachability/prober.go:194-197 | a string comes before another if and only if it ends, or has the smaller character, at their first difference |
| Orders.ApplicationsInOrder | internal/collector/collector.go:260-265 | the sorted applications stand in the order of their namespaces, then of their names |
| Orders.DocumentsInOrder | internal/swagger/prober.go:318-328 | the sorted documents stand in the order of their ports, then of their paths |
| Orders.TargetsInOrder | internal/reachability/prober.go:196 | the sorted targets stand in the order of their store keys |
| Orders.VerdictsInOrder | internal/reachability/store.go:55-60 | the listed verdicts stand in the order of their hosts, then of their URLs |
| Scanning.ScopeExact | internal/kubernetes/client.go:299-312 | a namespace is scanned if and only if it is asked for by name, or, when none is, not excluded |
| Scanning.ScanAll | internal/kubernetes/client.go:261-293 | for every order in which the scans take the lock, the result is their merge in that order; it fails exactly when some scan fails |
| Scanning.ListResources | internal/kubernetes/client.go:237-293 | namespaces are filtered by scope; no snapshot at all if the listing or any one scan fails, else the merge of all scans |
| Scanning.ScheduleIndependent | internal/kubernetes/client.go:269-286 | two schedules give the same resources per namespace, in the same order |
| Ingresses.IngressInfoFrom | internal/kubernetes/client.go:550-574 | per backend service, the distinct hosts and (host, path) pairs in rule and path order; rules without host or paths and non-service backends are skipped |
| Ingresses.RulesTabulated | internal/kubernetes/client.go:550-574 | a service has exactly the hosts, and the (host, path) pairs, that a rule with a host sends to it |
| Ingresses.IngressCoherent | internal/kubernetes/client.go:550-585 | both maps of an Ingress have the same services, and a service's hosts are exactly the named hosts of its pairs |
| Traefik.ExtractBacktickArgs | internal/kubernetes/ingressroute.go:131-141 | the trimmed, non-empty, distinct backtick literals of the matching calls, in order |
| Traefik.ParseMatchHosts | internal/kubernetes/ingressroute.go:119-126 | hosts are the literals of the calls named host or hostsni |
| Traefik.ParseMatchPaths | internal/kubernetes/ingressroute.go:120-129 | paths are the literals of the calls named pathprefix or path |
| Traefik.HostsAndPaths | internal/kubernetes/ingressroute.go:114-141 | of a printed expression, the hosts are the trimmed, non-blank, distinct arguments of its Host and HostSNI calls, the paths those of its PathPrefix and Path calls, in any letter case |
| Traefik.MatchRoundTrip | internal/kubernetes/ingressroute.go:114-141 | parsing a printed expression of arbitrary calls in any letter case, joined by any operators and grouping, gives the trimmed, non-blank, distinct arguments of exactly the wanted calls; other matchers contribute nothing |
| Traefik.TrimmedRoundTrip | internal/kubernetes/ingressroute.go:114-141 | for trimmed, non-empty arguments: exactly the distinct arguments |
| Traefik.ListIngressRoutes | internal/kubernetes/ingressroute.go:42-69 | in-scope objects of the groups that could be listed, each namespace/name once |
| Traefik.ListedExact | internal/kubernetes/ingressroute.go:46-66 | an object is listed exactly when it is the first in scope with its namespace and name; no key is listed twice |
| Collecting.SelectorAgreement | internal/collector/collector.go:391-401 | selector matching is Kubernetes' on all label sets if and only if no selector value is empty |
| Collecting.IndexIngress | internal/collector/collector.go:132-153 | indexing one Ingress appends its hosts and routes to its services' entries only, without duplicates, in whatever order its maps are walked |
| Collecting.IndexRule | internal/collector/collector.go:155-180 | one rule appends its hosts and its route to each service it names |
| Assembling.BuildIndex | internal/collector/collector.go:128-180 | hosts and routes of every service key: first occurrences over Ingresses, then IngressRoutes |
| Assembling.MatchServices | internal/collector/collector.go:196-224 | exactly the services of the namespace whose selector reads back in the pod labels, or in the workload's selector when there are none, are attached and flagged, in scan order |
| Assembling.MatchWorkloads | internal/collector/collector.go:182-237 | every workload's entry carries its matching services; a service is flagged exactly when some workload matches it |
| Assembling.EmitOrphans | internal/collector/collector.go:239-258 | for every map order, one entry per unflagged service |
| Assembling.BuildApplications | internal/collector/collector.go:123-267 | the result is a sorted rearrangement of one entry per workload and one per unclaimed service |
| AssemblyTheorems.ScanOrderIrrelevant | internal/collector/collector.go:121-267 | every schedule of the scans gives the same multiset of entries, down to the order of services, hosts and routes inside them, and the same policy edges |
| AssemblyTheorems.AttachedExactly | internal/collector/collector.go:196-237 | in the assembled list there is an application for every workload, and each such application carries a service of its namespace exactly once if the service's selector reads back in the pod labels, or in the workload's selector when there are none, and never otherwise |
| AssemblyTheorems.OrphanExactlyOnce | internal/collector/collector.go:239-258 | a service is an entry of its own exactly once when it selects no workload, and never otherwise |
| AssemblyTheorems.EntryCount | internal/collector/collector.go:182-258 | a catalog holds as many entries as there are workloads and services that select none of them |
| Selection.CatalogShows | internal/collector/collector.go:182-258 | every application shows, field by field, a workload with the services that select it in scan order, or a service that selects none; and each of these has an application |
| Selection.ServiceShown | internal/collector/collector.go:128-180 | a service shows its own fields, exactly the hosts that an Ingress or IngressRoute of its namespace routes to it, and, one for each key, the routes these give it |
| Selection.RouteKeyExact | internal/collector/collector.go:322-335 | for parts free of its delimiters, routes share a key if and only if they agree in name, hosts and path prefixes |
| AssemblyTheorems.HostsMatchRoutes | internal/collector/collector.go:132-180 | a service's external hosts are exactly the hosts of its routes, even though routes are deduplicated by a joined key |
| NetworkPolicies.BuildNetworkPolicyEdges | internal/collector/collector.go:340-378 | one edge per selected workload and egress target, first occurrence of each key |
| NetworkPolicies.PolicyEdgesIndependent | internal/collector/collector.go:340-378 | scans that differ in their schedule declare the same edges |
| NetworkPolicies.PolicyEdgesExact | internal/collector/collector.go:340-388 | every edge leads from a workload to an egress target of a policy of its namespace whose pod selector is empty or reads back in the pod labels; every such pair has an edge, one for each key |
| NetworkPolicies.PolicyKeyExact | internal/collector/collector.go:340-378 | the key of a declared edge stands for its namespace, workload and target |
| Resolving.NewResolver | internal/telemetry/model.go:102-112 | every key resolves to the last application that claims it, and to nothing when none does |
| Resolving.OwnNameResolves | internal/telemetry/model.go:102-145 | an application's own name resolves to itself if and only if the last claim on it is its own |
| Resolving.OwnNameTakenOver | internal/telemetry/model.go:104-110 | an instance in which it does not |
| Resolving.HostPortRoundTrip | internal/telemetry/model.go:224-281 | splitting undoes joining for every numeric port if and only if the host does not start with a bracket, with IPv6 hosts in the bracket form of section 3.2.2 of RFC 3986 |
| Resolving.BareHostKept | internal/telemetry/model.go:224-262 | an address without a leading bracket is all host if and only if it is not a colon-free host with a numeric port |
| Resolving.BracketsOff | internal/telemetry/model.go:224-262 | brackets without a port come off |
| Resolving.InClusterNodeSound | internal/telemetry/model.go:292-310 | an in-cluster node names an application of the catalog in that namespace |
| Resolving.EndpointSound | internal/telemetry/model.go:134-145 | an endpoint resolves to an application of the catalog or to an external node |
| Resolving.ClientSound | internal/telemetry/model.go:158-170 | so does the client of a metric |
| Resolving.AddressFormsAgree | internal/telemetry/model.go:134-145 | for every registered name the namespace label leads to its node; each of the short and fully qualified addresses, with or without port, does so if and only if the first two labels of the name lead to the same application, as they do for dot-free names |
| Resolving.DottedNameLost | internal/telemetry/model.go:352-361 | an instance in which a dotted workload name is not found under its short address |
| Identities.ClientNamed | internal/telemetry/model.go:158-170 | the client of a metric is the application under its namespace label and the first of five labels that names a workload |
| Identities.OutsideResolves | internal/telemetry/model.go:292-349 | an address outside the cluster is a database or a queue if and only if its port or its name is one of the listed ones |
| Identities.PortResolves | internal/telemetry/model.go:313-324 | an address that is only a port is taken for the listed system behind it |
| Identities.CaseChanged | internal/telemetry/model.go:311-349 | changing the case keeps the letters and leaves none of the other case |
| Engines.EngineTotals | internal/telemetry/servicegraph.go:396-410 | the per-peer, per-engine sums of the samples |
| Engines.KeepDominant | internal/telemetry/servicegraph.go:415-428 | the engines that neither another engine nor zero exceeds, for every map order |
| Engines.EngineWinners | internal/telemetry/servicegraph.go:396-431 | winners exist exactly for the peers with several engines, and are exactly the dominant ones |
| Engines.WinnersPermutation | internal/telemetry/servicegraph.go:396-431 | the winners do not depend on the order of the samples |
| Engines.SomeEngineKept | internal/telemetry/servicegraph.go:415-428 | a conflict leaves an engine if and only if some engine's count is not negative |
| Engines.NonNegativeKeepsOne | internal/telemetry/servicegraph.go:411-428 | with non-negative counts no conflict removes the last engine |
| Engines.ReconciliationFixpoint | internal/telemetry/servicegraph.go:293-308 | reconciling the survivors again rejects none of them |
| Overlay.EdgeSet.Add | internal/telemetry/servicegraph.go:779-788 | the edge is appended unless its key is present; earlier edges stay |
| Overlay.ClientPeers.Add | internal/telemetry/servicegraph.go:744-754 | a non-empty host is added to the workload's set, no other set changes |
| Overlay.ClientPeers.Has | internal/telemetry/servicegraph.go:757-765 | membership, false for the empty host |
| Overlay.IndexApps | internal/telemetry/servicegraph.go:695-701 | every namespace/name key leads to an application with that key |
| Overlay.AttachDatabase | internal/telemetry/servicegraph.go:707-719 | in place: the database is appended to that application unless system and name are present |
| Overlay.AttachKafka | internal/telemetry/servicegraph.go:721-731 | the same for topics, by name and direction |
| Overlay.SumTraffic | internal/telemetry/servicegraph.go:552-576 | per application, the sums of its requests and of its server errors |
| Overlay.Overlayer.ReverseLookup | internal/telemetry/servicegraph.go:626-656 | the first answer for an address is kept for good |
| Overlay.Overlayer.ForwardLookup | internal/telemetry/servicegraph.go:662-691 | the first answer for a host is kept for good |
| Overlay.Overlayer.ExternalHost | internal/telemetry/servicegraph.go:610-621 | names stay, addresses are replaced by their pinned name, nameless addresses are dropped |
| Overlay.Overlayer.ApplyServiceGraph | internal/telemetry/servicegraph.go:133-179 | the phase folds its samples into edges, databases and topics; a failed query changes nothing |
| Overlay.Overlayer.ApplyHTTPClient | internal/telemetry/servicegraph.go:188-266 | the phase folds its samples into edges and attachments, and records every workload's HTTP peers with the addresses behind them |
| Overlay.Overlayer.ApplyDatabaseMetrics | internal/telemetry/servicegraph.go:277-374 | the phase folds its surviving samples; those that lost an engine conflict or match an HTTP peer add nothing |
| Overlay.Overlayer.ApplyMessagingMetrics | internal/telemetry/servicegraph.go:449-479 | the phase folds its samples into topics and edges |
| Overlay.Overlayer.ApplyRuntimeMetrics | internal/telemetry/servicegraph.go:508-531 | a runtime is set where none is known |
| Overlay.Overlayer.ApplyTrafficMetrics | internal/telemetry/servicegraph.go:548-586 | request and error rates are set from the samples attributed to each application |
| Overlay.Overlayer.Apply | internal/telemetry/servicegraph.go:84-98 | the final edges, applications and caches are those of the six phases in order |
| ObservedRuns.RunObserved | internal/telemetry/servicegraph.go:84-479 | over whole runs, the edges and every application's databases and topics are exactly those that the samples report, in order, one per key |
| ObservedRuns.RunRecords | internal/telemetry/servicegraph.go:84-479 | a collected application ends with one database for each system and name, and one topic for each name and direction, that a sample about it reports, and nothing else |
| Observations.GraphObserved | internal/telemetry/servicegraph.go:139-179 | a call between two named ends is an edge, and the caller uses the called database or topic |
| Observations.HttpObserved | internal/telemetry/servicegraph.go:198-265 | a call to a peer that can be shown and lies outside the cluster is an edge to it, classified by its port or name |
| Observations.DatabasesObserved | internal/telemetry/servicegraph.go:292-373 | a sample that lost no engine conflict, names no collector and no HTTP peer of its workload leaves a database, under its engine label or port and its name or host, and an edge to it; nothing else is recorded |
| Observations.MessagingObserved | internal/telemetry/servicegraph.go:461-478 | a named destination is a consumed topic and an edge to it |
| Observations.OutdoneExact | internal/telemetry/servicegraph.go:380-431 | a sample loses its engine conflict if and only if another engine is reported for its peer and its own engine's sum is below some engine's or negative |
| Observations.CollectorExact | internal/telemetry/model.go:78-89 | a collector is one of four names in any letter case, bare or followed by a domain |
| ObservedRuns.PeersObserved | internal/telemetry/servicegraph.go:198-234 | the HTTP peers of a workload are the names its samples are shown under and the addresses behind them |
| ObservedRuns.CachesObserved | internal/telemetry/servicegraph.go:626-691 | what DNS answered stays, and every new entry is the answer of a query of this run |
| ObservedRuns.FirstNameExact | internal/telemetry/servicegraph.go:644-651 | a reverse lookup gives the first name that is not blank, without its closing dot |
| ObservedRuns.UsableExact | internal/telemetry/servicegraph.go:680-686 | a forward lookup gives the IP addresses of its answer |
| ObservedRuns.RuntimesObserved | internal/telemetry/servicegraph.go:519-530 | a known runtime stays, an unknown one becomes the first language detected |
| ObservedRuns.RatesObserved | internal/telemetry/servicegraph.go:552-585 | over whole runs, an application's rates are the sum of what is reported for it and the share of status codes that begin with 5 |
| OverlayIntegrity.OverlayKeeps | internal/telemetry/servicegraph.go:84-98 | with any queries failing: edges stay distinct, every internal endpoint is an application of the catalog, applications only gain distinct observations and keep everything else |
| OverlayIntegrity.InternalNodeFound | internal/telemetry/servicegraph.go:695-701 | the application lookup of an internal node never misses and finds the application of that name |
| OverlayIntegrity.PhantomRejected | internal/telemetry/servicegraph.go:330-352 | a peer that a workload calls over HTTP adds no edge and no database in the database phase, in any sample order and however DNS answers change |
| OverlayIsolation.ConflictIsLocal | internal/telemetry/servicegraph.go:380-431 | the engine conflict at a workload's peer is settled by that workload's samples alone |
| OverlayIsolation.NonInterference | internal/telemetry/servicegraph.go:84-98 | two runs of all six phases whose answers agree, in order, on a workload's own samples give it the same edges, peers and application entry, whatever the others say |
| OverlayAccounting.TrafficConserved | internal/telemetry/servicegraph.go:548-586 | after a run of all phases over applications without rates, the request rates add up to the traffic samples attributed to indexed applications |
| OverlayAccounting.ErrorRateIsShare | internal/telemetry/servicegraph.go:570-585 | after such a run an error rate is the server-error share of the application's own traffic, between 0 and 1 |
| EdgeKeys.EdgeKeyExact | internal/telemetry/servicegraph.go:779-795 | an edge key stands for one edge, details aside, if and only if an end is resolved or the joint of the key occurs once in the two joined identifiers |
| EdgeKeys.SharedKey | internal/telemetry/servicegraph.go:133-179 | two calls between unresolved identifiers that read the same when joined stand for different edges, of which only the first is kept |
| EdgeKeys.EdgeKeyAmbiguous | internal/telemetry/servicegraph.go:779-795 | an instance: two service-graph samples of which, for every catalog, the second loses its edge |
| Mounts.ExternalPathUnderMount | internal/swagger/prober.go:306-315 | the external path lies under the mount if and only if the document path is rooted |
| Mounts.ExternalURLForPath | internal/swagger/prober.go:279-300 | the URL of the choice that a left-to-right pass over all mounts makes |
| Mounts.ExternalURLExact | internal/swagger/prober.go:273-300 | there is a URL if and only if some route has a host; it is that of the earliest mount whose external path has the fewest bytes, and lies under it |
| Swagger.BuildJobs | internal/swagger/prober.go:135-161 | the job list, application by application, service by service, port by port, path by path |
| Swagger.WithPath | internal/swagger/prober.go:167-176 | the declared path is appended unless it is a default |
| Swagger.JobsExact | internal/swagger/prober.go:135-176 | the list holds exactly the probes that services, ports, paths and opt-outs call for, and no (port, path) of a service twice |
| Discoveries.ProbesExact | internal/swagger/prober.go:135-176 | a probe is made if and only if its application did not opt out, its host and port are a service's, and its path is well known or the declared one |
| Swagger.SortDocs | internal/swagger/prober.go:318-328 | the in-place insertion sort leaves a rearrangement sorted by port, then path |
| Swagger.AnnotateExternalAvailability | internal/swagger/prober.go:264-271 | every document gets its external URL if there is one, nothing else changes |
| Swagger.RunProbes | internal/swagger/prober.go:95-117 | for every completion order, the documents collected for a service are those of its hits, up to order; services without hits have no entry |
| Swagger.Probe | internal/swagger/prober.go:84-131 | for every completion and map order, services with hits get their documents sorted and annotated, all others stay; both counts are exact |
| SwaggerTheorems.DocsExact | internal/swagger/prober.go:84-131 | a service's documents are strictly sorted by port and path and are exactly those of its hitting probes |
| Discoveries.DocumentsShown | internal/swagger/prober.go:84-131 | the documents of a service are those that its answered probes find, one for each port and path, with their URLs |
| Discoveries.ExternalURLShown | internal/swagger/prober.go:279-315 | the external URL is that of a request, on a route's first host, that reaches the document with the fewest bytes |
| SwaggerTheorems.SwaggerDeterministic | internal/swagger/prober.go:84-131 | two runs in which every probe fares the same end with the same catalog |
| SwaggerTheorems.HitsAreDocuments | internal/swagger/prober.go:119-128 | the reported hit count is the number of documents over all services |
| Expecting.Matches | internal/reachability/expect.go:17-24 | a code matches exactly when some range holds it |
| Expecting.ParseExpect | internal/reachability/expect.go:38-59 | the ranges of the terms, or the default when blank, malformed or empty |
| Expecting.AcceptedCodes | internal/reachability/expect.go:38-96 | every accepted code is between 100 and 599, whatever the annotation says |
| Expecting.ClassShorthand | internal/reachability/expect.go:73-79 | a digit and two letters are clean if and only if the digit is from 1 to 5 and the letters are in one case, and then accept exactly the codes of that hundred |
| Expecting.SpanInOrder | internal/reachability/expect.go:64-71 | a span is clean if and only if it is not reversed |
| Expecting.CodeInBounds | internal/reachability/expect.go:80-96 | three digits are clean if and only if they are a status code |
| Expecting.CleanExactly | internal/reachability/expect.go:38-59 | parsing is unclean if and only if a term is malformed or all are blank; the matcher is then exactly {200} |
| Expecting.UnionOfExpectations | internal/reachability/expect.go:38-59 | joining two clean annotations by a comma matches exactly the union |
| Expecting.ExpectationRoundTrip | internal/reachability/expect.go:38-96 | printing any list of codes, spans and classes, with blanks and blank terms wherever they may stand, and parsing it gives a clean matcher that accepts exactly the codes some term stands for |
| Probing.ComputeShortestPrefix | internal/reachability/prober.go:229-240 | the normal form of the first prefix with the fewest bytes |
| Probing.WinningRoutesByHost | internal/reachability/prober.go:210-225 | every named host maps to its winning route, no other host is present |
| Probing.WinnerExact | internal/reachability/prober.go:210-246 | the winner is exactly the earliest route whose normalised path has the fewest bytes; there is one if and only if some route carries the host |
| Probing.BuildTargets | internal/reachability/prober.go:156-198 | for every map order, one target per winning route that is not opted out, sorted by key |
| Probing.ProbeOne | internal/reachability/prober.go:252-291 | reachable if and only if the first of two attempts that is answered has a code inside the expected ranges, unreachable if and only if it has one outside, unknown if and only if neither is answered; with the code and the reason |
| Probing.ItoaExact | internal/reachability/prober.go:288 | the reason shows the code in decimal digits |
| Probing.DecimalRoundTrip | internal/reachability/expect.go:91-96 | a number written in decimal reads back if and only if it fits 64 bits |
| Outcomes.TargetProbes | internal/reachability/prober.go:163-190 | what is requested of a host follows from the winning route: its path or the annotated one, the annotated method or GET, the annotated expectation |
| Outcomes.ShownOutcomes | internal/reachability/prober.go:117-291 | verdicts shown for a service are, in the order of its hosts, the outcomes of requesting those whose winning route does not opt out |
| Probing.Probe | internal/reachability/prober.go:117-151 | for every completion order, the verdict of a target under each target's key and nothing else |
| Serving.Store.All | internal/reachability/store.go:46-62 | every verdict once, sorted by host and URL, for every map order |
| Serving.OverlayApp | internal/api/handlers/catalog.go:31-59 | while the store is replaced between lookups at will: every service gets the verdicts that its hosts' lookups found, in order; no existing application or slice changes; the slice is copied if and only if there is a verdict |
| Serving.OverlayApps | internal/api/handlers/catalog.go:62-92 | the same for a whole catalog, whose own slices keep their contents; the verdicts are those the store held at each lookup |
| Serving.SameKeySameTarget | internal/reachability/prober.go:156-198 | in a consistent catalog, targets with the same store key are equal |
| Serving.ProbeDeterministic | internal/reachability/prober.go:117-151 | all completion orders of a cycle give the same result map |
| Serving.StoredVerdict | internal/api/handlers/catalog.go:37-42 | looking up any host of a service finds the verdict of that host's own probe, and nothing if it was not probed |
| Pipeline.CollectedConsistent | internal/collector/collector.go:297-320 | in a collected catalog, workloads that share a service share its routes |
| Pipeline.PublishedIsCollected | internal/collector/collector.go:57-117 | API discovery and the telemetry overlay leave the assembled part of every application alone |
| Pipeline.CollectedUnrated | internal/collector/collector.go:186-258 | the applications handed to the telemetry overlay carry no rates |
| Pipeline.HostsConsidered | internal/reachability/prober.go:210-225 | the prober considers exactly the hosts that the catalog shows |
| Pipeline.ProbeToServe | internal/api/handlers/catalog.go:31-59 | after a cycle over a collected catalog, a service shows, in the order of its external hosts, exactly the verdicts of the hosts that did not opt out |
| Pipeline.CycleDeterministic | internal/reachability/prober.go:117-198 | two cycles over one collected catalog and one network agree |
| Pipeline.ExternalURLIffHost | internal/swagger/prober.go:264-300 | in a collected catalog a document has an external URL if and only if its service has an external host |
| WorkerTheorems.RunSafe | cmd/main.go:132-208 | over every interleaving: the store holds the initial snapshot or the outcome of probing one published catalog, the probed catalogs never get older, every response stems from one catalog |
| WorkerTheorems.LastCatalogKept | cmd/main.go:132-162 | the catalog served is that of the last successful collection, whatever failed or was probed since |
| WorkerTheorems.StaysReady | internal/api/handlers/health.go:27-33 | ready if and only if some collection succeeded, hence for good |
| WorkerTheorems.StoreNeverOlder | cmd/main.go:191-208 | as a run goes on the catalog behind the store never gets older and is always a published one |
| ResponseTraces.ResponseCoherent | internal/api/handlers/catalog.go:70-92 | metadata and data of a response come from the catalog of the last collection that had succeeded when the request arrived; its lookups read stored snapshots and never go back to an older one |
| ResponseTraces.OneSnapshotExactly | internal/api/handlers/catalog.go:37-42 | in every run, a response shows one snapshot if and only if no probe cycle ended between its first lookup and its last |
| WorkerTheorems.ResponseOverlays | internal/api/handlers/catalog.go:31-92 | in every run, the data of a response is what the overlay makes of the loaded catalog while the store is replaced, between lookups, by the snapshots those lookups read |
| WorkerTheorems.QuietResponse | internal/api/handlers/catalog.go:31-92 | what a request that arrives and is answered while no cycle ends serves is computed from one snapshot |
| WorkerTheorems.EndToEnd | cmd/main.go:132-208 | over every interleaving, a response whose lookups all saw one snapshot, taken by probing the catalog it loaded, shows for every service, in the order of its hosts, exactly the outcomes of requesting those whose winning route does not opt out |
| MixedResponse.ResponseMixesSnapshots | internal/api/handlers/catalog.go:37-42 | a run on a catalog collected from a scan whose response equals no response from a single snapshot the store ever held |

## Left out

- Floating-point rounding: rates and counts are exact reals, so sums do not depend on the order of addition.
- Text encoding: strings are sequences of Unicode code points with ASCII case mapping; the two non-ASCII letters that fold to ASCII letters are modelled in match expressions only. Lengths that decide a winner are counted in UTF-8 bytes; invalid UTF-8 is not modelled.
- `net.ParseIP`: an abstract predicate; the syntax of IP addresses is not part of this model.
- The regular-expression engine: its leftmost-first search for the three patterns used is written out as functions; other patterns are not part of this model.
- HTTP, DNS, Kubernetes and Mimir clients, JSON decoding, and the checks that a response body is an API document: their outcomes are inputs.
- Redirects, timeouts, cancellation and the wording of an error inside one HTTP probe: one request has one reply or one worded error.
- Cancelling the remaining scans after one failed: the outcome, no snapshot, is the same.
- The GitOps resolver: a function of namespace, labels and annotations that the assembly takes as a parameter.
- Containers, pods, image tags, owner metadata and other fields copied one by one into the catalog.
- Catalog statistics and the namespace list: sums and copies over the entries.
- Filters of the list handlers: conjunctions of field comparisons after the overlay.
- Reading an IngressRoute object field by field: the model starts from its match expressions and service names.
- Metrics, logging, timers, jitter, retry backoff and timestamps other than a catalog's own.
- The endless worker loops: their bodies are the steps of a transition system, their waits are not modelled.
- Configuration, authentication, routing of HTTP requests, and deployment files.
- Resolving.AddressFormsAgree: covers no names with colons, blanks or a leading bracket and no dotted namespaces; Kubernetes admits none of them.
- OverlayIsolation.NonInterference: assumes that a DNS query has one answer, because with changing answers another workload's earlier query may pin a different one.
- Swagger.RunProbes: documents are collected in one map by application and service index instead of two nested maps.
