# styx resource matching, in Dafny

This project models the core of styx, a Kubernetes operator. styx finds the
Crossplane-managed GCP resources that belong to a namespace or a workload and
labels them. The model covers:

- **Address helpers.** The dotted-quad test `looksLikeIP` and the
  connection-string harvester `extractIPsFromConnectionString` (`ipaddr.dfy`).
- **Address extraction.** The kind-specific extractor `extractIPAddresses`
  (`extract.dfy`).
- **Confidence scorer.** `evaluateResourceMatchForNamespace`, which combines
  fired signal weights as the sum of w³ over the sum of w² (`scoring.dfy`).
- **Sort.** The in-place descending sort `sortMatchesByConfidence`, on an
  `array` (`sorting.dfy`).
- **Yes/no tests.** `isResourceForWorkload` and `isResourceForNamespace`
  (`predicates.dfy`).
- **Metadata scans.** These keep the first accepted resource per `kind/name`
  key (`resolver.dfy`).
- **Network index and pod-IP pass.** The IP→resource index `BuildNetworkMap`
  builds, and the pass that adds 0.9-confidence network matches
  (`network.dfy`).
- **Handler.** The `CrossplaneHandler` class, with the mock switch, the index
  and its build time (`handler.dfy`).
- **Label merge.** The merge and write-back of `ApplyLabelsToResource`
  (`labels.dfy`).
- **CrossplaneLabeller reconciler.** The condition upsert, the error summary,
  the requeue interval and the pod IPs (`labeller.dfy`).
- **GCPResource reconciler.** The workload-name fallback and its derived
  labels (`gcpcontroller.dfy`).

Supporting modules:

- `wrappers.dfy` defines `Option`.
- `strings.dfy` holds the Go `strings` functions the code uses: `Contains`,
  ASCII `ToLower`, `Split`, `Count`, `TrimSpace` and `Join`.
- `resources.dfy` holds the data:
  - `Doc`, the tagged union for decoded JSON.
  - `Resource`, `ResourceIdentifier` and `Match`.
  - The `Store` that stands in for the dynamic client: a list can fail per
    collection, a get can fail per object, and an update can fail per object.

Go map iteration has no fixed order. Every loop over a Go map is therefore a
loop that picks an arbitrary remaining key (`var k :| k in pending`). The
contracts of those loops speak of sets and multisets. Examples:

- The scorer's reasons are a multiset.
- The SQL branch of the extractor is the set of its addresses.

Float64 weights are exact `real`s. Time is an integer count of nanoseconds,
passed in by the caller.

## Model

| member | source | states |
|---|---|---|
| IPAddr.LooksLikeIP | pkg/crossplane/crossplane.go:637-662 | the dotted-quad test itself: exactly three dots, four parts on splitting, each part 1 to 3 characters long and all digits; the lemmas below state what it accepts |
| IPAddr.LooksLikeIPSound | pkg/crossplane/crossplane.go:637-662 | an accepted string splits on `.` into exactly four parts, each of 1 to 3 ASCII digits, and is those parts joined by dots |
| IPAddr.LooksLikeIPComplete | pkg/crossplane/crossplane.go:637-662 | conversely, any four 1-to-3-digit parts joined by dots are accepted |
| IPAddr.LooksLikeIPChars | pkg/crossplane/crossplane.go:650-659 | an accepted string has only digits and dots, is at least 7 long, and begins and ends with a digit |
| IPAddr.AcceptsOutOfRangeOctets | pkg/crossplane/crossplane.go:649-659 | there is no 0-255 range check: "999.999.999.999" is accepted |
| IPAddr.RejectsMalformed | pkg/crossplane/crossplane.go:639-653 | three parts, or a four-digit part, are rejected |
| IPAddr.ExtractIPsFromConnectionString | pkg/crossplane/crossplane.go:665-682 | the loop over the delimiters `:` `/` `@` `,` yields exactly the trimmed pieces that look like addresses, delimiter by delimiter and then piece by piece; each result looks like an address |
| IPAddr.PieceIPsValid | pkg/crossplane/crossplane.go:672-678 | every kept piece looks like an address and is the trimmed form of one of the pieces |
| IPAddr.DelimiterIPsValid | pkg/crossplane/crossplane.go:670-679 | every harvested string looks like an address and is a trimmed piece of the input split on one of the delimiters |
| IPAddr.ConnStringIPsValid | pkg/crossplane/crossplane.go:665-682 | every result is a trimmed piece of the connection string, split on one of `:` `/` `@` `,`, that looks like an address |
| IPAddr.BareAddressHarvestedFourTimes | pkg/crossplane/crossplane.go:670-679 | a bare address without delimiters comes back four times, once per delimiter |
| IPAddr.DelimiterIPsOfBare | pkg/crossplane/crossplane.go:670-679 | an untrimmable address free of every delimiter is harvested once per delimiter |
| Extraction.FamilyOf | pkg/crossplane/crossplane.go:495-603 | the branch of the kind switch, tried in source order: compute `Instance`, SQL `DatabaseInstance`, Redis `Instance`, Spanner `Instance`, else the default branch, each matched by kind and by the API version containing the provider group |
| Extraction.ExtractIPAddresses | pkg/crossplane/crossplane.go:481-634 | the addresses, with the branch chosen by kind and API version; in every branch but SQL they come in the source's order, and for SQL the set of addresses is fixed |
| Extraction.CollectFieldValues | pkg/crossplane/crossplane.go:500-504 | the non-empty string values of the listed fields, in field order; address-like ones only when validation is asked |
| Extraction.CollectComputeIPs | pkg/crossplane/crossplane.go:497-530 | the compute-Instance branch: the three direct fields, then per network interface `networkIP`, `ipAddress` and every access config's `natIP` |
| Extraction.CollectInterfaceIPs | pkg/crossplane/crossplane.go:509-527 | one network interface's direct fields, then the `natIP` of each of its access configs that is an object |
| Extraction.CollectRedisIPs | pkg/crossplane/crossplane.go:585-596 | the Redis branch: a non-empty `host`, then the addresses in a non-empty `authString` |
| Extraction.NestedStrIPs | pkg/crossplane/crossplane.go:559-567 | the set of address-like string values of one nested object |
| Extraction.CheckIPFields | pkg/crossplane/crossplane.go:552-572 | the set of address-like strings at the first level of `forProvider`, plus those one level below in object values |
| Extraction.CollectConnField | pkg/crossplane/crossplane.go:576-580 | the addresses harvested from one connection field when it holds a non-empty string, else none |
| Extraction.CollectConnFields | pkg/crossplane/crossplane.go:575-581 | the connection-field harvest over the fields, in field order |
| Extraction.CollectSqlIPs | pkg/crossplane/crossplane.go:533-582 | the SQL branch: the `checkIPFields` set together with the harvest of the five connection fields |
| Extraction.CollectStatusIPs | pkg/crossplane/crossplane.go:604-630 | the default branch: validated `atProvider` fields, then per `addresses` entry its validated fields or the entry itself |
| Extraction.SpannerHasNoAddresses | pkg/crossplane/crossplane.go:599-601 | a Spanner Instance yields no address |
| Extraction.StatusAddressesLookLikeIP | pkg/crossplane/crossplane.go:606-628 | in the default branch every returned address passes `looksLikeIP` |
| Extraction.SqlAddressesLookLikeIP | pkg/crossplane/crossplane.go:552-581 | in the SQL branch every returned address passes `looksLikeIP` |
| Extraction.ComputeAndRedisAddressesNonEmpty | pkg/crossplane/crossplane.go:497-596 | the compute and Redis branches return only non-empty strings |
| Extraction.ComputeKeepsUnvalidatedString | pkg/crossplane/crossplane.go:500-504 | the compute branch does not validate: any non-empty `ipAddress` string is returned |
| Extraction.FieldValuesProperties | pkg/crossplane/crossplane.go:609-613 | a collected field value is non-empty, passes `looksLikeIP` when validated, and is the string under one of the listed fields |
| Extraction.ConnFieldIPsLookLikeIP | pkg/crossplane/crossplane.go:575-581 | everything harvested from the connection fields looks like an address |
| Scoring.EvaluateResourceMatch | pkg/crossplane/crossplane.go:241-336 | the reasons are the multiset of fired signals' reasons, one per fired weight, and the confidence is the weighted average of the fired weights |
| Scoring.LeadingSignals | pkg/crossplane/crossplane.go:245-269 | name hit 0.8, `kubernetes-namespace` and `namespace` labels 0.9, `environment` label 0.7, in this order, each with its reason |
| Scoring.ScanLabels | pkg/crossplane/crossplane.go:272-278 | one reason and one 0.6 weight per label (other than the three named ones) whose value contains the namespace, case-insensitively; reasons as a multiset |
| Scoring.SpecLabelSignals | pkg/crossplane/crossplane.go:286-299 | the three `forProvider.labels` signals (0.9, 0.9, 0.7) with their reasons |
| Scoring.ScanFields | pkg/crossplane/crossplane.go:302-307 | one reason and one 0.5 weight per string-valued `forProvider` field that contains the namespace; reasons as a multiset |
| Scoring.WeightedAverage | pkg/crossplane/crossplane.go:311-333 | zero for no scores, else the sum of w·w² over the sum of w², or the arithmetic mean if the squares sum to zero |
| Scoring.ScoreThreshold | pkg/crossplane/crossplane.go:311-335 | the confidence exceeds 0.3 exactly when a signal fired; then it lies in [0.5, 0.9], and with nothing fired it is 0 |
| Scoring.FiredWeightsWithin | pkg/crossplane/crossplane.go:245-306 | every fired weight is between 0.5 and 0.9 |
| Scoring.ConfidenceBounds | pkg/crossplane/crossplane.go:321-329 | the weighted average of non-empty weights in [lo, hi] with lo > 0 lies in [lo, hi] |
| Scoring.ConfidencePermutation | pkg/crossplane/crossplane.go:321-329 | the confidence depends only on the multiset of weights, so map order cannot change it |
| Scoring.TotalPermutation | pkg/crossplane/crossplane.go:321-326 | the accumulated totals are the same for any reordering of the scores |
| Scoring.TotalBounds | pkg/crossplane/crossplane.go:321-326 | for weights in [lo, hi], lo·Σw² ≤ Σw³ ≤ hi·Σw², and Σw² > 0 when there is a weight |
| Scoring.ConfidenceOfRepeat | pkg/crossplane/crossplane.go:321-329 | n copies of the same weight average to that weight |
| Scoring.ScoreLengths | pkg/crossplane/crossplane.go:242-306 | there are as many reasons as weights |
| Scoring.FiredReasonsNonEmpty | pkg/crossplane/crossplane.go:245-299 | a fixed-position signal always leaves a reason |
| Scoring.NameOnlyScore | pkg/crossplane/crossplane.go:245-249 | a resource whose only signal is its name scores 0.8 |
| Scoring.LabelReasonInjective | pkg/crossplane/crossplane.go:275 | distinct label keys give distinct reasons, so no reason is lost to the multiset |
| Scoring.FieldReasonInjective | pkg/crossplane/crossplane.go:304 | distinct field keys give distinct reasons |
| Sorting.SortMatchesByConfidence | pkg/crossplane/crossplane.go:229-238 | the array ends non-increasing by confidence, and it is a permutation of its input (stability is not claimed) |
| Sorting.PassFrom | pkg/crossplane/crossplane.go:232-236 | one pass of the inner loop puts a maximum of the suffix at `i`, leaves the prefix, and permutes |
| Sorting.SwapPermutes | pkg/crossplane/crossplane.go:234 | a swap permutes the slice |
| Sorting.SortedCopy | pkg/crossplane/crossplane.go:222 | sorting a copy gives a non-increasing permutation |
| Predicates.IsResourceForWorkload | pkg/crossplane/crossplane.go:772-804 | accepts when the `workload-name` or `app` label equals the workload, the lowercased name contains the lowercased workload, or `forProvider.labels` holds the same `workload-name` or `app` label; the lemmas below state its consequences |
| Predicates.IsResourceForNamespace | pkg/crossplane/crossplane.go:807-838 | accepts when the `kubernetes-namespace` or `namespace` label equals the namespace, the lowercased name contains the lowercased namespace, or `forProvider.labels` holds the same `kubernetes-namespace` or `namespace` label; the lemmas below relate it to the scorer |
| Predicates.NamespaceTestImpliesScore | pkg/crossplane/crossplane.go:807-838 | a resource `isResourceForNamespace` accepts scores at least 0.5, so the confidence scan keeps it unless its key was taken |
| Predicates.EnvironmentOnlyScoresButFailsTest | pkg/crossplane/crossplane.go:809-816 | the converse fails: an `environment` label alone scores 0.7 but the yes/no test rejects it |
| Predicates.EmptyNameAcceptsEverything | pkg/crossplane/crossplane.go:785-787 | an empty workload or namespace name is contained in every name, so both tests accept everything |
| Resolver.Kept | pkg/crossplane/crossplane.go:185-217 | the reference for the metadata pass: walk the listing in order, skip a resource whose `kind/name` key was already kept, keep it when the criterion accepts it; `KeptProperties` and `KeptFirst` state what it yields |
| Resolver.KeptProperties | pkg/crossplane/crossplane.go:193-217 | kept resources are listed and accepted, no two share a `kind/name` key, and every accepted resource's key is among the kept ones |
| Resolver.KeptFirst | pkg/crossplane/crossplane.go:194-210 | an accepted resource is kept when no earlier accepted resource has its key: a key is marked seen only when kept |
| Resolver.ConsiderForNamespace | pkg/crossplane/crossplane.go:194-217 | one visited item: skip a seen key, else score it and keep it and mark its key when the confidence exceeds 0.3 |
| Resolver.CollectForNamespace | pkg/crossplane/crossplane.go:182-219 | the metadata pass keeps exactly the first accepted resource per key, in visiting order, each with its own scorer result |
| Resolver.ScanForNamespace | pkg/crossplane/crossplane.go:179-225 | the result is sorted non-increasing, is a permutation of the kept resources, every match carries its scorer result, and keys are distinct |
| Resolver.ScanForWorkload | pkg/crossplane/crossplane.go:346-375 | the first resource per key that `isResourceForWorkload` accepts, in visiting order |
| Resolver.ResourcesOfMatches | pkg/crossplane/crossplane.go:157-160 | the resources of the matches, in order |
| Resolver.DistinctKeysPermutation | pkg/crossplane/crossplane.go:222 | reordering a list keeps its keys distinct, so sorting cannot create a duplicate |
| Network.IndexResources | pkg/crossplane/crossplane.go:445-472 | the built index maps exactly the addresses of the listed resources, each to the identifiers of the resources carrying it |
| Network.AddToIndex | pkg/crossplane/crossplane.go:455-470 | filing one resource extends the index of the resources before it to include it |
| Network.FileUnder | pkg/crossplane/crossplane.go:467-469 | the identifier is appended under each of the addresses |
| Network.IndexSound | pkg/crossplane/crossplane.go:445-475 | an identifier filed under an address belongs to a listed resource that carries that address, so resources without addresses are absent |
| Network.IndexComplete | pkg/crossplane/crossplane.go:445-475 | every address of every listed resource is indexed with that resource under it |
| Network.NetworkPass | pkg/crossplane/crossplane.go:717-760 | the reference for the pod-IP pass over the candidates in order: skip a seen key or a failed get, otherwise add a 0.9 match for the fetched resource and mark its key; the pass lemmas below state what it yields |
| Network.NetworkMatches | pkg/crossplane/crossplane.go:717-763 | the pod-IP pass: per pod IP found in the index, per filed identifier with an unseen key that can be fetched, one match, marking the key |
| Network.VisitFiled | pkg/crossplane/crossplane.go:724-762 | the inner loop over the identifiers filed under one pod IP |
| Network.NetworkPassSound | pkg/crossplane/crossplane.go:741-761 | each added match is the fetched resource of a candidate with an unseen key, with confidence exactly 0.9 and the single reason naming the pod IP |
| Network.NetworkPassComplete | pkg/crossplane/crossplane.go:718-762 | every candidate whose resource can be fetched ends with its key marked seen |
| Network.NetworkPassDistinct | pkg/crossplane/crossplane.go:708-762 | when fetching returns the named object, added matches have distinct keys, none already seen, and exactly their keys are marked |
| Network.CandidatesMember | pkg/crossplane/crossplane.go:718-724 | a candidate is visited iff its pod IP is given, is indexed, and files its identifier |
| Handler.MatchedKeys | pkg/crossplane/crossplane.go:708-715 | the seen set starts as the metadata matches' keys |
| Handler.CrossplaneHandler.BuildNetworkMap | pkg/crossplane/crossplane.go:438-478 | outside mock mode the index is replaced wholesale by the index over every listed resource and the time is stamped; mock mode changes nothing |
| Handler.CrossplaneHandler.FindForNamespaceWithConfidence | pkg/crossplane/crossplane.go:166-226 | mock mode yields nothing; otherwise a stale index (over 30 minutes, or never built) is rebuilt first, then the metadata scan runs |
| Handler.CrossplaneHandler.FindForNamespace | pkg/crossplane/crossplane.go:150-163 | nothing in mock mode; otherwise the resources of the confidence scan in its non-increasing confidence order, a permutation of the kept resources with distinct keys, and the index rebuilt when stale and the handler unchanged when not |
| Handler.CrossplaneHandler.FindForWorkload | pkg/crossplane/crossplane.go:339-376 | mock mode yields nothing; otherwise the workload scan |
| Handler.CrossplaneHandler.FindForNamespaceWithNetworking | pkg/crossplane/crossplane.go:685-769 | without pod IPs the metadata matches unchanged; otherwise an empty or stale index is rebuilt and the result is the metadata and network matches, re-sorted non-increasing |
| Handler.CombinedDistinct | pkg/crossplane/crossplane.go:708-766 | when fetching returns the named object, no `kind/name` key occurs twice across both phases |
| Handler.CombinedCoversConnected | pkg/crossplane/crossplane.go:717-762 | every fetchable resource indexed under a pod IP makes it into the combined result, from one phase or the other |
| Labels.MergeLabels | pkg/crossplane/crossplane.go:401-415 | the merged labels are the current ones overridden by the desired ones, and the change flag is set iff some desired label is missing or different |
| Labels.ApplyResult | pkg/crossplane/crossplane.go:379-435 | the reference outcome and store: skipped in mock mode, a failed re-read, no write when no desired label differs, a refused write, or the resource stored with the merged labels |
| Labels.ApplyLabelsToResource | pkg/crossplane/crossplane.go:379-435 | mock mode, failed re-read, no change (no write), refused write, or the merged labels written; the outcome and store follow the reference definition |
| Labels.MergeContents | pkg/crossplane/crossplane.go:410-415 | desired labels win on conflicts, other current labels are preserved, and nothing else is added |
| Labels.NeedsWriteIffChange | pkg/crossplane/crossplane.go:406-422 | a write is issued exactly when the merge changes the labels |
| Labels.ApplyTwiceIsNoOp | pkg/crossplane/crossplane.go:394-428 | applying the same labels again right after a write changes nothing and issues no write |
| Labels.ApplyFrame | pkg/crossplane/crossplane.go:394-430 | only the re-read object can change, and nothing changes unless the outcome is a write |
| Labels.ApplyFailsIff | pkg/crossplane/crossplane.go:394-430 | an error is returned exactly when not in mock mode and the re-read fails or a needed write is refused, and then the store is unchanged |
| Labels.LabelledResourceIsForWorkload | pkg/crossplane/crossplane.go:401-428 | after a successful application that carries `workload-name`, the stored resource passes `isResourceForWorkload` for that workload |
| Labeller.Upserted | controllers/crossplanelabeller_controller.go:346-358 | the reference upsert: the first condition of the same type is replaced only when its status, reason or message differs, otherwise the list stays; a new type is appended |
| Labeller.UpdateCondition | controllers/crossplanelabeller_controller.go:329-359 | the conditions become the upsert of the new condition stamped `now` into the old ones |
| Labeller.UpsertedAppends | controllers/crossplanelabeller_controller.go:345-358 | with no condition of the type, the new one is appended at the end and the others stay as they were |
| Labeller.UpsertedAtFirst | controllers/crossplanelabeller_controller.go:346-354 | only the first condition of the type counts; it is replaced at its index when status, reason or message differ, and the list is left entirely unchanged (timestamp included) otherwise |
| Labeller.UpsertedRecords | controllers/crossplanelabeller_controller.go:336-358 | afterwards a condition of the type carries the new status, reason and message, only that type is added, and conditions of other types are kept |
| Labeller.UpsertedKeepsTypesUnique | controllers/crossplanelabeller_controller.go:346-358 | if condition types were unique before, they are unique after |
| Labeller.UpsertedIdempotent | controllers/crossplanelabeller_controller.go:347-353 | recording the same condition again at any later time changes nothing |
| Labeller.ErrorSummary | controllers/crossplanelabeller_controller.go:204-209 | the message: `Errors: ` and the `%v` list when there are at most three errors, else the count, ` errors occurred, first 3: ` and the first three |
| Labeller.FormatListContains | controllers/crossplanelabeller_controller.go:206 | Go's `%v` rendering of a string list contains each element |
| Labeller.ErrorSummaryMentions | controllers/crossplanelabeller_controller.go:204-209 | the summary names every error when there are at most three; otherwise it starts with the error count and names the first three |
| Labeller.LabelingErrorsRaisedIffErrors | controllers/crossplanelabeller_controller.go:202-229 | the `LabelingErrors` condition is True iff errors were recorded, and then its message is non-empty |
| Labeller.RequeueSeconds | controllers/crossplanelabeller_controller.go:237-241 | the requeue interval is the configured one when positive, else 300 seconds; always positive |
| Labeller.PodIPList | controllers/crossplanelabeller_controller.go:150-156 | `status.podIPs` in order when non-empty, else `status.podIP` alone when non-empty, else nothing |
| GcpController.WorkloadName | controllers/gcp_resource_controller.go:39-44 | the pod's `workload-name` label when non-empty, else the pod name |
| GcpController.DerivedLabels | controllers/gcp_resource_controller.go:55-70 | the six-entry label map with every empty value deleted |
| GcpController.DerivedLabelsContents | controllers/gcp_resource_controller.go:56-70 | no value is empty, keys are among the six fixed ones, each non-empty copied pod label appears with its value, empty ones are absent, and `workload-name` is present iff the workload name is non-empty |
| GcpController.ReconciledResourceIsForWorkload | controllers/gcp_resource_controller.go:53-76 | after a successful application of the derived labels, the stored resource passes `isResourceForWorkload` for the workload name |

## Left out

- The dynamic client's `List`, `Get` and `Update` calls are a `Store` value passed in. A failed list is skipped, and a failed get or update becomes a distinct outcome. Error texts and logging are not modelled. The store keeps its listings apart from the objects that `Get` and `Update` reach, so a later `List` does not observe a successful `Update`. `Labels.ApplyFrame` proves the listings unchanged only for that reason.
- The `Update` of `ApplyLabelsToResource` is modelled on a store value. Other writers and concurrent reconciles are not modelled.
- `NewCrossplaneHandler` reads the environment and cluster configuration, so it is I/O. The handler's constructor takes the mock flag directly.
- `GetCrossplaneResourceTypes` is a constant data table. The handler takes the list of collections as `resourceTypes`.
- `time.Now` and `time.Since` are replaced by a `now` parameter in nanoseconds. A fresh handler's zero time is `None`, which always counts as stale.
- `GetAPIVersion` is derived from the resource's group and version. Parsing an `apiVersion` string is not modelled.
- `GetLabels` returning nil for a label map with a non-string value is not modelled. Labels are always a string map.
- `strings.ToLower` lowercases ASCII only. Unicode case folding is not modelled.
- float64 weights and sums are exact reals. Rounding is not modelled.
- The SQL branch's `privateNetwork` lookup only writes a log line, so it is not modelled.
- Extraction.ExtractIPAddresses: for SQL instances only the set of addresses is stated. The order and multiplicity of `checkIPFields` results depend on Go map iteration.
- Network.IndexResources: each address is stated to map to the set of identifiers filed under it. The order and repetition of entries in those lists are not stated.
- Handler.CombinedDistinct: holds only where fetching an identifier returns the object it names (`KeepsKeys`). The source does not check this, and nothing establishes it.
- Handler.CombinedCoversConnected: assumes the same `KeepsKeys` hypothesis as `Handler.CombinedDistinct`.
- Network.NetworkPassDistinct: assumes the same `KeepsKeys` hypothesis.
- Labeller.RequeueSeconds: returns seconds. The conversion to a `time.Duration` in int64 nanoseconds, which wraps for intervals beyond about 292 years, is not modelled.
- `updateCondition` is modelled on a `conditions` field of a labeller object. Its other status fields and the status `Update` are not modelled.
- The rest of both `Reconcile` loops is not modelled: fetching namespaces and pods with regular expressions, counting labelled resources, status updates, and controller wiring.
- The CRD types under `api/v1alpha1` are not modelled. They hold no decision logic.
