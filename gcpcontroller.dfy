/**
 * The GCP resource reconciler's per-pod computation: the workload name and
 * the labels it copies from the pod onto each Crossplane resource found for
 * that workload.
 */
module GcpController {
  import opened Resources
  import opened Predicates
  import opened Labels

  /** Go's index into a `map[string]string`: the empty string when the key is missing. */
  function Lookup(m: map<string, string>, k: string): string {
    if k in m then m[k] else ""
  }

  /** The pod's `workload-name` label, or the pod's name when that label is missing or empty. */
  function WorkloadName(podLabels: map<string, string>, podName: string): (w: string)
    ensures Lookup(podLabels, "workload-name") != "" ==> w == podLabels["workload-name"]
    ensures Lookup(podLabels, "workload-name") == "" ==> w == podName
  {
    var given := Lookup(podLabels, "workload-name");
    if given == "" then podName else given
  }

  const CopiedKeys: set<string> := {"department", "pl-category", "sw-part-number", "environment-name", "team"}

  /** The six labels before empty values are removed. */
  function AllLabels(workload: string, podLabels: map<string, string>): map<string, string> {
    map[
      "workload-name" := workload,
      "department" := Lookup(podLabels, "department"),
      "pl-category" := Lookup(podLabels, "pl-category"),
      "sw-part-number" := Lookup(podLabels, "sw-part-number"),
      "environment-name" := Lookup(podLabels, "environment-name"),
      "team" := Lookup(podLabels, "team")]
  }

  /** A map without its entries whose value is empty. */
  function NonEmpty(m: map<string, string>): map<string, string> {
    map k | k in m && m[k] != "" :: m[k]
  }

  /** The labels to apply: the six derived labels, with every empty one removed (in Go's map order). */
  method DerivedLabels(workload: string, podLabels: map<string, string>) returns (labels: map<string, string>)
    ensures labels == NonEmpty(AllLabels(workload, podLabels))
  {
    labels := AllLabels(workload, podLabels);
    ghost var full := labels;
    var pending := labels.Keys;
    while pending != {}
      invariant pending <= full.Keys
      invariant forall k :: k in labels <==> k in full && (k in pending || full[k] != "")
      invariant forall k :: k in labels ==> labels[k] == full[k]
      decreases pending
    {
      var k :| k in pending;
      if labels[k] == "" {
        labels := labels - {k};
      }
      pending := pending - {k};
    }
  }

  /**
   * The applied labels carry no empty value, name only the six keys, keep
   * every non-empty pod label among the five copied ones, and carry the
   * workload name whenever it is non-empty.
   */
  lemma {:induction false} DerivedLabelsContents(workload: string, podLabels: map<string, string>)
    ensures var d := NonEmpty(AllLabels(workload, podLabels));
      (forall k :: k in d ==> d[k] != "") &&
      d.Keys <= CopiedKeys + {"workload-name"} &&
      (forall k :: k in CopiedKeys && Lookup(podLabels, k) != "" ==> k in d && d[k] == podLabels[k]) &&
      (forall k :: k in CopiedKeys && Lookup(podLabels, k) == "" ==> k !in d) &&
      (workload != "" <==> "workload-name" in d) &&
      (workload != "" ==> d["workload-name"] == workload)
  {
    var full := AllLabels(workload, podLabels);
    assert full.Keys == CopiedKeys + {"workload-name"};
    forall k | k in CopiedKeys
      ensures full[k] == Lookup(podLabels, k)
    {
    }
  }

  /**
   * A pod whose derived workload name is non-empty: once its labels are
   * applied (written or already present), the workload test accepts the
   * stored resource for that workload.
   */
  lemma {:induction false} ReconciledResourceIsForWorkload(store: Store, r: Resource,
                                                           podLabels: map<string, string>, podName: string)
    requires WorkloadName(podLabels, podName) != ""
    requires ApplyResult(false, store, r, NonEmpty(AllLabels(WorkloadName(podLabels, podName), podLabels))).0
      in {Updated, Unchanged}
    ensures var w := WorkloadName(podLabels, podName);
      var s' := ApplyResult(false, store, r, NonEmpty(AllLabels(w, podLabels))).1;
      Fetch(s', ObjectKeyOf(r)).Some? && IsResourceForWorkload(Fetch(s', ObjectKeyOf(r)).value, w)
  {
    var w := WorkloadName(podLabels, podName);
    DerivedLabelsContents(w, podLabels);
    LabelledResourceIsForWorkload(store, r, NonEmpty(AllLabels(w, podLabels)), w);
  }
}
