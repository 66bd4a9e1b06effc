/**
 * `ApplyLabelsToResource`: re-read the resource, merge the desired labels
 * into its current ones and write it back only when something changed.
 */
module Labels {
  import opened Wrappers
  import opened GoStrings
  import opened Resources
  import opened Predicates

  /** What a label application came to. */
  datatype LabelOutcome =
    | Skipped       // mock mode: nothing is read or written
    | GetFailed     // the re-read of the resource failed
    | Unchanged     // every desired label was already present with its value
    | UpdateFailed  // the write was refused
    | Updated       // the merged labels were written

  /** The outcomes for which the apply returns an error. */
  predicate Failed(o: LabelOutcome) {
    o == GetFailed || o == UpdateFailed
  }

  /** Where the resource is re-read from: its kind lowercased plus `s`, in its own group and version. */
  function ObjectKeyOf(r: Resource): ObjectKey {
    ObjectKey(CollectionOf(r.kind, r.group, r.version), r.name)
  }

  /** Desired label `k` is missing from `cur` or has another value there. */
  predicate Differs(cur: map<string, string>, desired: map<string, string>, k: string)
    requires k in desired
  {
    k !in cur || cur[k] != desired[k]
  }

  predicate NeedsWrite(cur: map<string, string>, desired: map<string, string>) {
    exists k :: k in desired && Differs(cur, desired, k)
  }

  function Restrict(m: map<string, string>, ks: set<string>): map<string, string> {
    map k | k in m && k in ks :: m[k]
  }

  /** The outcome and the store after applying `desired` to the resource `r`. */
  function ApplyResult(mockMode: bool, store: Store, r: Resource, desired: map<string, string>): (LabelOutcome, Store) {
    var key := ObjectKeyOf(r);
    if mockMode then (Skipped, store)
    else match Fetch(store, key)
      case None => (GetFailed, store)
      case Some(current) =>
        if !NeedsWrite(current.labels, desired) then (Unchanged, store)
        else if key in store.frozen then (UpdateFailed, store)
        else (Updated, store.(objects := store.objects[key := current.(labels := current.labels + desired)]))
  }

  /** Adding one desired key to the merged part adds its value, and marks a change exactly when it differs. */
  lemma {:induction false} MergeStep(cur: map<string, string>, desired: map<string, string>, done: set<string>, k: string)
    requires k in desired && k !in done
    ensures cur + Restrict(desired, done + {k}) == (cur + Restrict(desired, done))[k := desired[k]]
    ensures (k !in cur + Restrict(desired, done) || (cur + Restrict(desired, done))[k] != desired[k]) <==>
      Differs(cur, desired, k)
  {
  }

  lemma {:induction false} UpdateSameValue(m: map<string, string>, k: string, v: string)
    requires k in m && m[k] == v
    ensures m[k := v] == m
  {
  }

  /** The merge loop: writes each desired label whose value differs and records whether any did. */
  method MergeLabels(cur: map<string, string>, desired: map<string, string>) returns (labels: map<string, string>, changed: bool)
    ensures labels == cur + desired
    ensures changed == NeedsWrite(cur, desired)
  {
    labels, changed := cur, false;
    var pending := desired.Keys;
    ghost var done: set<string> := {};
    while pending != {}
      invariant pending <= desired.Keys && done == desired.Keys - pending
      invariant labels == cur + Restrict(desired, done)
      invariant changed <==> exists k :: k in done && Differs(cur, desired, k)
      decreases |pending|
    {
      var k :| k in pending;
      MergeStep(cur, desired, done, k);
      if k !in labels || labels[k] != desired[k] {
        labels := labels[k := desired[k]];
        changed := true;
      } else {
        UpdateSameValue(labels, k, desired[k]);
      }
      pending := pending - {k};
      done := done + {k};
    }
    assert Restrict(desired, desired.Keys) == desired;
  }

  method ApplyLabelsToResource(mockMode: bool, store: Store, r: Resource, desired: map<string, string>)
    returns (outcome: LabelOutcome, store': Store)
    ensures (outcome, store') == ApplyResult(mockMode, store, r, desired)
  {
    if mockMode {
      return Skipped, store;
    }
    var key := ObjectKeyOf(r);
    var fetched := Fetch(store, key);
    if fetched.None? {
      return GetFailed, store;
    }
    var current := fetched.value;
    var labels, changed := MergeLabels(current.labels, desired);
    if !changed {
      return Unchanged, store;
    }
    if key in store.frozen {
      return UpdateFailed, store;
    }
    return Updated, store.(objects := store.objects[key := current.(labels := labels)]);
  }

  // ---- properties ----

  /** Merging writes every desired label and keeps every other current label. */
  lemma {:induction false} MergeContents(cur: map<string, string>, desired: map<string, string>)
    ensures forall k :: k in desired ==> k in cur + desired && (cur + desired)[k] == desired[k]
    ensures forall k :: k in cur && k !in desired ==> k in cur + desired && (cur + desired)[k] == cur[k]
    ensures (cur + desired).Keys == cur.Keys + desired.Keys
  {
  }

  /** No write is needed exactly when merging would change nothing. */
  lemma {:induction false} NeedsWriteIffChange(cur: map<string, string>, desired: map<string, string>)
    ensures NeedsWrite(cur, desired) <==> cur + desired != cur
  {
    if NeedsWrite(cur, desired) {
      var k :| k in desired && Differs(cur, desired, k);
      assert (cur + desired)[k] == desired[k];
    } else {
      assert cur + desired == cur;
    }
  }

  /**
   * The apply reports an error exactly when the re-read fails or a needed
   * write is refused; a failed apply leaves the store as it was.
   */
  lemma {:induction false} ApplyFailsIff(mockMode: bool, store: Store, r: Resource, desired: map<string, string>)
    ensures var (o, s') := ApplyResult(mockMode, store, r, desired);
      var key := ObjectKeyOf(r);
      (Failed(o) <==>
        !mockMode && (Fetch(store, key).None? || (NeedsWrite(Fetch(store, key).value.labels, desired) && key in store.frozen))) &&
      (Failed(o) ==> s' == store)
  {
  }

  /** Applying the same labels a second time after a successful write changes nothing. */
  lemma {:induction false} ApplyTwiceIsNoOp(store: Store, r: Resource, desired: map<string, string>)
    requires ApplyResult(false, store, r, desired).0 == Updated
    ensures ApplyResult(false, ApplyResult(false, store, r, desired).1, r, desired) ==
      (Unchanged, ApplyResult(false, store, r, desired).1)
  {
    var key := ObjectKeyOf(r);
    var current := Fetch(store, key).value;
    var store' := ApplyResult(false, store, r, desired).1;
    var merged := current.labels + desired;
    assert Fetch(store', key) == Some(current.(labels := merged));
    NeedsWriteIffChange(merged, desired);
    assert merged + desired == merged;
  }

  /** A write touches only the resource's own object, and nothing at all unless the outcome is Updated. */
  lemma {:induction false} ApplyFrame(mockMode: bool, store: Store, r: Resource, desired: map<string, string>)
    ensures var (o, s') := ApplyResult(mockMode, store, r, desired);
      s'.lists == store.lists && s'.frozen == store.frozen &&
      s'.objects.Keys == store.objects.Keys &&
      (forall k :: k in store.objects && k != ObjectKeyOf(r) ==> s'.objects[k] == store.objects[k]) &&
      (o != Updated ==> s' == store)
  {
  }

  /** After the labeller writes `workload-name` = w, the workload test accepts the stored resource. */
  lemma {:induction false} LabelledResourceIsForWorkload(store: Store, r: Resource, desired: map<string, string>, w: string)
    requires "workload-name" in desired && desired["workload-name"] == w
    requires ApplyResult(false, store, r, desired).0 in {Updated, Unchanged}
    ensures var s' := ApplyResult(false, store, r, desired).1;
      Fetch(s', ObjectKeyOf(r)).Some? && IsResourceForWorkload(Fetch(s', ObjectKeyOf(r)).value, w)
  {
    var key := ObjectKeyOf(r);
    var current := Fetch(store, key).value;
    if ApplyResult(false, store, r, desired).0 == Unchanged {
      assert !Differs(current.labels, desired, "workload-name");
    }
  }
}
