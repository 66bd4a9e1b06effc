/**
 * `isResourceForWorkload` and `isResourceForNamespace`: the yes/no
 * association tests on explicit labels, the resource name and the labels
 * under `spec.forProvider.labels`.
 */
module Predicates {
  import opened Wrappers
  import opened GoStrings
  import opened Resources
  import opened Scoring

  /** A `workload-name` or `app` label equal to the workload, a name containing it, or the same under forProvider.labels. */
  predicate IsResourceForWorkload(r: Resource, workload: string) {
    LabelIs(r.labels, "workload-name", workload) ||
    LabelIs(r.labels, "app", workload) ||
    Contains(ToLower(r.name), ToLower(workload)) ||
    ProviderLabelIs(r, "workload-name", workload) ||
    ProviderLabelIs(r, "app", workload)
  }

  /** A `kubernetes-namespace` or `namespace` label equal to the namespace, a name containing it, or the same under forProvider.labels. */
  predicate IsResourceForNamespace(r: Resource, ns: string) {
    LabelIs(r.labels, "kubernetes-namespace", ns) ||
    LabelIs(r.labels, "namespace", ns) ||
    Contains(ToLower(r.name), ToLower(ns)) ||
    ProviderLabelIs(r, "kubernetes-namespace", ns) ||
    ProviderLabelIs(r, "namespace", ns)
  }

  /**
   * Every resource the yes/no namespace test accepts is also accepted by the
   * confidence scan, with a score of at least 0.5.
   */
  lemma {:induction false} NamespaceTestImpliesScore(r: Resource, ns: string)
    requires IsResourceForNamespace(r, ns)
    ensures ScoreConfidence(r, ns) >= 0.5
  {
    if LabelIs(r.labels, "kubernetes-namespace", ns) || LabelIs(r.labels, "namespace", ns) || NameHit(r, ns) {
      assert LeadingReasons(r, ns) != [] by {
        assert |LeadingReasons(r, ns)| >= 1;
      }
    } else {
      assert SpecLabelReasons(r, ns) != [] by {
        assert |SpecLabelReasons(r, ns)| >= 1;
      }
    }
    FiredReasonsNonEmpty(r, ns);
    ScoreThreshold(r, ns);
  }

  /** The converse fails: an `environment` label alone convinces the scan but not the yes/no test. */
  lemma {:induction false} EnvironmentOnlyScoresButFailsTest(ns: string)
    requires ns != ""
    ensures var r := Resource("Bucket", "", "storage.gcp.upbound.io", "v1beta1", map["environment" := ns], map[]);
      !IsResourceForNamespace(r, ns) && ScoreConfidence(r, ns) == 0.7
  {
    var r := Resource("Bucket", "", "storage.gcp.upbound.io", "v1beta1", map["environment" := ns], map[]);
    assert !Contains(ToLower(r.name), ToLower(ns)) by {
      assert |ToLower(ns)| > 0;
    }
    assert r.ForProvider() == None;
    assert LabelReasons(r.labels, r.labels.Keys, ns) == {};
    assert ProviderFieldReasons(r, ns) == {};
    assert FiredWeights(r, ns) == [EnvironmentLabelWeight];
    ConfidenceOfRepeat(EnvironmentLabelWeight, 1);
    assert Repeat(EnvironmentLabelWeight, 1) == [EnvironmentLabelWeight];
  }

  /** An empty workload or namespace name is contained in every name, so both tests accept everything. */
  lemma {:induction false} EmptyNameAcceptsEverything(r: Resource)
    ensures IsResourceForWorkload(r, "") && IsResourceForNamespace(r, "")
  {
    assert ToLower("") == "";
    assert HasPrefix(ToLower(r.name), "");
  }
}
