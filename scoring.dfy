/**
 * The confidence scorer (`evaluateResourceMatchForNamespace`): the identity
 * signals that fire for a resource and a namespace, one reason per fired
 * signal, and the weight-squared-weighted average of the fired weights.
 */
module Scoring {
  import opened Wrappers
  import opened GoStrings
  import opened Resources

  // ---- the weighted average ----

  function Total(ws: seq<real>, f: real -> real): real {
    if ws == [] then 0.0 else Total(ws[..|ws| - 1], f) + f(ws[|ws| - 1])
  }

  function Square(w: real): real { w * w }
  function Cube(w: real): real { w * Square(w) }

  /**
   * Sum of w * w^2 over sum of w^2; the arithmetic mean when the squares sum
   * to zero; zero when nothing fired.
   */
  function Confidence(ws: seq<real>): real {
    if |ws| == 0 then 0.0
    else if Total(ws, Square) > 0.0 then Total(ws, Cube) / Total(ws, Square)
    else Total(ws, Cube) / (|ws| as real)
  }

  // ---- the signals ----

  const NameWeight: real := 0.8
  const NamespaceLabelWeight: real := 0.9
  const EnvironmentLabelWeight: real := 0.7
  const LabelContainsWeight: real := 0.6
  const FieldContainsWeight: real := 0.5

  /** `key` is present in `m` with value `v`. */
  predicate LabelIs(m: map<string, string>, key: string, v: string) {
    key in m && m[key] == v
  }

  predicate ProviderLabelIs(r: Resource, key: string, v: string) {
    match r.ProviderLabels()
    case Some(pl) => StrField(pl, key) == Some(v)
    case None => false
  }

  predicate NameHit(r: Resource, ns: string) {
    Contains(ToLower(r.name), ToLower(ns))
  }

  /** A label other than the three namespace labels whose value contains the namespace. */
  predicate LabelHit(labels: map<string, string>, k: string, ns: string)
    requires k in labels
  {
    k != "kubernetes-namespace" && k != "namespace" && k != "environment" &&
    Contains(ToLower(labels[k]), ToLower(ns))
  }

  /** A string field directly under `spec.forProvider` whose value contains the namespace. */
  predicate FieldHit(fp: map<string, Doc>, k: string, ns: string)
    requires k in fp
  {
    fp[k].Str? && Contains(ToLower(fp[k].s), ToLower(ns))
  }

  function NameReason(ns: string): string { "Resource name contains namespace: " + ns }
  function LabelReason(k: string): string { "Resource has label '" + k + "' with value containing namespace" }
  function FieldReason(k: string): string { "Resource spec.forProvider." + k + " contains namespace" }

  const KubernetesNamespaceReason := "Resource has 'kubernetes-namespace' label matching the namespace"
  const NamespaceReason := "Resource has 'namespace' label matching the namespace"
  const EnvironmentReason := "Resource has 'environment' label matching the namespace"
  const SpecKubernetesNamespaceReason := "Resource spec has 'kubernetes-namespace' label in forProvider.labels"
  const SpecNamespaceReason := "Resource spec has 'namespace' label in forProvider.labels"
  const SpecEnvironmentReason := "Resource spec has 'environment' label in forProvider.labels"

  /** The reasons of the label-containment signals among the keys `ks`. */
  function LabelReasons(labels: map<string, string>, ks: set<string>, ns: string): set<string> {
    set k | k in ks && k in labels && LabelHit(labels, k, ns) :: LabelReason(k)
  }

  function FieldReasons(fp: map<string, Doc>, ks: set<string>, ns: string): set<string> {
    set k | k in ks && k in fp && FieldHit(fp, k, ns) :: FieldReason(k)
  }

  function ProviderFieldReasons(r: Resource, ns: string): set<string> {
    match r.ForProvider()
    case Some(fp) => FieldReasons(fp, fp.Keys, ns)
    case None => {}
  }

  function Repeat(w: real, n: nat): seq<real> {
    seq(n, _ => w)
  }

  /** The fixed-position signals before the label scan: name, then the three top-level labels. */
  function LeadingWeights(r: Resource, ns: string): seq<real> {
    (if NameHit(r, ns) then [NameWeight] else []) +
    (if LabelIs(r.labels, "kubernetes-namespace", ns) then [NamespaceLabelWeight] else []) +
    (if LabelIs(r.labels, "namespace", ns) then [NamespaceLabelWeight] else []) +
    (if LabelIs(r.labels, "environment", ns) then [EnvironmentLabelWeight] else [])
  }

  function LeadingReasons(r: Resource, ns: string): seq<string> {
    (if NameHit(r, ns) then [NameReason(ns)] else []) +
    (if LabelIs(r.labels, "kubernetes-namespace", ns) then [KubernetesNamespaceReason] else []) +
    (if LabelIs(r.labels, "namespace", ns) then [NamespaceReason] else []) +
    (if LabelIs(r.labels, "environment", ns) then [EnvironmentReason] else [])
  }

  /** The three `spec.forProvider.labels` signals. */
  function SpecLabelWeights(r: Resource, ns: string): seq<real> {
    (if ProviderLabelIs(r, "kubernetes-namespace", ns) then [NamespaceLabelWeight] else []) +
    (if ProviderLabelIs(r, "namespace", ns) then [NamespaceLabelWeight] else []) +
    (if ProviderLabelIs(r, "environment", ns) then [EnvironmentLabelWeight] else [])
  }

  function SpecLabelReasons(r: Resource, ns: string): seq<string> {
    (if ProviderLabelIs(r, "kubernetes-namespace", ns) then [SpecKubernetesNamespaceReason] else []) +
    (if ProviderLabelIs(r, "namespace", ns) then [SpecNamespaceReason] else []) +
    (if ProviderLabelIs(r, "environment", ns) then [SpecEnvironmentReason] else [])
  }

  /**
   * The weights of the fired signals, in firing order. Every label hit weighs
   * the same and so does every field hit, so this sequence does not depend
   * on the order in which the maps are walked.
   */
  function FiredWeights(r: Resource, ns: string): seq<real> {
    LeadingWeights(r, ns) +
    Repeat(LabelContainsWeight, |LabelReasons(r.labels, r.labels.Keys, ns)|) +
    SpecLabelWeights(r, ns) +
    Repeat(FieldContainsWeight, |ProviderFieldReasons(r, ns)|)
  }

  /** The reasons of the fired signals, as a multiset: the map walks fix no order among them. */
  function FiredReasons(r: Resource, ns: string): multiset<string> {
    multiset(LeadingReasons(r, ns)) +
    multiset(LabelReasons(r.labels, r.labels.Keys, ns)) +
    multiset(SpecLabelReasons(r, ns)) +
    multiset(ProviderFieldReasons(r, ns))
  }

  /** The confidence the scorer assigns. */
  function ScoreConfidence(r: Resource, ns: string): real {
    Confidence(FiredWeights(r, ns))
  }

  // ---- the scorer ----

  lemma {:induction false} LabelReasonInjective(a: string, b: string)
    requires LabelReason(a) == LabelReason(b)
    ensures a == b
  {
    var p := "Resource has label '";
    assert |a| == |b|;
    assert LabelReason(a)[|p|..|p| + |a|] == a;
    assert LabelReason(b)[|p|..|p| + |b|] == b;
  }

  lemma {:induction false} FieldReasonInjective(a: string, b: string)
    requires FieldReason(a) == FieldReason(b)
    ensures a == b
  {
    var p := "Resource spec.forProvider.";
    assert |a| == |b|;
    assert FieldReason(a)[|p|..|p| + |a|] == a;
    assert FieldReason(b)[|p|..|p| + |b|] == b;
  }

  /** Adding one key to the scanned set adds its reason exactly when it is a hit, and that reason is new. */
  lemma {:induction false} LabelReasonsStep(labels: map<string, string>, done: set<string>, k: string, ns: string)
    requires k in labels && k !in done
    ensures LabelHit(labels, k, ns) ==>
      LabelReason(k) !in LabelReasons(labels, done, ns) &&
      LabelReasons(labels, done + {k}, ns) == LabelReasons(labels, done, ns) + {LabelReason(k)}
    ensures !LabelHit(labels, k, ns) ==> LabelReasons(labels, done + {k}, ns) == LabelReasons(labels, done, ns)
  {
    if LabelHit(labels, k, ns) && LabelReason(k) in LabelReasons(labels, done, ns) {
      var k' :| k' in done && k' in labels && LabelHit(labels, k', ns) && LabelReason(k') == LabelReason(k);
      LabelReasonInjective(k', k);
    }
  }

  lemma {:induction false} FieldReasonsStep(fp: map<string, Doc>, done: set<string>, k: string, ns: string)
    requires k in fp && k !in done
    ensures FieldHit(fp, k, ns) ==>
      FieldReason(k) !in FieldReasons(fp, done, ns) &&
      FieldReasons(fp, done + {k}, ns) == FieldReasons(fp, done, ns) + {FieldReason(k)}
    ensures !FieldHit(fp, k, ns) ==> FieldReasons(fp, done + {k}, ns) == FieldReasons(fp, done, ns)
  {
    if FieldHit(fp, k, ns) && FieldReason(k) in FieldReasons(fp, done, ns) {
      var k' :| k' in done && k' in fp && FieldHit(fp, k', ns) && FieldReason(k') == FieldReason(k);
      FieldReasonInjective(k', k);
    }
  }

  /** A new element grows a set's multiset by one occurrence and its size by one. */
  lemma {:induction false} AddFresh(a: set<string>, x: string)
    requires x !in a
    ensures multiset(a + {x}) == multiset(a) + multiset{x}
    ensures |a + {x}| == |a| + 1
  {
  }

  lemma {:induction false} RepeatSnoc(w: real, n: nat)
    ensures Repeat(w, n + 1) == Repeat(w, n) + [w]
  {
  }

  /** One key of the label scan keeps the loop's invariant. */
  lemma {:induction false} LabelScanStep(labels: map<string, string>, done: set<string>, k: string, ns: string,
                                       reasons: seq<string>, weights: seq<real>)
    requires k in labels && k !in done
    requires multiset(reasons) == multiset(LabelReasons(labels, done, ns))
    requires weights == Repeat(LabelContainsWeight, |LabelReasons(labels, done, ns)|)
    ensures var after := LabelReasons(labels, done + {k}, ns);
      if LabelHit(labels, k, ns) then
        multiset(reasons + [LabelReason(k)]) == multiset(after) && weights + [LabelContainsWeight] == Repeat(LabelContainsWeight, |after|)
      else
        multiset(reasons) == multiset(after) && weights == Repeat(LabelContainsWeight, |after|)
  {
    LabelReasonsStep(labels, done, k, ns);
    if LabelHit(labels, k, ns) {
      AddFresh(LabelReasons(labels, done, ns), LabelReason(k));
      RepeatSnoc(LabelContainsWeight, |LabelReasons(labels, done, ns)|);
    }
  }

  /** The label scan: one reason and one 0.6 weight per label hit, in an unspecified key order. */
  method ScanLabels(labels: map<string, string>, ns: string) returns (reasons: seq<string>, weights: seq<real>)
    ensures multiset(reasons) == multiset(LabelReasons(labels, labels.Keys, ns))
    ensures weights == Repeat(LabelContainsWeight, |LabelReasons(labels, labels.Keys, ns)|)
  {
    reasons, weights := [], [];
    var pending := labels.Keys;
    ghost var done: set<string> := {};
    while pending != {}
      invariant pending <= labels.Keys && done == labels.Keys - pending
      invariant multiset(reasons) == multiset(LabelReasons(labels, done, ns))
      invariant weights == Repeat(LabelContainsWeight, |LabelReasons(labels, done, ns)|)
      decreases |pending|
    {
      var k :| k in pending;
      LabelScanStep(labels, done, k, ns, reasons, weights);
      MoveKey(labels.Keys, pending, done, k);
      if LabelHit(labels, k, ns) {
        reasons := reasons + [LabelReason(k)];
        weights := weights + [LabelContainsWeight];
      }
      pending := pending - {k};
      done := done + {k};
    }
    assert done == labels.Keys;
  }

  /** One key of the field scan keeps the loop's invariant. */
  lemma {:induction false} FieldScanStep(fp: map<string, Doc>, done: set<string>, k: string, ns: string,
                                       reasons: seq<string>, weights: seq<real>)
    requires k in fp && k !in done
    requires multiset(reasons) == multiset(FieldReasons(fp, done, ns))
    requires weights == Repeat(FieldContainsWeight, |FieldReasons(fp, done, ns)|)
    ensures var after := FieldReasons(fp, done + {k}, ns);
      if FieldHit(fp, k, ns) then
        multiset(reasons + [FieldReason(k)]) == multiset(after) && weights + [FieldContainsWeight] == Repeat(FieldContainsWeight, |after|)
      else
        multiset(reasons) == multiset(after) && weights == Repeat(FieldContainsWeight, |after|)
  {
    FieldReasonsStep(fp, done, k, ns);
    if FieldHit(fp, k, ns) {
      AddFresh(FieldReasons(fp, done, ns), FieldReason(k));
      RepeatSnoc(FieldContainsWeight, |FieldReasons(fp, done, ns)|);
    }
  }

  /** The `spec.forProvider` field scan: one reason and one 0.5 weight per field hit. */
  method ScanFields(fp: map<string, Doc>, ns: string) returns (reasons: seq<string>, weights: seq<real>)
    ensures multiset(reasons) == multiset(FieldReasons(fp, fp.Keys, ns))
    ensures weights == Repeat(FieldContainsWeight, |FieldReasons(fp, fp.Keys, ns)|)
  {
    reasons, weights := [], [];
    var pending := fp.Keys;
    ghost var done: set<string> := {};
    while pending != {}
      invariant pending <= fp.Keys && done == fp.Keys - pending
      invariant multiset(reasons) == multiset(FieldReasons(fp, done, ns))
      invariant weights == Repeat(FieldContainsWeight, |FieldReasons(fp, done, ns)|)
      decreases |pending|
    {
      var k :| k in pending;
      FieldScanStep(fp, done, k, ns, reasons, weights);
      MoveKey(fp.Keys, pending, done, k);
      if FieldHit(fp, k, ns) {
        reasons := reasons + [FieldReason(k)];
        weights := weights + [FieldContainsWeight];
      }
      pending := pending - {k};
      done := done + {k};
    }
    assert done == fp.Keys;
  }

  /** The final weighting loop: accumulates sum of w * w^2 and sum of w^2. */
  method WeightedAverage(scores: seq<real>) returns (total: real)
    ensures total == Confidence(scores)
  {
    if |scores| == 0 {
      return 0.0;
    }
    var weightedTotal, totalWeight := 0.0, 0.0;
    for i := 0 to |scores|
      invariant weightedTotal == Total(scores[..i], Cube)
      invariant totalWeight == Total(scores[..i], Square)
    {
      var weight := scores[i] * scores[i];
      weightedTotal := weightedTotal + scores[i] * weight;
      totalWeight := totalWeight + weight;
      assert scores[..i + 1][..i] == scores[..i];
    }
    assert scores[..|scores|] == scores;
    if totalWeight > 0.0 {
      total := weightedTotal / totalWeight;
    } else {
      total := weightedTotal / (|scores| as real);
    }
  }

  /** The name and top-level label signals. */
  method LeadingSignals(r: Resource, ns: string) returns (reasons: seq<string>, scores: seq<real>)
    ensures reasons == LeadingReasons(r, ns) && scores == LeadingWeights(r, ns)
    ensures |reasons| == |scores|
  {
    reasons, scores := [], [];
    if Contains(ToLower(r.name), ToLower(ns)) {
      reasons := reasons + [NameReason(ns)];
      scores := scores + [NameWeight];
    }
    if "kubernetes-namespace" in r.labels && r.labels["kubernetes-namespace"] == ns {
      reasons := reasons + [KubernetesNamespaceReason];
      scores := scores + [NamespaceLabelWeight];
    }
    if "namespace" in r.labels && r.labels["namespace"] == ns {
      reasons := reasons + [NamespaceReason];
      scores := scores + [NamespaceLabelWeight];
    }
    if "environment" in r.labels && r.labels["environment"] == ns {
      reasons := reasons + [EnvironmentReason];
      scores := scores + [EnvironmentLabelWeight];
    }
  }

  /** The three `spec.forProvider.labels` signals. */
  method SpecLabelSignals(r: Resource, ns: string) returns (reasons: seq<string>, scores: seq<real>)
    ensures reasons == SpecLabelReasons(r, ns) && scores == SpecLabelWeights(r, ns)
    ensures |reasons| == |scores|
  {
    reasons, scores := [], [];
    match r.ProviderLabels() {
      case Some(pl) =>
        if StrField(pl, "kubernetes-namespace") == Some(ns) {
          reasons := reasons + [SpecKubernetesNamespaceReason];
          scores := scores + [NamespaceLabelWeight];
        }
        if StrField(pl, "namespace") == Some(ns) {
          reasons := reasons + [SpecNamespaceReason];
          scores := scores + [NamespaceLabelWeight];
        }
        if StrField(pl, "environment") == Some(ns) {
          reasons := reasons + [SpecEnvironmentReason];
          scores := scores + [EnvironmentLabelWeight];
        }
      case None =>
    }
  }

  /** The four signal groups put together give the fired reasons and weights. */
  lemma {:induction false} Assembled(r: Resource, ns: string, labelReasons: seq<string>, labelScores: seq<real>,
                                     fieldReasons: seq<string>, fieldScores: seq<real>)
    requires multiset(labelReasons) == multiset(LabelReasons(r.labels, r.labels.Keys, ns))
    requires labelScores == Repeat(LabelContainsWeight, |LabelReasons(r.labels, r.labels.Keys, ns)|)
    requires multiset(fieldReasons) == multiset(ProviderFieldReasons(r, ns))
    requires fieldScores == Repeat(FieldContainsWeight, |ProviderFieldReasons(r, ns)|)
    ensures var reasons := LeadingReasons(r, ns) + labelReasons + SpecLabelReasons(r, ns) + fieldReasons;
      multiset(reasons) == FiredReasons(r, ns) && |reasons| == |FiredWeights(r, ns)|
    ensures LeadingWeights(r, ns) + labelScores + SpecLabelWeights(r, ns) + fieldScores == FiredWeights(r, ns)
  {
    var reasons := LeadingReasons(r, ns) + labelReasons + SpecLabelReasons(r, ns) + fieldReasons;
    assert multiset(reasons) == FiredReasons(r, ns);
    AssembledLength(r, ns, labelReasons, fieldReasons);
  }

  lemma {:induction false} AssembledLength(r: Resource, ns: string, labelReasons: seq<string>, fieldReasons: seq<string>)
    requires multiset(labelReasons) == multiset(LabelReasons(r.labels, r.labels.Keys, ns))
    requires multiset(fieldReasons) == multiset(ProviderFieldReasons(r, ns))
    ensures |LeadingReasons(r, ns) + labelReasons + SpecLabelReasons(r, ns) + fieldReasons| == |FiredWeights(r, ns)|
  {
    assert |labelReasons| == |multiset(labelReasons)|;
    assert |fieldReasons| == |multiset(fieldReasons)|;
    LeadingLengths(r, ns);
    SpecLabelLengths(r, ns);
  }

  lemma {:induction false} LeadingLengths(r: Resource, ns: string)
    ensures |LeadingReasons(r, ns)| == |LeadingWeights(r, ns)|
  {
  }

  lemma {:induction false} SpecLabelLengths(r: Resource, ns: string)
    ensures |SpecLabelReasons(r, ns)| == |SpecLabelWeights(r, ns)|
  {
  }

  /** `evaluateResourceMatchForNamespace`: the reasons of the fired signals and the confidence. */
  method EvaluateResourceMatch(r: Resource, ns: string) returns (reasons: seq<string>, confidence: real)
    ensures multiset(reasons) == FiredReasons(r, ns)
    ensures |reasons| == |FiredWeights(r, ns)|
    ensures confidence == ScoreConfidence(r, ns)
  {
    var leadReasons, leadScores := LeadingSignals(r, ns);
    var labelReasons, labelScores := ScanLabels(r.labels, ns);
    var specReasons, specScores := SpecLabelSignals(r, ns);
    var fieldReasons: seq<string>, fieldScores: seq<real> := [], [];
    match r.ForProvider() {
      case Some(fp) =>
        fieldReasons, fieldScores := ScanFields(fp, ns);
      case None =>
    }
    reasons := leadReasons + labelReasons + specReasons + fieldReasons;
    var scores := leadScores + labelScores + specScores + fieldScores;
    Assembled(r, ns, labelReasons, labelScores, fieldReasons, fieldScores);
    confidence := WeightedAverage(scores);
  }

  // ---- properties of the weighting ----

  lemma {:induction false} TotalAppend(a: seq<real>, b: seq<real>, f: real -> real)
    ensures Total(a + b, f) == Total(a, f) + Total(b, f)
    decreases |b|
  {
    if b == [] {
      assert a + b == a;
    } else {
      var b' := b[..|b| - 1];
      assert (a + b)[..|a + b| - 1] == a + b';
      TotalAppend(a, b', f);
    }
  }

  /** Taking one element out of a sequence takes its term out of the total. */
  lemma {:induction false} TotalRemove(vs: seq<real>, j: int, f: real -> real)
    requires 0 <= j < |vs|
    ensures Total(vs, f) == Total(vs[..j] + vs[j + 1..], f) + f(vs[j])
  {
    assert vs == vs[..j] + [vs[j]] + vs[j + 1..];
    TotalAppend(vs[..j] + [vs[j]], vs[j + 1..], f);
    TotalAppend(vs[..j], [vs[j]], f);
    TotalAppend(vs[..j], vs[j + 1..], f);
    assert Total([vs[j]], f) == f(vs[j]) by {
      assert [vs[j]][..0] == [];
    }
  }

  lemma {:induction false} RemoveOne(vs: seq<real>, j: int)
    requires 0 <= j < |vs|
    ensures multiset(vs[..j] + vs[j + 1..]) == multiset(vs) - multiset{vs[j]}
  {
    assert vs == vs[..j] + [vs[j]] + vs[j + 1..];
  }

  /** A total depends only on the multiset of its terms. */
  lemma {:induction false} TotalPermutation(ws: seq<real>, vs: seq<real>, f: real -> real)
    requires multiset(ws) == multiset(vs)
    ensures Total(ws, f) == Total(vs, f)
    decreases |ws|
  {
    if ws == [] {
      assert |vs| == |multiset(vs)| == 0;
    } else {
      var x := ws[|ws| - 1];
      var ws' := ws[..|ws| - 1];
      assert ws == ws' + [x];
      assert x in multiset(vs);
      var j :| 0 <= j < |vs| && vs[j] == x;
      var vs' := vs[..j] + vs[j + 1..];
      RemoveOne(vs, j);
      assert multiset(ws) == multiset(ws') + multiset{x};
      TotalPermutation(ws', vs', f);
      TotalRemove(vs, j, f);
    }
  }

  /** The confidence does not depend on the order in which the signals fired. */
  lemma {:induction false} ConfidencePermutation(ws: seq<real>, vs: seq<real>)
    requires multiset(ws) == multiset(vs)
    ensures Confidence(ws) == Confidence(vs)
  {
    TotalPermutation(ws, vs, Cube);
    TotalPermutation(ws, vs, Square);
    assert |ws| == |multiset(ws)| == |multiset(vs)| == |vs|;
  }

  predicate Within(ws: seq<real>, lo: real, hi: real) {
    forall i :: 0 <= i < |ws| ==> lo <= ws[i] <= hi
  }

  lemma {:induction false} TotalPositive(ws: seq<real>, f: real -> real)
    requires forall i :: 0 <= i < |ws| ==> f(ws[i]) > 0.0
    ensures Total(ws, f) >= 0.0
    ensures ws != [] ==> Total(ws, f) > 0.0
  {
    if ws != [] {
      var ws' := ws[..|ws| - 1];
      forall i | 0 <= i < |ws'| ensures f(ws'[i]) > 0.0 {
        assert ws'[i] == ws[i];
      }
      TotalPositive(ws', f);
    }
  }

  /** Weighted by their squares, weights between lo and hi sum to between lo and hi times the weight. */
  lemma {:induction false} TotalBounds(ws: seq<real>, lo: real, hi: real)
    requires 0.0 < lo && Within(ws, lo, hi)
    ensures lo * Total(ws, Square) <= Total(ws, Cube) <= hi * Total(ws, Square)
    ensures ws != [] ==> Total(ws, Square) > 0.0
  {
    TotalLower(ws, lo, hi);
    TotalUpper(ws, lo, hi);
    forall i | 0 <= i < |ws| ensures Square(ws[i]) > 0.0 {
      SquarePositive(ws[i]);
    }
    TotalPositive(ws, Square);
  }

  lemma {:induction false} TotalLower(ws: seq<real>, lo: real, hi: real)
    requires 0.0 < lo && Within(ws, lo, hi)
    ensures lo * Total(ws, Square) <= Total(ws, Cube)
  {
    SquareCubeBelow(lo, hi);
    TotalAbove(ws, lo, Square, Cube, lo, hi);
  }

  lemma {:induction false} TotalUpper(ws: seq<real>, lo: real, hi: real)
    requires 0.0 < lo && Within(ws, lo, hi)
    ensures Total(ws, Cube) <= hi * Total(ws, Square)
  {
    SquareCubeAbove(lo, hi);
    TotalBelow(ws, hi, Square, Cube, lo, hi);
  }

  /** On [lo, hi], `c * f` stays below `g`. */
  ghost predicate ScaledBelow(c: real, f: real -> real, g: real -> real, lo: real, hi: real) {
    forall x :: lo <= x <= hi ==> c * f(x) <= g(x)
  }

  /** On [lo, hi], `g` stays below `c * f`. */
  ghost predicate ScaledAbove(c: real, f: real -> real, g: real -> real, lo: real, hi: real) {
    forall x :: lo <= x <= hi ==> g(x) <= c * f(x)
  }

  lemma {:induction false} TotalAbove(ws: seq<real>, c: real, f: real -> real, g: real -> real, lo: real, hi: real)
    requires ScaledBelow(c, f, g, lo, hi) && Within(ws, lo, hi)
    ensures c * Total(ws, f) <= Total(ws, g)
    decreases |ws|
  {
    if ws == [] {
      ZeroProduct(c);
    } else {
      WithinPrefix(ws, lo, hi);
      TotalAbove(ws[..|ws| - 1], c, f, g, lo, hi);
      Distribute(c, Total(ws[..|ws| - 1], f), f(ws[|ws| - 1]));
    }
  }

  lemma {:induction false} TotalBelow(ws: seq<real>, c: real, f: real -> real, g: real -> real, lo: real, hi: real)
    requires ScaledAbove(c, f, g, lo, hi) && Within(ws, lo, hi)
    ensures Total(ws, g) <= c * Total(ws, f)
    decreases |ws|
  {
    if ws == [] {
      ZeroProduct(c);
    } else {
      WithinPrefix(ws, lo, hi);
      TotalBelow(ws[..|ws| - 1], c, f, g, lo, hi);
      Distribute(c, Total(ws[..|ws| - 1], f), f(ws[|ws| - 1]));
    }
  }

  lemma {:induction false} WithinPrefix(ws: seq<real>, lo: real, hi: real)
    requires ws != [] && Within(ws, lo, hi)
    ensures Within(ws[..|ws| - 1], lo, hi) && lo <= ws[|ws| - 1] <= hi
  {
    var ws' := ws[..|ws| - 1];
    forall i | 0 <= i < |ws'| ensures lo <= ws'[i] <= hi {
      assert ws'[i] == ws[i];
    }
  }

  /** For a positive weight w in [lo, hi], w^3 lies between lo * w^2 and hi * w^2. */
  lemma {:induction false} PointBounds(w: real, lo: real, hi: real)
    requires 0.0 < lo <= w <= hi
    ensures lo * Square(w) <= Cube(w) <= hi * Square(w)
  {
    SquarePositive(w);
    ScaleBounds(w, Square(w), lo, hi);
  }

  lemma {:induction false} SquareCubeBelow(lo: real, hi: real)
    requires 0.0 < lo
    ensures ScaledBelow(lo, Square, Cube, lo, hi)
  {
    forall x | lo <= x <= hi ensures lo * Square(x) <= Cube(x) {
      PointBounds(x, lo, hi);
    }
  }

  lemma {:induction false} SquareCubeAbove(lo: real, hi: real)
    requires 0.0 < lo
    ensures ScaledAbove(hi, Square, Cube, lo, hi)
  {
    forall x | lo <= x <= hi ensures Cube(x) <= hi * Square(x) {
      PointBounds(x, lo, hi);
    }
  }

  lemma {:induction false} SquarePositive(w: real)
    requires w > 0.0
    ensures Square(w) > 0.0
  {
    calc {
      Square(w);
      w * w;
    > { assert w * w > 0.0; }
      0.0;
    }
  }

  lemma {:induction false} ScaleBounds(w: real, q: real, lo: real, hi: real)
    requires q >= 0.0 && lo <= w <= hi
    ensures lo * q <= w * q <= hi * q
  {
  }

  lemma {:induction false} ZeroProduct(c: real)
    ensures c * 0.0 == 0.0
  {
  }

  lemma {:induction false} Distribute(c: real, x: real, y: real)
    ensures c * (x + y) == c * x + c * y
  {
  }

  /** A quotient of bounded numerator over a positive denominator is bounded. */
  lemma {:induction false} QuotientBounds(c: real, t: real, lo: real, hi: real)
    requires t > 0.0 && lo * t <= c <= hi * t
    ensures lo <= c / t <= hi
  {
    assert (c / t) * t == c;
  }

  /** The confidence lies between the smallest and the largest possible weight. */
  lemma {:induction false} ConfidenceBounds(ws: seq<real>, lo: real, hi: real)
    requires ws != [] && 0.0 < lo && Within(ws, lo, hi)
    ensures lo <= Confidence(ws) <= hi
  {
    TotalBounds(ws, lo, hi);
    QuotientBounds(Total(ws, Cube), Total(ws, Square), lo, hi);
  }

  /** Equal weights give that weight back. */
  lemma {:induction false} ConfidenceOfRepeat(w: real, n: nat)
    requires w > 0.0 && n > 0
    ensures Confidence(Repeat(w, n)) == w
  {
    assert Within(Repeat(w, n), w, w);
    ConfidenceBounds(Repeat(w, n), w, w);
  }

  lemma {:induction false} WithinConcat(a: seq<real>, b: seq<real>, lo: real, hi: real)
    requires Within(a, lo, hi) && Within(b, lo, hi)
    ensures Within(a + b, lo, hi)
  {
    forall i | 0 <= i < |a + b| ensures lo <= (a + b)[i] <= hi {
      if i >= |a| {
        assert (a + b)[i] == b[i - |a|];
      }
    }
  }

  function Optional(c: bool, w: real): seq<real> {
    if c then [w] else []
  }

  lemma {:induction false} WithinOptional3(c1: bool, w1: real, c2: bool, w2: real, c3: bool, w3: real, lo: real, hi: real)
    requires lo <= w1 <= hi && lo <= w2 <= hi && lo <= w3 <= hi
    ensures Within(Optional(c1, w1) + Optional(c2, w2) + Optional(c3, w3), lo, hi)
  {
    WithinConcat(Optional(c1, w1), Optional(c2, w2), lo, hi);
    WithinConcat(Optional(c1, w1) + Optional(c2, w2), Optional(c3, w3), lo, hi);
  }

  lemma {:induction false} LeadingWithin(r: Resource, ns: string)
    ensures Within(LeadingWeights(r, ns), 0.5, 0.9)
  {
    var a0 := Optional(NameHit(r, ns), NameWeight);
    var a1 := Optional(LabelIs(r.labels, "kubernetes-namespace", ns), NamespaceLabelWeight) +
      Optional(LabelIs(r.labels, "namespace", ns), NamespaceLabelWeight) +
      Optional(LabelIs(r.labels, "environment", ns), EnvironmentLabelWeight);
    WithinOptional3(LabelIs(r.labels, "kubernetes-namespace", ns), NamespaceLabelWeight,
      LabelIs(r.labels, "namespace", ns), NamespaceLabelWeight,
      LabelIs(r.labels, "environment", ns), EnvironmentLabelWeight, 0.5, 0.9);
    WithinConcat(a0, a1, 0.5, 0.9);
    assert LeadingWeights(r, ns) == a0 + a1;
  }

  lemma {:induction false} SpecLabelWithin(r: Resource, ns: string)
    ensures Within(SpecLabelWeights(r, ns), 0.5, 0.9)
  {
    WithinOptional3(ProviderLabelIs(r, "kubernetes-namespace", ns), NamespaceLabelWeight,
      ProviderLabelIs(r, "namespace", ns), NamespaceLabelWeight,
      ProviderLabelIs(r, "environment", ns), EnvironmentLabelWeight, 0.5, 0.9);
  }

  /** Every fired signal weighs between 0.5 and 0.9. */
  lemma {:induction false} FiredWeightsWithin(r: Resource, ns: string)
    ensures Within(FiredWeights(r, ns), 0.5, 0.9)
  {
    var a := LeadingWeights(r, ns);
    var b := Repeat(LabelContainsWeight, |LabelReasons(r.labels, r.labels.Keys, ns)|);
    var c := SpecLabelWeights(r, ns);
    var d := Repeat(FieldContainsWeight, |ProviderFieldReasons(r, ns)|);
    LeadingWithin(r, ns);
    SpecLabelWithin(r, ns);
    assert Within(b, 0.5, 0.9) && Within(d, 0.5, 0.9);
    WithinConcat(a, b, 0.5, 0.9);
    WithinConcat(a + b, c, 0.5, 0.9);
    WithinConcat(a + b + c, d, 0.5, 0.9);
  }

  /**
   * The threshold of the namespace scan: a resource scores above 0.3 exactly
   * when at least one signal fired, and then it scores between 0.5 and 0.9.
   */
  lemma {:induction false} ScoreThreshold(r: Resource, ns: string)
    ensures ScoreConfidence(r, ns) > 0.3 <==> FiredReasons(r, ns) != multiset{}
    ensures FiredReasons(r, ns) != multiset{} ==> 0.5 <= ScoreConfidence(r, ns) <= 0.9
    ensures FiredReasons(r, ns) == multiset{} ==> ScoreConfidence(r, ns) == 0.0
  {
    var w := FiredWeights(r, ns);
    ScoreLengths(r, ns);
    if w != [] {
      FiredWeightsWithin(r, ns);
      ConfidenceBounds(w, 0.5, 0.9);
    }
  }

  /** A fixed-position signal puts its reason among the fired ones. */
  lemma {:induction false} FiredReasonsNonEmpty(r: Resource, ns: string)
    requires LeadingReasons(r, ns) != [] || SpecLabelReasons(r, ns) != []
    ensures FiredReasons(r, ns) != multiset{}
  {
    var lead, spec := LeadingReasons(r, ns), SpecLabelReasons(r, ns);
    if lead != [] {
      assert lead[0] in multiset(lead);
    } else {
      assert spec[0] in multiset(spec);
    }
  }

  /** There are as many reasons as weights. */
  lemma {:induction false} ScoreLengths(r: Resource, ns: string)
    ensures |FiredReasons(r, ns)| == |FiredWeights(r, ns)|
  {
    LeadingLengths(r, ns);
    SpecLabelLengths(r, ns);
  }

  /** A resource whose name is its namespace's and which has no other signal scores 0.8. */
  lemma {:induction false} NameOnlyScore(r: Resource, ns: string)
    requires FiredWeights(r, ns) == [NameWeight]
    ensures ScoreConfidence(r, ns) == 0.8
  {
    ConfidenceOfRepeat(NameWeight, 1);
    assert Repeat(NameWeight, 1) == [NameWeight];
  }
}
