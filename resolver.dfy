/**
 * The metadata scans behind `FindCrossplaneResourcesForNamespaceWithConfidence`
 * and `FindCrossplaneResourcesForWorkload`: every listed resource in turn,
 * the first accepted one per `kind/name` key, and for the namespace scan a
 * scored match per kept resource, sorted by confidence.
 */
module Resolver {
  import opened Wrappers
  import opened Resources
  import opened Scoring
  import opened Sorting
  import opened Predicates

  /** What a scan accepts a resource for. */
  datatype Criterion = ForNamespace(ns: string) | ForWorkload(workload: string)

  /** The namespace scan keeps confidences above 0.3; the workload scan uses the yes/no workload test. */
  predicate Accepts(c: Criterion, r: Resource) {
    match c
    case ForNamespace(ns) => ScoreConfidence(r, ns) > 0.3
    case ForWorkload(w) => IsResourceForWorkload(r, w)
  }

  function KeysOf(rs: seq<Resource>): set<string> {
    set r | r in rs :: Key(r)
  }

  /**
   * The resources a scan keeps, in visiting order: an accepted resource
   * whose key has not been kept before. A key is only marked as seen when
   * its resource is kept, so a rejected resource does not hide a later one.
   */
  function Kept(rs: seq<Resource>, c: Criterion): seq<Resource> {
    if rs == [] then []
    else
      var prev := Kept(rs[..|rs| - 1], c);
      var r := rs[|rs| - 1];
      if Key(r) !in KeysOf(prev) && Accepts(c, r) then prev + [r] else prev
  }

  predicate DistinctKeys(rs: seq<Resource>) {
    forall i, j :: 0 <= i < j < |rs| ==> Key(rs[i]) != Key(rs[j])
  }

  /** Kept resources are listed and accepted, carry distinct keys, and cover the key of every accepted resource. */
  lemma {:induction false} KeptProperties(rs: seq<Resource>, c: Criterion)
    ensures forall x :: x in Kept(rs, c) ==> x in rs && Accepts(c, x)
    ensures DistinctKeys(Kept(rs, c))
    ensures forall r :: r in rs && Accepts(c, r) ==> Key(r) in KeysOf(Kept(rs, c))
  {
    if rs != [] {
      var front := rs[..|rs| - 1];
      var r := rs[|rs| - 1];
      KeptProperties(front, c);
      var prev := Kept(front, c);
      assert forall x :: x in front ==> x in rs;
      if Key(r) !in KeysOf(prev) && Accepts(c, r) {
        var k := prev + [r];
        forall i, j | 0 <= i < j < |k| ensures Key(k[i]) != Key(k[j]) {
          if j == |prev| {
            assert k[i] in prev;
          } else {
            assert k[i] == prev[i] && k[j] == prev[j];
          }
        }
        assert KeysOf(k) == KeysOf(prev) + {Key(r)};
      }
      forall x | x in rs && Accepts(c, x) ensures Key(x) in KeysOf(Kept(rs, c)) {
        if x != r {
          assert x in front;
        }
        assert KeysOf(prev) <= KeysOf(Kept(rs, c));
      }
    }
  }

  /** The first accepted resource with a given key is the one kept. */
  lemma {:induction false} KeptFirst(rs: seq<Resource>, c: Criterion, i: int)
    requires 0 <= i < |rs| && Accepts(c, rs[i])
    requires forall j :: 0 <= j < i && Accepts(c, rs[j]) ==> Key(rs[j]) != Key(rs[i])
    ensures rs[i] in Kept(rs, c)
  {
    var front := rs[..|rs| - 1];
    if i == |rs| - 1 {
      KeptProperties(front, c);
      forall x | x in Kept(front, c) ensures Key(x) != Key(rs[i]) {
        var j :| 0 <= j < |front| && front[j] == x;
        assert rs[j] == x;
      }
    } else {
      forall j | 0 <= j < i && Accepts(c, front[j]) ensures Key(front[j]) != Key(front[i]) {
        assert front[j] == rs[j];
      }
      KeptFirst(front, c, i);
    }
  }

  // ---- projections and permutations ----

  function ResourcesOf(ms: seq<Match>): seq<Resource> {
    if ms == [] then [] else ResourcesOf(ms[..|ms| - 1]) + [ms[|ms| - 1].resource]
  }

  lemma {:induction false} ResourcesOfAppend(a: seq<Match>, b: seq<Match>)
    ensures ResourcesOf(a + b) == ResourcesOf(a) + ResourcesOf(b)
    decreases |b|
  {
    if b == [] {
      assert a + b == a;
    } else {
      var b' := b[..|b| - 1];
      assert (a + b)[..|a + b| - 1] == a + b';
      ResourcesOfAppend(a, b');
    }
  }

  /** Taking one match out takes its resource out of the projection. */
  lemma {:induction false} ResourcesOfRemove(t: seq<Match>, j: int)
    requires 0 <= j < |t|
    ensures multiset(ResourcesOf(t)) == multiset(ResourcesOf(t[..j] + t[j + 1..])) + multiset{t[j].resource}
  {
    assert t == t[..j] + [t[j]] + t[j + 1..];
    ResourcesOfAppend(t[..j] + [t[j]], t[j + 1..]);
    ResourcesOfAppend(t[..j], [t[j]]);
    ResourcesOfAppend(t[..j], t[j + 1..]);
    assert ResourcesOf([t[j]]) == [t[j].resource] by {
      assert [t[j]][..0] == [];
    }
  }

  lemma {:induction false} ResourcesOfPermutation(s: seq<Match>, t: seq<Match>)
    requires multiset(s) == multiset(t)
    ensures multiset(ResourcesOf(s)) == multiset(ResourcesOf(t))
    decreases |s|
  {
    if s == [] {
      assert |t| == |multiset(t)| == 0;
    } else {
      var x := s[|s| - 1];
      var s' := s[..|s| - 1];
      assert s == s' + [x];
      assert x in multiset(t);
      var j :| 0 <= j < |t| && t[j] == x;
      var t' := t[..j] + t[j + 1..];
      assert t == t[..j] + [x] + t[j + 1..];
      assert multiset(t') == multiset(t) - multiset{x};
      ResourcesOfPermutation(s', t');
      ResourcesOfRemove(t, j);
    }
  }

  lemma {:induction false} ResourcesOfIndex(ms: seq<Match>, i: int)
    requires 0 <= i < |ms|
    ensures |ResourcesOf(ms)| == |ms| && ResourcesOf(ms)[i] == ms[i].resource
  {
    ResourcesOfLength(ms);
    if i < |ms| - 1 {
      ResourcesOfIndex(ms[..|ms| - 1], i);
    }
  }

  lemma {:induction false} ResourcesOfLength(ms: seq<Match>)
    ensures |ResourcesOf(ms)| == |ms|
  {
    if ms != [] {
      ResourcesOfLength(ms[..|ms| - 1]);
    }
  }

  /** Two equal entries at different positions occur at least twice. */
  lemma {:induction false} RepeatedEntry(s: seq<Resource>, i: int, j: int)
    requires 0 <= i < j < |s| && s[i] == s[j]
    ensures multiset(s)[s[i]] >= 2
  {
    assert s == s[..j] + [s[j]] + s[j + 1..];
    assert s[i] in multiset(s[..j]);
  }

  /** An entry occurring at least twice has two positions. */
  lemma {:induction false} TwoPositions(s: seq<Resource>, x: Resource) returns (p: int, q: int)
    requires multiset(s)[x] >= 2
    ensures 0 <= p < q < |s| && s[p] == x && s[q] == x
  {
    assert x in multiset(s);
    var k :| 0 <= k < |s| && s[k] == x;
    var rest := s[..k] + s[k + 1..];
    assert s == s[..k] + [x] + s[k + 1..];
    assert multiset(rest)[x] >= 1;
    assert x in multiset(rest);
    var m :| 0 <= m < |rest| && rest[m] == x;
    if m < k {
      assert rest[m] == s[m];
      p, q := m, k;
    } else {
      assert rest[m] == s[m + 1];
      p, q := k, m + 1;
    }
  }

  /** Distinct keys survive any permutation. */
  lemma {:induction false} DistinctKeysPermutation(a: seq<Resource>, b: seq<Resource>)
    requires multiset(a) == multiset(b) && DistinctKeys(a)
    ensures DistinctKeys(b)
  {
    forall i, j | 0 <= i < j < |b| ensures Key(b[i]) != Key(b[j]) {
      assert b[i] in multiset(a) && b[j] in multiset(a);
      if b[i] == b[j] {
        RepeatedEntry(b, i, j);
        var p, q := TwoPositions(a, b[i]);
      } else {
        var p :| 0 <= p < |a| && a[p] == b[i];
        var q :| 0 <= q < |a| && a[q] == b[j];
        if p < q {
          assert Key(a[p]) != Key(a[q]);
        } else {
          assert Key(a[q]) != Key(a[p]);
        }
      }
    }
  }

  /** Two key-distinct sequences with no key in common concatenate to a key-distinct one. */
  lemma {:induction false} DistinctKeysAppend(a: seq<Resource>, b: seq<Resource>)
    requires DistinctKeys(a) && DistinctKeys(b)
    requires forall r :: r in b ==> Key(r) !in KeysOf(a)
    ensures DistinctKeys(a + b)
  {
    forall i, j | 0 <= i < j < |a + b| ensures Key((a + b)[i]) != Key((a + b)[j]) {
      if j < |a| {
        assert (a + b)[i] == a[i] && (a + b)[j] == a[j];
      } else if i >= |a| {
        assert (a + b)[i] == b[i - |a|] && (a + b)[j] == b[j - |a|];
      } else {
        assert (a + b)[i] == a[i] && (a + b)[j] == b[j - |a|];
        assert b[j - |a|] in b;
      }
    }
  }

  /** The resources of the matches, in order. */
  method ResourcesOfMatches(ms: seq<Match>) returns (rs: seq<Resource>)
    ensures rs == ResourcesOf(ms)
  {
    rs := [];
    for i := 0 to |ms|
      invariant rs == ResourcesOf(ms[..i])
    {
      assert ms[..i + 1] == ms[..i] + [ms[i]];
      ResourcesOfSnoc(ms[..i], ms[i]);
      rs := rs + [ms[i].resource];
    }
    assert ms[..|ms|] == ms;
  }

  // ---- the scans ----

  /** A match carries the scorer's confidence and reasons for its resource. */
  predicate Scored(m: Match, ns: string) {
    m.confidence == ScoreConfidence(m.resource, ns) && multiset(m.reasons) == FiredReasons(m.resource, ns)
  }

  predicate AllScored(ms: seq<Match>, ns: string) {
    forall k :: 0 <= k < |ms| ==> Scored(ms[k], ns)
  }

  /** Keeping one more resource extends the kept sequence by it. */
  lemma {:induction false} KeptSnoc(seen: seq<Resource>, r: Resource, c: Criterion)
    ensures Kept(seen + [r], c) ==
      if Key(r) !in KeysOf(Kept(seen, c)) && Accepts(c, r) then Kept(seen, c) + [r] else Kept(seen, c)
  {
    assert (seen + [r])[..|seen|] == seen;
  }

  lemma {:induction false} ResourcesOfSnoc(ms: seq<Match>, m: Match)
    ensures ResourcesOf(ms + [m]) == ResourcesOf(ms) + [m.resource]
  {
    assert (ms + [m])[..|ms|] == ms;
  }

  lemma {:induction false} KeysOfSnoc(rs: seq<Resource>, r: Resource)
    ensures KeysOf(rs + [r]) == KeysOf(rs) + {Key(r)}
  {
  }

  lemma {:induction false} PrefixSnoc(xs: seq<Resource>, items: seq<Resource>, j: int)
    requires 0 <= j < |items|
    ensures xs + items[..j + 1] == (xs + items[..j]) + [items[j]]
  {
    assert items[..j + 1] == items[..j] + [items[j]];
  }

  lemma {:induction false} ListingSnoc(store: Store, types: seq<TypeDescriptor>, i: int)
    requires 0 <= i < |types|
    ensures Listing(store, types[..i + 1]) == Listing(store, types[..i]) + ListOf(store, types[i])
  {
    assert types[..i + 1][..i] == types[..i];
  }

  /** Keeping an accepted resource with a new key extends both the kept sequence and the key set. */
  lemma {:induction false} KeepStep(seen: seq<Resource>, item: Resource, c: Criterion, ms: seq<Match>, m: Match)
    requires ResourcesOf(ms) == Kept(seen, c) && Key(item) !in KeysOf(ResourcesOf(ms))
    requires Accepts(c, item) && m.resource == item
    ensures ResourcesOf(ms + [m]) == Kept(seen + [item], c)
    ensures KeysOf(ResourcesOf(ms + [m])) == KeysOf(ResourcesOf(ms)) + {Key(item)}
  {
    KeptSnoc(seen, item, c);
    ResourcesOfSnoc(ms, m);
    KeysOfSnoc(ResourcesOf(ms), item);
  }

  /** A rejected resource, or one whose key was kept already, leaves the kept sequence as it is. */
  lemma {:induction false} SkipStep(seen: seq<Resource>, item: Resource, c: Criterion, ms: seq<Match>)
    requires ResourcesOf(ms) == Kept(seen, c)
    requires Key(item) in KeysOf(ResourcesOf(ms)) || !Accepts(c, item)
    ensures ResourcesOf(ms) == Kept(seen + [item], c)
  {
    KeptSnoc(seen, item, c);
  }

  lemma {:induction false} AllScoredSnoc(ms: seq<Match>, m: Match, ns: string)
    requires AllScored(ms, ns) && Scored(m, ns)
    ensures AllScored(ms + [m], ns)
  {
    assert forall k :: 0 <= k < |ms| ==> (ms + [m])[k] == ms[k];
  }

  /** One item of the namespace scan: skipped when its key was already kept, scored otherwise. */
  method ConsiderForNamespace(ghost seen: seq<Resource>, item: Resource, ns: string, ms: seq<Match>, found: set<string>)
    returns (ms': seq<Match>, found': set<string>)
    requires ResourcesOf(ms) == Kept(seen, ForNamespace(ns)) && found == KeysOf(ResourcesOf(ms))
    requires AllScored(ms, ns)
    ensures ResourcesOf(ms') == Kept(seen + [item], ForNamespace(ns)) && found' == KeysOf(ResourcesOf(ms'))
    ensures AllScored(ms', ns)
  {
    ms', found' := ms, found;
    if Key(item) in found {
      SkipStep(seen, item, ForNamespace(ns), ms);
    } else {
      var reasons, confidence := EvaluateResourceMatch(item, ns);
      if confidence > 0.3 {
        var m := Match(item, confidence, reasons);
        KeepStep(seen, item, ForNamespace(ns), ms, m);
        AllScoredSnoc(ms, m, ns);
        ms' := ms + [m];
        found' := found + {Key(item)};
      } else {
        SkipStep(seen, item, ForNamespace(ns), ms);
      }
    }
  }

  /** The first pass of the namespace scan: one scored match per kept resource, in visiting order. */
  method CollectForNamespace(store: Store, types: seq<TypeDescriptor>, ns: string) returns (ms: seq<Match>)
    ensures ResourcesOf(ms) == Kept(Listing(store, types), ForNamespace(ns))
    ensures forall k :: 0 <= k < |ms| ==> Scored(ms[k], ns)
  {
    var c := ForNamespace(ns);
    ms := [];
    var found: set<string> := {};
    for i := 0 to |types|
      invariant ResourcesOf(ms) == Kept(Listing(store, types[..i]), c)
      invariant found == KeysOf(ResourcesOf(ms))
      invariant AllScored(ms, ns)
    {
      // A collection that cannot be listed contributes no items.
      var items := ListOf(store, types[i]);
      assert Listing(store, types[..i]) + items[..0] == Listing(store, types[..i]);
      for j := 0 to |items|
        invariant ResourcesOf(ms) == Kept(Listing(store, types[..i]) + items[..j], c)
        invariant found == KeysOf(ResourcesOf(ms))
        invariant AllScored(ms, ns)
      {
        ghost var seen := Listing(store, types[..i]) + items[..j];
        PrefixSnoc(Listing(store, types[..i]), items, j);
        ms, found := ConsiderForNamespace(seen, items[j], ns, ms, found);
      }
      assert items[..|items|] == items;
      ListingSnoc(store, types, i);
    }
    assert types[..|types|] == types;
  }

  /**
   * The namespace scan without the handler's state: the kept resources,
   * each with its confidence and reasons, highest confidence first, and no
   * `kind/name` key twice.
   */
  method ScanForNamespace(store: Store, types: seq<TypeDescriptor>, ns: string) returns (matches: seq<Match>)
    ensures NonIncreasing(matches)
    ensures multiset(ResourcesOf(matches)) == multiset(Kept(Listing(store, types), ForNamespace(ns)))
    ensures forall k :: 0 <= k < |matches| ==> Scored(matches[k], ns)
    ensures DistinctKeys(ResourcesOf(matches))
  {
    var ms := CollectForNamespace(store, types, ns);
    matches := SortedCopy(ms);
    ResourcesOfPermutation(ms, matches);
    forall k | 0 <= k < |matches| ensures Scored(matches[k], ns) {
      assert matches[k] in multiset(ms);
    }
    KeptProperties(Listing(store, types), ForNamespace(ns));
    DistinctKeysPermutation(ResourcesOf(ms), ResourcesOf(matches));
  }

  /** The workload scan: the kept resources in visiting order. */
  method ScanForWorkload(store: Store, types: seq<TypeDescriptor>, workload: string) returns (rs: seq<Resource>)
    ensures rs == Kept(Listing(store, types), ForWorkload(workload))
  {
    var c := ForWorkload(workload);
    rs := [];
    var found: set<string> := {};
    for i := 0 to |types|
      invariant rs == Kept(Listing(store, types[..i]), c)
      invariant found == KeysOf(rs)
    {
      var items := ListOf(store, types[i]);
      assert Listing(store, types[..i]) + items[..0] == Listing(store, types[..i]);
      for j := 0 to |items|
        invariant rs == Kept(Listing(store, types[..i]) + items[..j], c)
        invariant found == KeysOf(rs)
      {
        var item := items[j];
        ghost var seen := Listing(store, types[..i]) + items[..j];
        PrefixSnoc(Listing(store, types[..i]), items, j);
        KeptSnoc(seen, item, c);
        if Key(item) !in found && IsResourceForWorkload(item, workload) {
          KeysOfSnoc(rs, item);
          rs := rs + [item];
          found := found + {Key(item)};
        }
      }
      assert items[..|items|] == items;
      ListingSnoc(store, types, i);
    }
    assert types[..|types|] == types;
  }
}
