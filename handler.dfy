/**
 * `CrossplaneHandler`: the mock switch, the IP index and the time it was
 * last built, and the finders that read and refresh them. Time is a
 * nanosecond count passed in by the caller; the zero time of a fresh
 * handler is `None`, which is always stale.
 */
module Handler {
  import opened Wrappers
  import opened Resources
  import opened Sorting
  import opened Resolver
  import opened Network

  /** Thirty minutes, in nanoseconds. */
  const RebuildAfter: int := 30 * 60 * 1_000_000_000

  /** The outcome of the namespace scan, as `ScanForNamespace` promises it. */
  predicate IsNamespaceScan(matches: seq<Match>, store: Store, types: seq<TypeDescriptor>, ns: string) {
    NonIncreasing(matches) &&
    multiset(ResourcesOf(matches)) == multiset(Kept(Listing(store, types), ForNamespace(ns))) &&
    (forall k :: 0 <= k < |matches| ==> Scored(matches[k], ns)) &&
    DistinctKeys(ResourcesOf(matches))
  }

  /** The keys of the metadata matches, gathered before the pod-IP pass. */
  method MatchedKeys(ms: seq<Match>) returns (found: set<string>)
    ensures found == KeysOf(ResourcesOf(ms))
  {
    found := {};
    for i := 0 to |ms|
      invariant found == KeysOf(ResourcesOf(ms[..i]))
    {
      assert ms[..i + 1] == ms[..i] + [ms[i]];
      ResourcesOfSnoc(ms[..i], ms[i]);
      KeysOfSnoc(ResourcesOf(ms[..i]), ms[i].resource);
      found := found + {Key(ms[i].resource)};
    }
    assert ms[..|ms|] == ms;
  }

  class CrossplaneHandler {
    const mockMode: bool
    /** The collections every scan lists, in order. */
    const resourceTypes: seq<TypeDescriptor>
    var resourceIPMap: Index
    var lastNetworkMapBuild: Option<int>

    constructor(mockMode: bool, resourceTypes: seq<TypeDescriptor>)
      ensures this.mockMode == mockMode && this.resourceTypes == resourceTypes
      ensures resourceIPMap == map[] && lastNetworkMapBuild == None
    {
      this.mockMode := mockMode;
      this.resourceTypes := resourceTypes;
      resourceIPMap := map[];
      lastNetworkMapBuild := None;
    }

    /** More than thirty minutes since the last build, or never built. */
    predicate MapStale(now: int)
      reads this
    {
      lastNetworkMapBuild.None? || now - lastNetworkMapBuild.value > RebuildAfter
    }

    /** Replaces the index by one over every listed resource and stamps the time; does nothing in mock mode. */
    method BuildNetworkMap(store: Store, now: int)
      modifies this
      ensures mockMode ==> resourceIPMap == old(resourceIPMap) && lastNetworkMapBuild == old(lastNetworkMapBuild)
      ensures !mockMode ==> Indexes(resourceIPMap, Listing(store, resourceTypes)) && lastNetworkMapBuild == Some(now)
    {
      if mockMode {
        return;
      }
      var index := IndexResources(store, resourceTypes);
      resourceIPMap := index;
      lastNetworkMapBuild := Some(now);
    }

    /** `FindCrossplaneResourcesForNamespaceWithConfidence`: refresh a stale index, then scan. */
    method FindForNamespaceWithConfidence(store: Store, ns: string, now: int) returns (matches: seq<Match>)
      modifies this
      ensures mockMode ==> matches == [] && unchanged(this)
      ensures !mockMode ==> IsNamespaceScan(matches, store, resourceTypes, ns)
      ensures !mockMode && old(MapStale(now)) ==>
        Indexes(resourceIPMap, Listing(store, resourceTypes)) && lastNetworkMapBuild == Some(now)
      ensures !mockMode && !old(MapStale(now)) ==> unchanged(this)
    {
      if mockMode {
        return [];
      }
      if MapStale(now) {
        BuildNetworkMap(store, now);
      }
      matches := ScanForNamespace(store, resourceTypes, ns);
    }

    /**
     * `FindCrossplaneResourcesForNamespace`: the resources of the confidence
     * scan, in its order. `matches` names the scan's result.
     */
    method FindForNamespace(store: Store, ns: string, now: int) returns (rs: seq<Resource>, ghost matches: seq<Match>)
      modifies this
      ensures mockMode ==> rs == [] && unchanged(this)
      ensures !mockMode ==> IsNamespaceScan(matches, store, resourceTypes, ns) && rs == ResourcesOf(matches)
      ensures !mockMode ==> multiset(rs) == multiset(Kept(Listing(store, resourceTypes), ForNamespace(ns))) && DistinctKeys(rs)
      ensures !mockMode && old(MapStale(now)) ==>
        Indexes(resourceIPMap, Listing(store, resourceTypes)) && lastNetworkMapBuild == Some(now)
      ensures !mockMode && !old(MapStale(now)) ==> unchanged(this)
    {
      var scan := FindForNamespaceWithConfidence(store, ns, now);
      matches := scan;
      rs := ResourcesOfMatches(scan);
    }

    /** `FindCrossplaneResourcesForWorkload`: the kept resources in visiting order; nothing in mock mode. */
    method FindForWorkload(store: Store, workload: string) returns (rs: seq<Resource>)
      ensures mockMode ==> rs == []
      ensures !mockMode ==> rs == Kept(Listing(store, resourceTypes), ForWorkload(workload))
    {
      if mockMode {
        return [];
      }
      rs := ScanForWorkload(store, resourceTypes, workload);
    }

    /**
     * `FindCrossplaneResourcesForNamespaceWithNetworking`: the metadata scan,
     * then, when there are pod IPs, a refresh of an empty or stale index and
     * the pod-IP pass, then one sort of everything. `metadata` names the
     * result of the metadata scan.
     */
    method FindForNamespaceWithNetworking(store: Store, ns: string, podIPs: seq<string>, now: int)
      returns (matches: seq<Match>, ghost metadata: seq<Match>)
      modifies this
      ensures mockMode ==> matches == [] && unchanged(this)
      ensures !mockMode ==> IsNamespaceScan(metadata, store, resourceTypes, ns)
      ensures !mockMode && podIPs == [] ==> matches == metadata
      ensures !mockMode && podIPs != [] ==>
        NonIncreasing(matches) &&
        multiset(matches) == multiset(metadata + NetworkAdded(store, podIPs, resourceIPMap, KeysOf(ResourcesOf(metadata))))
      ensures !mockMode && (old(MapStale(now)) || (podIPs != [] && |old(resourceIPMap)| == 0)) ==>
        Indexes(resourceIPMap, Listing(store, resourceTypes)) && lastNetworkMapBuild == Some(now)
      ensures !mockMode && !old(MapStale(now)) && (podIPs == [] || |old(resourceIPMap)| > 0) ==> unchanged(this)
    {
      matches := FindForNamespaceWithConfidence(store, ns, now);
      metadata := matches;
      if |podIPs| == 0 || mockMode {
        return;
      }
      if |resourceIPMap| == 0 || MapStale(now) {
        BuildNetworkMap(store, now);
      }
      var found := MatchedKeys(matches);
      var added := NetworkMatches(store, resourceIPMap, podIPs, found);
      matches := SortedCopy(matches + added);
    }
  }

  // ---- properties of the combined result ----

  /**
   * When fetching keeps keys, the combined result has no `kind/name` key
   * twice: a network match never repeats a metadata match or another
   * network match.
   */
  lemma {:induction false} CombinedDistinct(metadata: seq<Match>, added: seq<Match>, matches: seq<Match>,
                                            store: Store, podIPs: seq<string>, index: Index)
    requires DistinctKeys(ResourcesOf(metadata))
    requires KeepsKeys(store, Candidates(podIPs, index))
    requires added == NetworkAdded(store, podIPs, index, KeysOf(ResourcesOf(metadata)))
    requires multiset(matches) == multiset(metadata + added)
    ensures DistinctKeys(ResourcesOf(matches))
  {
    var a, b := ResourcesOf(metadata), ResourcesOf(added);
    NetworkPassDistinct(store, Candidates(podIPs, index), KeysOf(a));
    ResourcesOfAppend(metadata, added);
    DistinctKeysAppend(a, b);
    ResourcesOfPermutation(metadata + added, matches);
    DistinctKeysPermutation(a + b, ResourcesOf(matches));
  }

  /**
   * When fetching keeps keys, every resource filed under a pod IP that can
   * be fetched appears in the combined result.
   */
  lemma {:induction false} CombinedCoversConnected(metadata: seq<Match>, added: seq<Match>, matches: seq<Match>,
                                                   store: Store, podIPs: seq<string>, index: Index, c: Candidate)
    requires KeepsKeys(store, Candidates(podIPs, index))
    requires added == NetworkAdded(store, podIPs, index, KeysOf(ResourcesOf(metadata)))
    requires multiset(matches) == multiset(metadata + added)
    requires c.podIP in podIPs && c.podIP in index && c.id in index[c.podIP]
    requires Fetch(store, IdObjectKey(c.id)).Some?
    ensures IdKey(c.id) in KeysOf(ResourcesOf(matches))
  {
    var cs := Candidates(podIPs, index);
    var found0 := KeysOf(ResourcesOf(metadata));
    CandidatesMember(podIPs, index, c);
    NetworkPassComplete(store, cs, found0);
    NetworkPassDistinct(store, cs, found0);
    ResourcesOfAppend(metadata, added);
    ResourcesOfPermutation(metadata + added, matches);
    assert forall r :: r in ResourcesOf(metadata + added) <==> r in ResourcesOf(matches) by {
      forall r ensures r in ResourcesOf(metadata + added) <==> r in ResourcesOf(matches) {
        assert r in ResourcesOf(metadata + added) <==> r in multiset(ResourcesOf(metadata + added));
        assert r in ResourcesOf(matches) <==> r in multiset(ResourcesOf(matches));
      }
    }
  }
}
