/**
 * Network-based detection: the index from IP address to the resources that
 * carry it (`BuildNetworkMap`), and the pass over pod IPs that adds a match
 * for every indexed resource not matched yet
 * (`FindCrossplaneResourcesForNamespaceWithNetworking`).
 */
module Network {
  import opened Wrappers
  import opened Resources
  import opened Extraction
  import opened Resolver

  type Index = map<string, seq<ResourceIdentifier>>

  /** Every address of every given resource. */
  function AllAddresses(rs: seq<Resource>): set<string> {
    set r, ip | r in rs && ip in AddressSet(r) :: ip
  }

  /** The identifiers of the given resources that carry `ip`. */
  function IdsAt(rs: seq<Resource>, ip: string): set<ResourceIdentifier> {
    set r | r in rs && ip in AddressSet(r) :: IdentifierOf(r)
  }

  /** `index` maps exactly the addresses of `rs`, each to the identifiers of the resources carrying it. */
  predicate Indexes(index: Index, rs: seq<Resource>) {
    index.Keys == AllAddresses(rs) && forall ip :: ip in index ==> Elems(index[ip]) == IdsAt(rs, ip)
  }

  lemma {:induction false} AddressesSnoc(rs: seq<Resource>, r: Resource)
    ensures AllAddresses(rs + [r]) == AllAddresses(rs) + AddressSet(r)
    ensures forall ip :: IdsAt(rs + [r], ip) == IdsAt(rs, ip) + (if ip in AddressSet(r) then {IdentifierOf(r)} else {})
  {
    assert forall x :: x in rs + [r] <==> x in rs || x == r;
  }

  // ---- building the index ----

  /** `index` is the index of `seen` with `id` filed, in addition, under the addresses in `done`. */
  predicate PartlyIndexed(index: Index, seen: seq<Resource>, id: ResourceIdentifier, done: set<string>) {
    index.Keys == AllAddresses(seen) + done &&
    forall ip :: ip in index ==> Elems(index[ip]) == IdsAt(seen, ip) + (if ip in done then {id} else {})
  }

  lemma {:induction false} ElemsSnoc<T>(s: seq<T>, k: int)
    requires 0 <= k < |s|
    ensures Elems(s[..k + 1]) == Elems(s[..k]) + {s[k]}
  {
    assert s[..k + 1] == s[..k] + [s[k]];
  }

  lemma {:induction false} FileOne(index: Index, seen: seq<Resource>, id: ResourceIdentifier, done: set<string>, ip: string)
    requires PartlyIndexed(index, seen, id, done)
    ensures PartlyIndexed(index[ip := (if ip in index then index[ip] else []) + [id]], seen, id, done + {ip})
  {
    var entries := if ip in index then index[ip] else [];
    assert Elems(entries + [id]) == Elems(entries) + {id};
    if ip !in index {
      assert ip !in AllAddresses(seen);
      assert IdsAt(seen, ip) == {};
    }
  }

  lemma {:induction false} FileStep(index: Index, seen: seq<Resource>, id: ResourceIdentifier, ips: seq<string>, k: int)
    requires 0 <= k < |ips| && PartlyIndexed(index, seen, id, Elems(ips[..k]))
    ensures var ip := ips[k];
      PartlyIndexed(index[ip := (if ip in index then index[ip] else []) + [id]], seen, id, Elems(ips[..k + 1]))
  {
    ElemsSnoc(ips, k);
    FileOne(index, seen, id, Elems(ips[..k]), ips[k]);
  }

  lemma {:induction false} FileFinish(index: Index, seen: seq<Resource>, item: Resource)
    requires PartlyIndexed(index, seen, IdentifierOf(item), AddressSet(item))
    ensures Indexes(index, seen + [item])
  {
    AddressesSnoc(seen, item);
  }

  /** The loop of `BuildNetworkMap` over one resource's addresses: `id` appended under each of `ips`. */
  method FileUnder(ghost seen: seq<Resource>, id: ResourceIdentifier, ips: seq<string>, index: Index) returns (index': Index)
    requires PartlyIndexed(index, seen, id, {})
    ensures PartlyIndexed(index', seen, id, Elems(ips))
  {
    index' := index;
    assert Elems(ips[..0]) == {};
    for k := 0 to |ips|
      invariant PartlyIndexed(index', seen, id, Elems(ips[..k]))
    {
      var ip := ips[k];
      FileStep(index', seen, id, ips, k);
      index' := index'[ip := (if ip in index' then index'[ip] else []) + [id]];
    }
    assert ips[..|ips|] == ips;
  }

  /** Files one resource under each of its addresses. */
  method AddToIndex(ghost seen: seq<Resource>, item: Resource, index: Index) returns (index': Index)
    requires Indexes(index, seen)
    ensures Indexes(index', seen + [item])
  {
    var ips := ExtractIPAddresses(item);
    var id := IdentifierOf(item);
    assert AllAddresses(seen) + {} == AllAddresses(seen);
    index' := FileUnder(seen, id, ips, index);
    FileFinish(index', seen, item);
  }

  /** The index over every listed resource. */
  method IndexResources(store: Store, types: seq<TypeDescriptor>) returns (index: Index)
    ensures Indexes(index, Listing(store, types))
  {
    index := map[];
    for i := 0 to |types|
      invariant Indexes(index, Listing(store, types[..i]))
    {
      var items := ListOf(store, types[i]);
      assert Listing(store, types[..i]) + items[..0] == Listing(store, types[..i]);
      for j := 0 to |items|
        invariant Indexes(index, Listing(store, types[..i]) + items[..j])
      {
        ghost var seen := Listing(store, types[..i]) + items[..j];
        PrefixSnoc(Listing(store, types[..i]), items, j);
        index := AddToIndex(seen, items[j], index);
      }
      assert items[..|items|] == items;
      ListingSnoc(store, types, i);
    }
    assert types[..|types|] == types;
  }

  /** An indexed address belongs to a listed resource, and so does every identifier filed under it. */
  lemma {:induction false} IndexSound(index: Index, rs: seq<Resource>, ip: string, id: ResourceIdentifier)
    requires Indexes(index, rs) && ip in index && id in index[ip]
    ensures exists r :: r in rs && ip in AddressSet(r) && IdentifierOf(r) == id
  {
    assert id in Elems(index[ip]);
  }

  /** Every address of every listed resource is indexed, with that resource filed under it. */
  lemma {:induction false} IndexComplete(index: Index, rs: seq<Resource>, r: Resource, ip: string)
    requires Indexes(index, rs) && r in rs && ip in AddressSet(r)
    ensures ip in index && IdentifierOf(r) in index[ip]
  {
    assert ip in AllAddresses(rs);
    assert IdentifierOf(r) in IdsAt(rs, ip);
    assert IdentifierOf(r) in Elems(index[ip]);
  }

  // ---- the pod-IP pass ----

  /** One identifier filed under a pod IP. */
  datatype Candidate = Candidate(podIP: string, id: ResourceIdentifier)

  function Tagged(ip: string, ids: seq<ResourceIdentifier>): seq<Candidate> {
    if ids == [] then [] else Tagged(ip, ids[..|ids| - 1]) + [Candidate(ip, ids[|ids| - 1])]
  }

  function FiledUnder(ip: string, index: Index): seq<Candidate> {
    if ip in index then Tagged(ip, index[ip]) else []
  }

  /** The candidates in the order the pass visits them: pod IP by pod IP, then in filing order. */
  function Candidates(podIPs: seq<string>, index: Index): seq<Candidate> {
    if podIPs == [] then []
    else Candidates(podIPs[..|podIPs| - 1], index) + FiledUnder(podIPs[|podIPs| - 1], index)
  }

  const NetworkConfidence: real := 0.9

  function NetworkReason(ip: string): string {
    "Network connection detected from pod IP " + ip
  }

  /** Where an identifier is fetched from: its kind lowercased plus `s`, in its own group and version. */
  function IdObjectKey(id: ResourceIdentifier): ObjectKey {
    ObjectKey(CollectionOf(id.kind, id.group, id.version), id.name)
  }

  /**
   * The matches the pass adds and the keys it has seen, starting from the
   * keys of the metadata matches: a candidate whose key was seen is
   * skipped, one that cannot be fetched is skipped, any other adds a match
   * for the fetched resource and marks its identifier's key.
   */
  function NetworkPass(store: Store, cs: seq<Candidate>, found0: set<string>): (seq<Match>, set<string>) {
    if cs == [] then ([], found0)
    else
      var (added, found) := NetworkPass(store, cs[..|cs| - 1], found0);
      var c := cs[|cs| - 1];
      if IdKey(c.id) in found then (added, found)
      else match Fetch(store, IdObjectKey(c.id))
        case None => (added, found)
        case Some(res) => (added + [Match(res, NetworkConfidence, [NetworkReason(c.podIP)])], found + {IdKey(c.id)})
  }

  function NetworkAdded(store: Store, podIPs: seq<string>, index: Index, found0: set<string>): seq<Match> {
    NetworkPass(store, Candidates(podIPs, index), found0).0
  }

  lemma {:induction false} TaggedSnoc(ip: string, ids: seq<ResourceIdentifier>, k: int)
    requires 0 <= k < |ids|
    ensures Tagged(ip, ids[..k + 1]) == Tagged(ip, ids[..k]) + [Candidate(ip, ids[k])]
  {
    assert ids[..k + 1][..k] == ids[..k];
  }

  lemma {:induction false} NetworkPassSnoc(store: Store, cs: seq<Candidate>, c: Candidate, found0: set<string>)
    ensures NetworkPass(store, cs + [c], found0) ==
      var (added, found) := NetworkPass(store, cs, found0);
      if IdKey(c.id) in found then (added, found)
      else match Fetch(store, IdObjectKey(c.id))
        case None => (added, found)
        case Some(res) => (added + [Match(res, NetworkConfidence, [NetworkReason(c.podIP)])], found + {IdKey(c.id)})
  {
    assert (cs + [c])[..|cs|] == cs;
  }

  /** The identifiers filed under one pod IP, in order. */
  method VisitFiled(store: Store, ip: string, ids: seq<ResourceIdentifier>, ghost done: seq<Candidate>, ghost found0: set<string>,
                    added: seq<Match>, found: set<string>)
    returns (added': seq<Match>, found': set<string>)
    requires (added, found) == NetworkPass(store, done, found0)
    ensures (added', found') == NetworkPass(store, done + Tagged(ip, ids), found0)
  {
    added', found' := added, found;
    assert done + Tagged(ip, ids[..0]) == done by {
      assert ids[..0] == [];
    }
    for k := 0 to |ids|
      invariant (added', found') == NetworkPass(store, done + Tagged(ip, ids[..k]), found0)
    {
      var id := ids[k];
      TaggedSnoc(ip, ids, k);
      assert done + Tagged(ip, ids[..k + 1]) == (done + Tagged(ip, ids[..k])) + [Candidate(ip, id)];
      NetworkPassSnoc(store, done + Tagged(ip, ids[..k]), Candidate(ip, id), found0);
      if IdKey(id) !in found' {
        var fetched := Fetch(store, IdObjectKey(id));
        if fetched.Some? {
          added' := added' + [Match(fetched.value, NetworkConfidence, [NetworkReason(ip)])];
          found' := found' + {IdKey(id)};
        }
      }
    }
    assert ids[..|ids|] == ids;
  }

  /** The pod-IP pass: pod IP by pod IP, each identifier filed under it. */
  method NetworkMatches(store: Store, index: Index, podIPs: seq<string>, found0: set<string>) returns (added: seq<Match>)
    ensures added == NetworkAdded(store, podIPs, index, found0)
  {
    added := [];
    var found := found0;
    for i := 0 to |podIPs|
      invariant (added, found) == NetworkPass(store, Candidates(podIPs[..i], index), found0)
    {
      var ip := podIPs[i];
      assert Candidates(podIPs[..i + 1], index) == Candidates(podIPs[..i], index) + FiledUnder(ip, index) by {
        assert podIPs[..i + 1][..i] == podIPs[..i];
      }
      if ip in index {
        added, found := VisitFiled(store, ip, index[ip], Candidates(podIPs[..i], index), found0, added, found);
      } else {
        assert Candidates(podIPs[..i], index) + FiledUnder(ip, index) == Candidates(podIPs[..i], index);
      }
    }
    assert podIPs[..|podIPs|] == podIPs;
  }

  // ---- properties of the pod-IP pass ----

  lemma {:induction false} TaggedMember(ip: string, ids: seq<ResourceIdentifier>, c: Candidate)
    ensures c in Tagged(ip, ids) <==> c.podIP == ip && c.id in ids
  {
    if ids != [] {
      var front := ids[..|ids| - 1];
      TaggedMember(ip, front, c);
      assert ids == front + [ids[|ids| - 1]];
    }
  }

  /** The candidates are exactly the identifiers filed under the pod IPs. */
  lemma {:induction false} CandidatesMember(podIPs: seq<string>, index: Index, c: Candidate)
    ensures c in Candidates(podIPs, index) <==> c.podIP in podIPs && c.podIP in index && c.id in index[c.podIP]
  {
    if podIPs != [] {
      var front := podIPs[..|podIPs| - 1];
      var ip := podIPs[|podIPs| - 1];
      CandidatesMember(front, index, c);
      assert podIPs == front + [ip];
      if ip in index {
        TaggedMember(ip, index[ip], c);
      }
    }
  }

  /** Every added match is a fetched candidate not matched before, at confidence 0.9, with its pod IP as the reason. */
  lemma {:induction false} NetworkPassSound(store: Store, cs: seq<Candidate>, found0: set<string>)
    ensures found0 <= NetworkPass(store, cs, found0).1
    ensures forall m :: m in NetworkPass(store, cs, found0).0 ==>
      exists c :: c in cs && IdKey(c.id) !in found0 && Fetch(store, IdObjectKey(c.id)) == Some(m.resource) &&
        m == Match(m.resource, NetworkConfidence, [NetworkReason(c.podIP)])
  {
    if cs != [] {
      var front := cs[..|cs| - 1];
      NetworkPassSound(store, front, found0);
      assert forall c :: c in front ==> c in cs;
    }
  }

  /** A candidate whose resource can be fetched always ends with its key seen. */
  lemma {:induction false} NetworkPassComplete(store: Store, cs: seq<Candidate>, found0: set<string>)
    ensures forall c :: c in cs && Fetch(store, IdObjectKey(c.id)).Some? ==> IdKey(c.id) in NetworkPass(store, cs, found0).1
  {
    if cs != [] {
      var front := cs[..|cs| - 1];
      NetworkPassComplete(store, front, found0);
      NetworkPassSound(store, front, found0);
      forall c | c in cs && Fetch(store, IdObjectKey(c.id)).Some? ensures IdKey(c.id) in NetworkPass(store, cs, found0).1 {
        if c != cs[|cs| - 1] {
          assert c in front;
        }
      }
    }
  }

  /** Fetching an identifier yields a resource with the identifier's own `kind/name` key. */
  predicate KeepsKey(store: Store, id: ResourceIdentifier) {
    Fetch(store, IdObjectKey(id)).Some? ==> Key(Fetch(store, IdObjectKey(id)).value) == IdKey(id)
  }

  predicate KeepsKeys(store: Store, cs: seq<Candidate>) {
    forall c :: c in cs ==> KeepsKey(store, c.id)
  }

  /**
   * When fetching keeps keys, the seen keys are the initial ones plus those
   * of the added matches, and no key is added twice or added again.
   */
  lemma {:induction false} NetworkPassDistinct(store: Store, cs: seq<Candidate>, found0: set<string>)
    requires KeepsKeys(store, cs)
    ensures var (added, found) := NetworkPass(store, cs, found0);
      found == found0 + KeysOf(ResourcesOf(added)) &&
      DistinctKeys(ResourcesOf(added)) &&
      forall r :: r in ResourcesOf(added) ==> Key(r) !in found0
  {
    if cs != [] {
      var front := cs[..|cs| - 1];
      assert KeepsKeys(store, front) by {
        assert forall c :: c in front ==> c in cs;
      }
      NetworkPassDistinct(store, front, found0);
      var (added, found) := NetworkPass(store, front, found0);
      var c := cs[|cs| - 1];
      if IdKey(c.id) !in found && Fetch(store, IdObjectKey(c.id)).Some? {
        var res := Fetch(store, IdObjectKey(c.id)).value;
        var m := Match(res, NetworkConfidence, [NetworkReason(c.podIP)]);
        assert KeepsKey(store, c.id);
        ResourcesOfSnoc(added, m);
        KeysOfSnoc(ResourcesOf(added), res);
        var rs := ResourcesOf(added);
        forall i, j | 0 <= i < j < |rs + [res]| ensures Key((rs + [res])[i]) != Key((rs + [res])[j]) {
          if j == |rs| {
            assert (rs + [res])[i] in rs;
          } else {
            assert (rs + [res])[i] == rs[i] && (rs + [res])[j] == rs[j];
          }
        }
      }
    }
  }
}
