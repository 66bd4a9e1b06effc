/**
 * Kind-specific extraction of network addresses from a resource
 * (`extractIPAddresses`): compute instances, SQL instances, Redis
 * instances, Spanner instances, and the status fallback for every other kind.
 */
module Extraction {
  import opened Wrappers
  import opened GoStrings
  import opened Resources
  import opened IPAddr

  /** The branch of the kind switch a resource takes, tried in this order. */
  datatype Family = ComputeInstance | SqlInstance | RedisInstance | SpannerInstance | OtherKind

  function FamilyOf(r: Resource): Family {
    var api := r.ApiVersion();
    if r.kind == "Instance" && Contains(api, "compute.gcp.upbound.io") then ComputeInstance
    else if r.kind == "DatabaseInstance" && Contains(api, "sql.gcp.upbound.io") then SqlInstance
    else if r.kind == "Instance" && Contains(api, "redis.gcp.upbound.io") then RedisInstance
    else if r.kind == "Instance" && Contains(api, "spanner.gcp.upbound.io") then SpannerInstance
    else OtherKind
  }

  /**
   * The string fields of `m` named in `fields`, in that order, that are
   * non-empty and, when `validate`, look like an address.
   */
  function FieldValues(m: map<string, Doc>, fields: seq<string>, validate: bool): seq<string> {
    if fields == [] then []
    else
      var f := fields[|fields| - 1];
      FieldValues(m, fields[..|fields| - 1], validate) +
        (match StrField(m, f)
         case Some(s) => if s != "" && (!validate || LooksLikeIP(s)) then [s] else []
         case None => [])
  }

  /** `f` applied to every element, results concatenated in order. */
  function Concat<T>(xs: seq<T>, f: T -> seq<string>): seq<string> {
    if xs == [] then [] else Concat(xs[..|xs| - 1], f) + f(xs[|xs| - 1])
  }

  // ---- compute instances ----

  const ComputeDirectFields: seq<string> := ["ipAddress", "privateIpAddress", "publicIpAddress"]
  const InterfaceFields: seq<string> := ["networkIP", "ipAddress"]

  function AccessConfigIPs(ac: Doc): seq<string> {
    if ac.Obj? then FieldValues(ac.fields, ["natIP"], false) else []
  }

  function InterfaceIPs(ni: Doc): seq<string> {
    if ni.Obj? then
      FieldValues(ni.fields, InterfaceFields, false) +
        (match ListField(ni.fields, "accessConfigs")
         case Some(acs) => Concat(acs, AccessConfigIPs)
         case None => [])
    else []
  }

  function ComputeIPs(fp: map<string, Doc>): seq<string> {
    FieldValues(fp, ComputeDirectFields, false) +
      (match ListField(fp, "networkInterfaces")
       case Some(nis) => Concat(nis, InterfaceIPs)
       case None => [])
  }

  // ---- Redis instances ----

  function RedisIPs(fp: map<string, Doc>): seq<string> {
    FieldValues(fp, ["host"], false) +
      (match StrField(fp, "authString")
       case Some(a) => if a != "" then ConnStringIPs(a) else []
       case None => [])
  }

  // ---- SQL instances ----

  const SqlConnectionFields: seq<string> := ["connectionName", "host", "endpoint", "uri", "connectionString"]

  /** The addresses harvested from the non-empty connection-string fields named in `fields`, in order. */
  function ConnFieldIPs(fp: map<string, Doc>, fields: seq<string>): seq<string> {
    if fields == [] then []
    else ConnFieldIPs(fp, fields[..|fields| - 1]) + ConnFieldPart(fp, fields[|fields| - 1])
  }

  /** The addresses harvested from one field, when it holds a non-empty string. */
  function ConnFieldPart(fp: map<string, Doc>, field: string): seq<string> {
    match StrField(fp, field)
    case Some(s) => if s != "" then ConnStringIPs(s) else []
    case None => []
  }

  lemma {:induction false} ConnFieldIPsSnoc(fp: map<string, Doc>, fields: seq<string>, i: int)
    requires 0 <= i < |fields|
    ensures ConnFieldIPs(fp, fields[..i + 1]) == ConnFieldIPs(fp, fields[..i]) + ConnFieldPart(fp, fields[i])
  {
    assert fields[..i + 1][..i] == fields[..i];
  }

  /** The string values under the keys `ks` of `m` that look like addresses. */
  function StrIPs(m: map<string, Doc>, ks: set<string>): set<string> {
    set k | k in ks && k in m && m[k].Str? && LooksLikeIP(m[k].s) :: m[k].s
  }

  /** The address-like string values one level below the object values under the keys `ks`. */
  function NestedIPs(fp: map<string, Doc>, ks: set<string>): set<string> {
    set k, x | k in ks && k in fp && fp[k].Obj? && x in StrIPs(fp[k].fields, fp[k].fields.Keys) :: x
  }

  /** What `checkIPFields` finds in `forProvider`: first- and second-level address-like strings. */
  function FieldIPSet(fp: map<string, Doc>): set<string> {
    StrIPs(fp, fp.Keys) + NestedIPs(fp, fp.Keys)
  }

  function SqlIPSet(fp: map<string, Doc>): set<string> {
    FieldIPSet(fp) + Elems(ConnFieldIPs(fp, SqlConnectionFields))
  }

  // ---- every other kind: status.atProvider ----

  const StatusFields: seq<string> := ["ipAddress", "ip", "address", "host", "endpoint"]
  const AddressEntryFields: seq<string> := ["ip", "ipAddress", "address"]

  function AddressEntryIPs(a: Doc): seq<string> {
    if a.Obj? then FieldValues(a.fields, AddressEntryFields, true)
    else if a.Str? && LooksLikeIP(a.s) then [a.s]
    else []
  }

  function StatusIPs(ap: map<string, Doc>): seq<string> {
    FieldValues(ap, StatusFields, true) +
      (match ListField(ap, "addresses")
       case Some(addrs) => Concat(addrs, AddressEntryIPs)
       case None => [])
  }

  /** The addresses in extraction order, for every branch whose order is fixed (all but SQL). */
  function OrderedAddresses(r: Resource): seq<string> {
    match FamilyOf(r)
    case ComputeInstance => (match r.ForProvider() case Some(fp) => ComputeIPs(fp) case None => [])
    case RedisInstance => (match r.ForProvider() case Some(fp) => RedisIPs(fp) case None => [])
    case OtherKind => (match r.AtProvider() case Some(ap) => StatusIPs(ap) case None => [])
    case _ => []
  }

  /** The set of addresses extracted from a resource. */
  function AddressSet(r: Resource): set<string> {
    if FamilyOf(r) == SqlInstance then
      (match r.ForProvider() case Some(fp) => SqlIPSet(fp) case None => {})
    else Elems(OrderedAddresses(r))
  }

  // ---- the extractor ----

  method CollectFieldValues(m: map<string, Doc>, fields: seq<string>, validate: bool) returns (out: seq<string>)
    ensures out == FieldValues(m, fields, validate)
  {
    out := [];
    for i := 0 to |fields|
      invariant out == FieldValues(m, fields[..i], validate)
    {
      match StrField(m, fields[i]) {
        case Some(s) =>
          if s != "" && (!validate || LooksLikeIP(s)) {
            out := out + [s];
          }
        case None =>
      }
      assert fields[..i + 1][..i] == fields[..i];
    }
    assert fields[..|fields|] == fields;
  }

  method CollectInterfaceIPs(ni: Doc) returns (out: seq<string>)
    ensures out == InterfaceIPs(ni)
  {
    out := [];
    if ni.Obj? {
      out := CollectFieldValues(ni.fields, InterfaceFields, false);
      match ListField(ni.fields, "accessConfigs") {
        case Some(acs) =>
          ghost var base := out;
          for j := 0 to |acs|
            invariant out == base + Concat(acs[..j], AccessConfigIPs)
          {
            if acs[j].Obj? {
              assert FieldValues(acs[j].fields, ["natIP"], false) == FieldValues(acs[j].fields, ["natIP"][..0], false) +
                (match StrField(acs[j].fields, "natIP") case Some(s) => if s != "" then [s] else [] case None => []);
              match StrField(acs[j].fields, "natIP") {
                case Some(ip) =>
                  if ip != "" {
                    out := out + [ip];
                  }
                case None =>
              }
            }
            assert acs[..j + 1][..j] == acs[..j];
          }
          assert acs[..|acs|] == acs;
        case None =>
      }
    }
  }

  method CollectComputeIPs(fp: map<string, Doc>) returns (out: seq<string>)
    ensures out == ComputeIPs(fp)
  {
    out := CollectFieldValues(fp, ComputeDirectFields, false);
    match ListField(fp, "networkInterfaces") {
      case Some(nis) =>
        ghost var base := out;
        for i := 0 to |nis|
          invariant out == base + Concat(nis[..i], InterfaceIPs)
        {
          var found := CollectInterfaceIPs(nis[i]);
          out := out + found;
          assert nis[..i + 1][..i] == nis[..i];
        }
        assert nis[..|nis|] == nis;
      case None =>
    }
  }

  method CollectRedisIPs(fp: map<string, Doc>) returns (out: seq<string>)
    ensures out == RedisIPs(fp)
  {
    out := CollectFieldValues(fp, ["host"], false);
    match StrField(fp, "authString") {
      case Some(a) =>
        if a != "" {
          var found := ExtractIPsFromConnectionString(a);
          out := out + found;
        }
      case None =>
    }
  }

  lemma {:induction false} StrIPsStep(m: map<string, Doc>, done: set<string>, k: string)
    requires k in m
    ensures StrIPs(m, done + {k}) ==
      StrIPs(m, done) + (if m[k].Str? && LooksLikeIP(m[k].s) then {m[k].s} else {})
  {
  }

  lemma {:induction false} NestedIPsStep(fp: map<string, Doc>, done: set<string>, k: string)
    requires k in fp
    ensures NestedIPs(fp, done + {k}) ==
      NestedIPs(fp, done) + (if fp[k].Obj? then StrIPs(fp[k].fields, fp[k].fields.Keys) else {})
  {
    if fp[k].Obj? {
      forall x | x in StrIPs(fp[k].fields, fp[k].fields.Keys) ensures x in NestedIPs(fp, done + {k}) {
      }
    }
  }

  /** What one key of `forProvider` contributes to the addresses `checkIPFields` collects. */
  function KeyIPs(fp: map<string, Doc>, k: string): set<string>
    requires k in fp
  {
    (if fp[k].Str? && LooksLikeIP(fp[k].s) then {fp[k].s} else {}) +
    (if fp[k].Obj? then StrIPs(fp[k].fields, fp[k].fields.Keys) else {})
  }

  lemma {:induction false} KeyIPsCases(fp: map<string, Doc>, k: string)
    requires k in fp
    ensures fp[k].Str? && LooksLikeIP(fp[k].s) ==> KeyIPs(fp, k) == Elems([fp[k].s])
    ensures fp[k].Obj? ==> KeyIPs(fp, k) == StrIPs(fp[k].fields, fp[k].fields.Keys)
    ensures !(fp[k].Str? && LooksLikeIP(fp[k].s)) && !fp[k].Obj? ==> KeyIPs(fp, k) == Elems([])
  {
    if fp[k].Str? && LooksLikeIP(fp[k].s) {
      assert Elems([fp[k].s]) == {fp[k].s};
    }
  }

  lemma {:induction false} CheckStep(fp: map<string, Doc>, done: set<string>, k: string, out: seq<string>, found: seq<string>)
    requires k in fp && Elems(out) == StrIPs(fp, done) + NestedIPs(fp, done)
    requires Elems(found) == KeyIPs(fp, k)
    ensures Elems(out + found) == StrIPs(fp, done + {k}) + NestedIPs(fp, done + {k})
  {
    StrIPsStep(fp, done, k);
    NestedIPsStep(fp, done, k);
    ElemsAppend(out, found);
  }

  /** The inner walk of `checkIPFields`: the address-like string values of one nested object. */
  method NestedStrIPs(sub: map<string, Doc>) returns (found: seq<string>)
    ensures Elems(found) == StrIPs(sub, sub.Keys)
  {
    found := [];
    var pending := sub.Keys;
    ghost var done: set<string> := {};
    while pending != {}
      invariant pending <= sub.Keys && done == sub.Keys - pending
      invariant Elems(found) == StrIPs(sub, done)
      decreases |pending|
    {
      var sk :| sk in pending;
      StrIPsStep(sub, done, sk);
      MoveKey(sub.Keys, pending, done, sk);
      if sub[sk].Str? && LooksLikeIP(sub[sk].s) {
        ElemsAppend(found, [sub[sk].s]);
        found := found + [sub[sk].s];
      }
      pending := pending - {sk};
      done := done + {sk};
    }
    assert done == sub.Keys;
  }

  /** `checkIPFields(forProvider, "")`; map iteration order is unspecified, so only the set is fixed. */
  method CheckIPFields(fp: map<string, Doc>) returns (out: seq<string>)
    ensures Elems(out) == FieldIPSet(fp)
  {
    out := [];
    var pending := fp.Keys;
    ghost var done: set<string> := {};
    while pending != {}
      invariant pending <= fp.Keys && done == fp.Keys - pending
      invariant Elems(out) == StrIPs(fp, done) + NestedIPs(fp, done)
      decreases |pending|
    {
      var k :| k in pending;
      MoveKey(fp.Keys, pending, done, k);
      var found: seq<string> := [];
      match fp[k] {
        case Str(s) =>
          if LooksLikeIP(s) {
            found := [s];
          }
        case Obj(sub) =>
          found := NestedStrIPs(sub);
        case _ =>
      }
      KeyIPsCases(fp, k);
      CheckStep(fp, done, k, out, found);
      out := out + found;
      pending := pending - {k};
      done := done + {k};
    }
    assert done == fp.Keys;
  }

  /** The addresses one SQL connection field yields. */
  method CollectConnField(fp: map<string, Doc>, field: string) returns (found: seq<string>)
    ensures found == ConnFieldPart(fp, field)
  {
    found := [];
    match StrField(fp, field) {
      case Some(s) =>
        if s != "" {
          found := ExtractIPsFromConnectionString(s);
        }
      case None =>
    }
  }

  /** The loop over the SQL connection fields, in their fixed order. */
  method CollectConnFields(fp: map<string, Doc>, fields: seq<string>) returns (out: seq<string>)
    ensures out == ConnFieldIPs(fp, fields)
  {
    out := [];
    for i := 0 to |fields|
      invariant out == ConnFieldIPs(fp, fields[..i])
    {
      var found := CollectConnField(fp, fields[i]);
      ConnFieldIPsSnoc(fp, fields, i);
      out := out + found;
    }
    assert fields[..|fields|] == fields;
  }

  method CollectSqlIPs(fp: map<string, Doc>) returns (out: seq<string>)
    ensures Elems(out) == SqlIPSet(fp)
  {
    var checked := CheckIPFields(fp);
    var conn := CollectConnFields(fp, SqlConnectionFields);
    out := checked + conn;
    ElemsAppend(checked, conn);
  }

  method CollectStatusIPs(ap: map<string, Doc>) returns (out: seq<string>)
    ensures out == StatusIPs(ap)
  {
    out := CollectFieldValues(ap, StatusFields, true);
    match ListField(ap, "addresses") {
      case Some(addrs) =>
        ghost var base := out;
        for i := 0 to |addrs|
          invariant out == base + Concat(addrs[..i], AddressEntryIPs)
        {
          var a := addrs[i];
          if a.Obj? {
            var found := CollectFieldValues(a.fields, AddressEntryFields, true);
            out := out + found;
          } else if a.Str? && LooksLikeIP(a.s) {
            out := out + [a.s];
          }
          assert addrs[..i + 1][..i] == addrs[..i];
        }
        assert addrs[..|addrs|] == addrs;
      case None =>
    }
  }

  /** `extractIPAddresses`: the addresses of one resource, by the branch its kind and API version select. */
  method ExtractIPAddresses(r: Resource) returns (ips: seq<string>)
    ensures Elems(ips) == AddressSet(r)
    ensures FamilyOf(r) != SqlInstance ==> ips == OrderedAddresses(r)
  {
    ips := [];
    match FamilyOf(r) {
      case ComputeInstance =>
        match r.ForProvider() {
          case Some(fp) => ips := CollectComputeIPs(fp);
          case None =>
        }
      case SqlInstance =>
        match r.ForProvider() {
          case Some(fp) => ips := CollectSqlIPs(fp);
          case None =>
        }
      case RedisInstance =>
        match r.ForProvider() {
          case Some(fp) => ips := CollectRedisIPs(fp);
          case None =>
        }
      case SpannerInstance =>
      case OtherKind =>
        match r.AtProvider() {
          case Some(ap) => ips := CollectStatusIPs(ap);
          case None =>
        }
    }
  }

  // ---- properties ----

  /** Kept field values are non-empty, validated when asked, and come from the named fields. */
  lemma {:induction false} FieldValuesProperties(m: map<string, Doc>, fields: seq<string>, validate: bool)
    ensures forall x :: x in FieldValues(m, fields, validate) ==>
      x != "" && (validate ==> LooksLikeIP(x)) && exists i :: 0 <= i < |fields| && StrField(m, fields[i]) == Some(x)
  {
    if fields != [] {
      var n := |fields| - 1;
      FieldValuesProperties(m, fields[..n], validate);
      forall x | x in FieldValues(m, fields, validate)
        ensures x != "" && (validate ==> LooksLikeIP(x)) && exists i :: 0 <= i < |fields| && StrField(m, fields[i]) == Some(x)
      {
        if x in FieldValues(m, fields[..n], validate) {
          var i :| 0 <= i < n && StrField(m, fields[..n][i]) == Some(x);
          assert fields[i] == fields[..n][i];
        }
      }
    }
  }

  /** Everything in a concatenation comes from one of the elements. */
  lemma {:induction false} ConcatMember<T>(xs: seq<T>, f: T -> seq<string>, y: string)
    requires y in Concat(xs, f)
    ensures exists i :: 0 <= i < |xs| && y in f(xs[i])
  {
    var n := |xs| - 1;
    if y !in f(xs[n]) {
      ConcatMember(xs[..n], f, y);
      var i :| 0 <= i < n && y in f(xs[..n][i]);
      assert xs[i] == xs[..n][i];
    }
  }

  lemma {:induction false} ConnFieldIPsLookLikeIP(fp: map<string, Doc>, fields: seq<string>)
    ensures forall x :: x in ConnFieldIPs(fp, fields) ==> LooksLikeIP(x)
  {
    if fields != [] {
      ConnFieldIPsLookLikeIP(fp, fields[..|fields| - 1]);
      match StrField(fp, fields[|fields| - 1]) {
        case Some(s) => ConnStringIPsValid(s);
        case None =>
      }
    }
  }

  lemma {:induction false} LooksLikeIPNonEmpty(s: string)
    requires LooksLikeIP(s)
    ensures s != ""
  {
    LooksLikeIPChars(s);
  }

  /** A Spanner instance yields no address. */
  lemma SpannerHasNoAddresses(r: Resource)
    requires FamilyOf(r) == SpannerInstance
    ensures AddressSet(r) == {}
  {
  }

  /** The fallback branch keeps only strings that look like addresses. */
  lemma {:induction false} StatusAddressesLookLikeIP(r: Resource)
    requires FamilyOf(r) == OtherKind
    ensures forall x :: x in AddressSet(r) ==> LooksLikeIP(x)
  {
    match r.AtProvider() {
      case Some(ap) =>
        FieldValuesProperties(ap, StatusFields, true);
        forall x | x in StatusIPs(ap) ensures LooksLikeIP(x) {
          if x !in FieldValues(ap, StatusFields, true) {
            var addrs := ListField(ap, "addresses").value;
            ConcatMember(addrs, AddressEntryIPs, x);
            var i :| 0 <= i < |addrs| && x in AddressEntryIPs(addrs[i]);
            if addrs[i].Obj? {
              FieldValuesProperties(addrs[i].fields, AddressEntryFields, true);
            }
          }
        }
      case None =>
    }
  }

  /** The SQL branch keeps only strings that look like addresses, too. */
  lemma {:induction false} SqlAddressesLookLikeIP(r: Resource)
    requires FamilyOf(r) == SqlInstance
    ensures forall x :: x in AddressSet(r) ==> LooksLikeIP(x)
  {
    match r.ForProvider() {
      case Some(fp) => ConnFieldIPsLookLikeIP(fp, SqlConnectionFields);
      case None =>
    }
  }

  /**
   * The compute and Redis branches do not validate: they keep any non-empty
   * string from their direct fields (Redis' `authString` is still harvested).
   */
  lemma {:induction false} ComputeAndRedisAddressesNonEmpty(r: Resource)
    requires FamilyOf(r) == ComputeInstance || FamilyOf(r) == RedisInstance
    ensures forall x :: x in AddressSet(r) ==> x != ""
  {
    match r.ForProvider() {
      case Some(fp) =>
        if FamilyOf(r) == RedisInstance {
          FieldValuesProperties(fp, ["host"], false);
          match StrField(fp, "authString") {
            case Some(a) =>
              ConnStringIPsValid(a);
              forall x | x in ConnStringIPs(a) ensures x != "" { LooksLikeIPNonEmpty(x); }
            case None =>
          }
        } else {
          FieldValuesProperties(fp, ComputeDirectFields, false);
          forall x | x in ComputeIPs(fp) ensures x != "" {
            if x !in FieldValues(fp, ComputeDirectFields, false) {
              var nis := ListField(fp, "networkInterfaces").value;
              ConcatMember(nis, InterfaceIPs, x);
              var i :| 0 <= i < |nis| && x in InterfaceIPs(nis[i]);
              var ni := nis[i].fields;
              FieldValuesProperties(ni, InterfaceFields, false);
              if x !in FieldValues(ni, InterfaceFields, false) {
                var acs := ListField(ni, "accessConfigs").value;
                ConcatMember(acs, AccessConfigIPs, x);
                var j :| 0 <= j < |acs| && x in AccessConfigIPs(acs[j]);
                FieldValuesProperties(acs[j].fields, ["natIP"], false);
              }
            }
          }
        }
      case None =>
    }
  }

  /** A compute instance keeps any non-empty `ipAddress`, address-like or not. */
  lemma {:induction false} ComputeKeepsUnvalidatedString(fp: map<string, Doc>, s: string)
    requires s != ""
    ensures s in ComputeIPs(fp["ipAddress" := Str(s)])
  {
    var m := fp["ipAddress" := Str(s)];
    var f := ComputeDirectFields;
    assert f[..1][..0] == [];
    assert FieldValues(m, f[..1], false) == [s];
    assert f[..2][..1] == f[..1];
    assert f[..3][..2] == f[..2];
    assert f[..3] == f;
    assert FieldValues(m, f, false) == FieldValues(m, f[..1], false) + FieldValues(m, f[..2], false)[1..] + FieldValues(m, f, false)[|FieldValues(m, f[..2], false)|..];
  }
}
