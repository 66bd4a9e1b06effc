/**
 * The data the matching engine works on: nested resource documents, managed
 * resources, their identifiers, ranked matches, and the resource store the
 * engine lists from, fetches from and writes to.
 */
module Resources {
  import opened Wrappers
  import opened GoStrings

  /**
   * A decoded JSON value inside a resource (`interface{}` in the source):
   * a string, a list, an object, or any other scalar (number, bool, null),
   * which every string or map type assertion rejects.
   */
  datatype Doc = Str(s: string) | List(items: seq<Doc>) | Obj(fields: map<string, Doc>) | Scalar

  /** `m[k].(string)` with the `ok` flag folded into the option. */
  function StrField(m: map<string, Doc>, k: string): Option<string> {
    if k in m && m[k].Str? then Some(m[k].s) else None
  }

  /** `m[k].(map[string]interface{})`. */
  function ObjField(m: map<string, Doc>, k: string): Option<map<string, Doc>> {
    if k in m && m[k].Obj? then Some(m[k].fields) else None
  }

  /** `m[k].([]interface{})`. */
  function ListField(m: map<string, Doc>, k: string): Option<seq<Doc>> {
    if k in m && m[k].List? then Some(m[k].items) else None
  }

  /** A watched collection: group, version and plural resource name. */
  datatype TypeDescriptor = TypeDescriptor(group: string, version: string, resource: string)

  /**
   * A managed resource. `labels` is `metadata.labels`; `body` holds the
   * other top-level fields (`spec`, `status`, ...). The group and version are
   * those of the resource's GroupVersionKind.
   */
  datatype Resource = Resource(
    kind: string,
    name: string,
    group: string,
    version: string,
    labels: map<string, string>,
    body: map<string, Doc>)
  {
    /** `apiVersion` as Kubernetes writes it: `group/version`, or just `version` for the core group. */
    function ApiVersion(): string {
      if group == "" then version else group + "/" + version
    }

    /** `spec.forProvider`, when both are objects. */
    function ForProvider(): Option<map<string, Doc>> {
      match ObjField(body, "spec")
      case None => None
      case Some(spec) => ObjField(spec, "forProvider")
    }

    /** `status.atProvider`, when both are objects. */
    function AtProvider(): Option<map<string, Doc>> {
      match ObjField(body, "status")
      case None => None
      case Some(status) => ObjField(status, "atProvider")
    }

    /** `spec.forProvider.labels`, when all three are objects. */
    function ProviderLabels(): Option<map<string, Doc>> {
      match ForProvider()
      case None => None
      case Some(fp) => ObjField(fp, "labels")
    }
  }

  /** A lightweight handle on a resource, kept in the network index. */
  datatype ResourceIdentifier = ResourceIdentifier(kind: string, name: string, group: string, version: string)

  function IdentifierOf(r: Resource): ResourceIdentifier {
    ResourceIdentifier(r.kind, r.name, r.group, r.version)
  }

  /** The de-duplication key `kind/name`. */
  function Key(r: Resource): string {
    r.kind + "/" + r.name
  }

  function IdKey(id: ResourceIdentifier): string {
    id.kind + "/" + id.name
  }

  /** A candidate association of a resource with a namespace. */
  datatype Match = Match(resource: Resource, confidence: real, reasons: seq<string>)

  /** The collection an identifier is fetched from: the lowercased kind plus `s`. */
  function CollectionOf(kind: string, group: string, version: string): TypeDescriptor {
    TypeDescriptor(group, version, ToLower(kind) + "s")
  }

  datatype ObjectKey = ObjectKey(collection: TypeDescriptor, name: string)

  /**
   * The resource store behind the dynamic client. Listing a collection
   * absent from `lists` fails; fetching a key absent from `objects` fails;
   * updating a key in `frozen` (or a vanished one) fails.
   */
  datatype Store = Store(
    lists: map<TypeDescriptor, seq<Resource>>,
    objects: map<ObjectKey, Resource>,
    frozen: set<ObjectKey>)

  function Fetch(store: Store, key: ObjectKey): Option<Resource> {
    if key in store.objects then Some(store.objects[key]) else None
  }

  /** The items of one collection; a failed list contributes nothing. */
  function ListOf(store: Store, t: TypeDescriptor): seq<Resource> {
    if t in store.lists then store.lists[t] else []
  }

  /** Everything the scans visit, collection by collection, in order. */
  function Listing(store: Store, types: seq<TypeDescriptor>): seq<Resource> {
    if types == [] then [] else Listing(store, types[..|types| - 1]) + ListOf(store, types[|types| - 1])
  }

  /** Moving one pending key to the scanned ones keeps the partition of the keys. */
  lemma {:induction false} MoveKey(all: set<string>, pending: set<string>, done: set<string>, k: string)
    requires pending <= all && done == all - pending && k in pending
    ensures pending - {k} <= all && done + {k} == all - (pending - {k})
    ensures |pending - {k}| < |pending|
  {
  }

  /** The elements of a sequence, as a set. */
  function Elems<T>(s: seq<T>): set<T> {
    set x | x in s
  }

  lemma {:induction false} ElemsAppend<T>(a: seq<T>, b: seq<T>)
    ensures Elems(a + b) == Elems(a) + Elems(b)
  {
    forall x | x in a + b ensures x in a || x in b {
    }
  }
}
