/**
 The data model of a resource object (apiserver/resource/object.go): identities,
 object metadata, the spec/status payload, and the per-type capability record that
 stands for the optional Go interfaces a concrete type may implement.
 */
module Objects {
  import opened Wrappers

  /** An (API group, lower-case plural resource name) pair. */
  datatype GroupResource = GroupResource(group: string, resource: string)

  /** An (API group, version) pair. */
  datatype GroupVersion = GroupVersion(group: string, version: string)

  /** The subset of object metadata this core reads or carries. */
  datatype ObjectMeta = ObjectMeta(
    name: string,
    namespace: string,
    labels: map<string, string>,
    annotations: map<string, string>,
    resourceVersion: string)

  /** Spec and status payloads are opaque to the core. */
  type Payload = string

  /** The instance data of an object: metadata, spec and status. */
  datatype Data = Data(meta: ObjectMeta, spec: Payload, status: Payload)

  /** The request context, threaded through but never interpreted by the core. */
  datatype Context = Context(values: map<string, string>)

  /** One field validation error. */
  datatype FieldError = FieldError(field: string, badValue: string, detail: string)
  type ErrorList = seq<FieldError>

  datatype TableRow = TableRow(cells: seq<string>)
  datatype Table = Table(rows: seq<TableRow>)

  /** A fatal configuration signal (a Go panic) or an error returned to the caller. */
  datatype Fault = Panic(message: string) | Err(message: string)

  /**
   The optional capabilities a type may implement. `None` means the type does not
   implement that interface; the hooks see the receiver's data (and, for updates,
   the old object's data).
   */
  datatype Capabilities = Capabilities(
    generateName: Option<string -> string>,
    prepareForCreate: Option<(Context, Data) -> Data>,
    prepareForUpdate: Option<(Context, Data, Data) -> Data>,
    validate: Option<(Context, Data) -> ErrorList>,
    validateUpdate: Option<(Context, Data, Data) -> ErrorList>,
    canonicalize: Option<Data -> Data>,
    allowCreateOnUpdate: Option<bool>,
    allowUnconditionalUpdate: Option<bool>,
    convertToTable: Option<(Context, Data) -> Result<Table, string>>)

  /** A type that implements no optional capability. */
  const NoCapabilities := Capabilities(None, None, None, None, None, None, None, None, None)

  /**
   What a type implementing the Object interface declares about itself. These are
   per-type answers (`NamespaceScoped`, `GetGroupResource`), never per-instance.
   */
  datatype ResourceDecl = ResourceDecl(groupResource: GroupResource, namespaceScoped: bool)

  /**
   A Go type: its name, whether it implements the Object interface (`decl` present),
   whether it implements `CopyStatusTo`, and its optional capabilities. The name alone
   decides type identity: wherever Go compares or asserts types, the model compares
   names, and the other fields are properties of the named type.
   */
  datatype Kind = Kind(
    name: string,
    decl: Option<ResourceDecl>,
    statusCopier: bool,
    caps: Capabilities)

  /** A runtime value: its dynamic type and its data. */
  datatype Object = Object(kind: Kind, data: Data)

  /** The type implements the Object interface (metadata accessor, scoping, factories, identity). */
  predicate IsObject(k: Kind) {
    k.decl.Some?
  }

  /** The type implements ObjectWithStatusSubResource, which embeds Object. */
  predicate HasStatusSubResource(k: Kind) {
    IsObject(k) && k.statusCopier
  }

  /**
   `src.CopyStatusTo(target)`: the status of the receiver is copied onto a target of
   the same type; a target of another type is left as it is.
   */
  function CopyStatusTo(src: Object, target: Object): (r: Object)
    requires src.kind.statusCopier
    ensures r.kind == target.kind
    ensures r.data.meta == target.data.meta && r.data.spec == target.data.spec
    ensures target.kind.name == src.kind.name ==> r.data.status == src.data.status
    ensures target.kind.name != src.kind.name ==> r == target
  {
    if target.kind.name == src.kind.name then
      target.(data := target.data.(status := src.data.status))
    else
      target
  }

  /** `src.DeepCopyInto(dst)`: all of the receiver's data is copied into the target. */
  function DeepCopyInto(src: Object, dst: Object): (r: Object)
    ensures r.kind == dst.kind
    ensures r.data == src.data
  {
    dst.(data := src.data)
  }
}
