/**
 The capability-dispatch strategy (DefaultStrategy) and the update-override decorator
 (PrepareForUpdaterStrategy). Their implementation file is not part of this model; the
 behaviour here is the one apiserver/rest/strategy_test.go exercises, with inert
 fallbacks for capabilities a type lacks.

 Name generation, scoping and the two update allowances consult the WRAPPED object;
 the request-time hooks (prepare, validate, canonicalize) consult the ARGUMENT object.
 */
module Strategy {
  import opened Wrappers
  import opened Objects

  /** The adapter; `wrapped` is the wrapped template (the `Object` field), absent in `DefaultStrategy{}`. */
  datatype DefaultStrategy = DefaultStrategy(wrapped: Option<Object>)

  /** The adapter built at registration time wraps the resource template. */
  function NewDefaultStrategy(template: Object): (s: DefaultStrategy)
    ensures s.wrapped == Some(template)
  {
    DefaultStrategy(Some(template))
  }

  /** The capabilities of the wrapped object, when there is one. */
  function WrappedCaps(s: DefaultStrategy): Option<Capabilities> {
    if s.wrapped.Some? then Some(s.wrapped.value.kind.caps) else None
  }

  function GenerateName(s: DefaultStrategy, base: string): (r: string)
    ensures WrappedCaps(s).Some? && WrappedCaps(s).value.generateName.Some? ==>
              r == WrappedCaps(s).value.generateName.value(base)
    ensures WrappedCaps(s).None? || WrappedCaps(s).value.generateName.None? ==> r == base
  {
    match WrappedCaps(s)
    case Some(caps) => if caps.generateName.Some? then caps.generateName.value(base) else base
    case None => base
  }

  /** The wrapped object's own scoping answer; `None` when nothing answers it. */
  function NamespaceScoped(s: DefaultStrategy): (r: Option<bool>)
    ensures r.Some? <==> s.wrapped.Some? && IsObject(s.wrapped.value.kind)
    ensures r.Some? ==> r.value == s.wrapped.value.kind.decl.value.namespaceScoped
  {
    if s.wrapped.Some? && s.wrapped.value.kind.decl.Some? then
      Some(s.wrapped.value.kind.decl.value.namespaceScoped)
    else
      None
  }

  function PrepareForCreate(s: DefaultStrategy, ctx: Context, obj: Object): (r: Object)
    ensures r.kind == obj.kind
    ensures obj.kind.caps.prepareForCreate.Some? ==>
              r.data == obj.kind.caps.prepareForCreate.value(ctx, obj.data)
    ensures obj.kind.caps.prepareForCreate.None? ==> r == obj
  {
    match obj.kind.caps.prepareForCreate
    case Some(f) => obj.(data := f(ctx, obj.data))
    case None => obj
  }

  /**
   Before an update through the main endpoint the stored status is copied back onto
   the incoming object, then the incoming object's own PrepareForUpdate runs. This
   order is the model's choice: the test only shows that both happen. (`old` is a
   Dafny keyword, so the stored object is called `stored` here.)
   */
  function PrepareForUpdate(s: DefaultStrategy, ctx: Context, obj: Object, stored: Object): (r: Object)
    ensures r.kind == obj.kind
    ensures var copied := if stored.kind.statusCopier then CopyStatusTo(stored, obj) else obj;
            && (obj.kind.caps.prepareForUpdate.None? ==> r == copied)
            && (obj.kind.caps.prepareForUpdate.Some? ==>
                  r.data == obj.kind.caps.prepareForUpdate.value(ctx, copied.data, stored.data))
  {
    var copied := if stored.kind.statusCopier then CopyStatusTo(stored, obj) else obj;
    match copied.kind.caps.prepareForUpdate
    case Some(f) => copied.(data := f(ctx, copied.data, stored.data))
    case None => copied
  }

  /** The object's own validation errors, verbatim; none when it cannot validate itself. */
  function Validate(s: DefaultStrategy, ctx: Context, obj: Object): (r: ErrorList)
    ensures obj.kind.caps.validate.Some? ==> r == obj.kind.caps.validate.value(ctx, obj.data)
    ensures obj.kind.caps.validate.None? ==> r == []
  {
    match obj.kind.caps.validate
    case Some(f) => f(ctx, obj.data)
    case None => []
  }

  function ValidateUpdate(s: DefaultStrategy, ctx: Context, obj: Object, stored: Object): (r: ErrorList)
    ensures obj.kind.caps.validateUpdate.Some? ==>
              r == obj.kind.caps.validateUpdate.value(ctx, obj.data, stored.data)
    ensures obj.kind.caps.validateUpdate.None? ==> r == []
  {
    match obj.kind.caps.validateUpdate
    case Some(f) => f(ctx, obj.data, stored.data)
    case None => []
  }

  function Canonicalize(s: DefaultStrategy, obj: Object): (r: Object)
    ensures r.kind == obj.kind
    ensures obj.kind.caps.canonicalize.Some? ==> r.data == obj.kind.caps.canonicalize.value(obj.data)
    ensures obj.kind.caps.canonicalize.None? ==> r == obj
  {
    match obj.kind.caps.canonicalize
    case Some(f) => obj.(data := f(obj.data))
    case None => obj
  }

  function AllowCreateOnUpdate(s: DefaultStrategy): (r: bool)
    ensures r <==> WrappedCaps(s).Some? && WrappedCaps(s).value.allowCreateOnUpdate == Some(true)
  {
    match WrappedCaps(s)
    case Some(caps) => if caps.allowCreateOnUpdate.Some? then caps.allowCreateOnUpdate.value else false
    case None => false
  }

  function AllowUnconditionalUpdate(s: DefaultStrategy): (r: bool)
    ensures r <==> WrappedCaps(s).Some? && WrappedCaps(s).value.allowUnconditionalUpdate == Some(true)
  {
    match WrappedCaps(s)
    case Some(caps) => if caps.allowUnconditionalUpdate.Some? then caps.allowUnconditionalUpdate.value else false
    case None => false
  }

  /**
   The wrapped object's table conversion applied to `obj`; `None` stands for "no custom
   table view", left to the serving layer's generic rendering.
   */
  function ConvertToTable(s: DefaultStrategy, ctx: Context, obj: Object): (r: Option<Result<Table, string>>)
    ensures r.Some? <==> WrappedCaps(s).Some? && WrappedCaps(s).value.convertToTable.Some?
    ensures r.Some? ==> r.value == WrappedCaps(s).value.convertToTable.value(ctx, obj.data)
  {
    match WrappedCaps(s)
    case Some(caps) => if caps.convertToTable.Some? then Some(caps.convertToTable.value(ctx, obj.data)) else None
    case None => None
  }

  /** The two objects an update hook may rewrite: the incoming one and the stored one. */
  datatype UpdatePair = UpdatePair(obj: Object, stored: Object)

  /** The override hook of PrepareForUpdaterStrategy; it may panic. */
  type OverrideFn = (Context, Object, Object) -> Result<UpdatePair, Fault>

  /** The policy installed as a store's update strategy. */
  datatype UpdateStrategy =
    | DefaultUpdate(strategy: DefaultStrategy)
    | PrepareForUpdater(inner: Option<UpdateStrategy>, overrideFn: Option<OverrideFn>)

  /**
   The update-preparation step of an update strategy. The decorator calls its override
   with exactly the arguments it received and is a no-op without one.
   */
  function UpdatePrepare(u: UpdateStrategy, ctx: Context, obj: Object, stored: Object): (r: Result<UpdatePair, Fault>)
    ensures u.DefaultUpdate? ==> r == Success(UpdatePair(PrepareForUpdate(u.strategy, ctx, obj, stored), stored))
    ensures u.PrepareForUpdater? && u.overrideFn.Some? ==> r == u.overrideFn.value(ctx, obj, stored)
    ensures u.PrepareForUpdater? && u.overrideFn.None? ==> r == Success(UpdatePair(obj, stored))
  {
    match u
    case DefaultUpdate(s) => Success(UpdatePair(PrepareForUpdate(s, ctx, obj, stored), stored))
    case PrepareForUpdater(_, fn) =>
      if fn.Some? then fn.value(ctx, obj, stored) else Success(UpdatePair(obj, stored))
  }

  /**
   A type implementing no optional capability gets the inert defaults: names unchanged,
   no create-on-update, no unconditional update, no validation errors, and objects left
   untouched by prepare and canonicalize.
   */
  lemma NoCapabilityDefaults(template: Object, ctx: Context, obj: Object, stored: Object, base: string)
    requires template.kind.caps == NoCapabilities
    requires obj.kind.caps == NoCapabilities
    requires !stored.kind.statusCopier
    ensures var s := NewDefaultStrategy(template);
            && GenerateName(s, base) == base
            && !AllowCreateOnUpdate(s)
            && !AllowUnconditionalUpdate(s)
            && Validate(s, ctx, obj) == []
            && ValidateUpdate(s, ctx, obj, stored) == []
            && PrepareForCreate(s, ctx, obj) == obj
            && PrepareForUpdate(s, ctx, obj, stored) == obj
            && Canonicalize(s, obj) == obj
            && ConvertToTable(s, ctx, obj).None?
  {
  }

  /** A name generator's answer is used whatever other capabilities the type has. */
  lemma NameGeneratorIndependent(template: Object, suffix: string, base: string)
    requires template.kind.caps.generateName.Some?
    requires forall b :: template.kind.caps.generateName.value(b) == b + suffix
    ensures GenerateName(NewDefaultStrategy(template), base) == base + suffix
  {
  }

  /** A type's own update hook, if any, leaves the status of the object it prepares as it was. */
  ghost predicate HookKeepsStatus(caps: Capabilities)
  {
    caps.prepareForUpdate.None?
    || forall c, d, o :: caps.prepareForUpdate.value(c, d, o).status == d.status
  }

  /**
   Through the main endpoint a status-capable type cannot change status: whatever the
   incoming status, the prepared object carries the stored one, provided the type's own
   update hook (if it has one) keeps status. Without a hook nothing else changes.
   */
  lemma MainUpdateKeepsStoredStatus(s: DefaultStrategy, ctx: Context, obj: Object, stored: Object)
    requires stored.kind.statusCopier && stored.kind.name == obj.kind.name
    requires HookKeepsStatus(obj.kind.caps)
    ensures PrepareForUpdate(s, ctx, obj, stored).data.status == stored.data.status
    ensures obj.kind.caps.prepareForUpdate.None? ==>
              PrepareForUpdate(s, ctx, obj, stored) == obj.(data := obj.data.(status := stored.data.status))
  {
  }
}
