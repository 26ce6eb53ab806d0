/**
 Resource registration (apiserver/resource.go): the group function that turns a
 resource template into one API group's storage, with a `/status` entry whose update
 strategy implements the status/spec split for types that support it.
 */
module Registration {
  import opened Wrappers
  import opened Objects
  import opened Strategy
  import opened Rest
  import opened Server

  /** What `Resource` hands to the builder: the group versions and the group function. */
  datatype ResourceHandler = ResourceHandler(groupVersions: seq<GroupVersion>, apiGroupFn: Option<APIGroupFn>)

  const GroupMismatch := "unexpected group mismatch"
  const InterfaceConversion := "interface conversion"

  /**
   The status-split hook for a template type: the incoming status is copied onto the
   stored object, which is then deep-copied back over the incoming one. The type
   assertions on both objects panic when they are not of the template's type.
   */
  function StatusSplit(template: Kind, ctx: Context, obj: Object, stored: Object): (r: Result<UpdatePair, Fault>)
    ensures r.Success? <==>
              HasStatusSubResource(obj.kind) && obj.kind.name == template.name && stored.kind.name == template.name
    ensures r.Failure? ==> r.error == Panic(InterfaceConversion)
    ensures r.Success? ==>
              var split := Data(stored.data.meta, stored.data.spec, obj.data.status);
              r.value == UpdatePair(Object(obj.kind, split), Object(stored.kind, split))
  {
    if !HasStatusSubResource(obj.kind) then
      Failure(Panic(InterfaceConversion))
    else
      // Copy the new status to the stored object.
      var storedWithStatus := CopyStatusTo(obj, stored);
      if obj.kind.name != template.name || stored.kind.name != template.name then
        Failure(Panic(InterfaceConversion))
      else
        // Reset everything but status of the incoming object from the stored one.
        Success(UpdatePair(DeepCopyInto(storedWithStatus, obj), storedWithStatus))
  }

  /** The hook as a closure over the template type, as installed on the `/status` store. */
  function StatusPrepareForUpdate(template: Kind): OverrideFn {
    (ctx: Context, obj: Object, stored: Object) => StatusSplit(template, ctx, obj, stored)
  }

  /** The key of the status subresource of `resource`. */
  function StatusKey(resource: string): string {
    resource + "/status"
  }

  /** The status view: the primary store with only its update strategy decorated. */
  function StatusStore(template: Kind, store: Store): (r: Store)
    ensures r.(updateStrategy := store.updateStrategy) == store
    ensures r.updateStrategy.PrepareForUpdater?
    ensures r.updateStrategy.inner == Some(store.updateStrategy)
    ensures r.updateStrategy.overrideFn == Some(StatusPrepareForUpdate(template))
  {
    store.(updateStrategy := PrepareForUpdater(Some(store.updateStrategy), Some(StatusPrepareForUpdate(template))))
  }

  /**
   The per-version storage of one resource: the resource name bound to the primary
   store and, exactly when the type has a status subresource, `<resource>/status`
   bound to the status view; nothing else.
   */
  function ResourceStorage(template: Kind, resource: string, store: Store): (r: map<string, Store>)
    ensures resource in r && r[resource] == store
    ensures StatusKey(resource) in r <==> HasStatusSubResource(template)
    ensures StatusKey(resource) in r ==> r[StatusKey(resource)] == StatusStore(template, store)
    ensures r.Keys <= {resource, StatusKey(resource)}
  {
    var storage := map[resource := store];
    if HasStatusSubResource(template) then
      assert |StatusKey(resource)| != |resource|;
      storage[StatusKey(resource) := StatusStore(template, store)]
    else
      storage
  }

  /** The set of versions named by `gvs`. */
  function VersionsOf(gvs: seq<GroupVersion>): set<string> {
    set i | 0 <= i < |gvs| :: gvs[i].version
  }

  /**
   The version loop: each group version must belong to `group` (otherwise a panic) and
   its version is bound to `storage`.
   */
  function AssignVersions<S>(gvs: seq<GroupVersion>, group: string, storage: S, acc: map<string, S>)
    : (r: Result<map<string, S>, Fault>)
    ensures r.Success? <==> forall i | 0 <= i < |gvs| :: gvs[i].group == group
    ensures r.Failure? ==> r.error == Panic(GroupMismatch)
    ensures r.Success? ==> r.value.Keys == acc.Keys + VersionsOf(gvs)
    ensures r.Success? ==> forall v | v in VersionsOf(gvs) :: r.value[v] == storage
    ensures r.Success? ==> forall v | v in acc && v !in VersionsOf(gvs) :: r.value[v] == acc[v]
    decreases |gvs|
  {
    if |gvs| == 0 then
      Success(acc)
    else if gvs[0].group != group then
      Failure(Panic(GroupMismatch))
    else
      var r := AssignVersions(gvs[1..], group, storage, acc[gvs[0].version := storage]);
      assert forall i | 1 <= i < |gvs| :: gvs[i] == gvs[1..][i - 1];
      assert VersionsOf(gvs) == {gvs[0].version} + VersionsOf(gvs[1..]);
      r
  }

  /**
   The group function of `Resource(template, gvs...)`: a store failure panics with its
   error; otherwise it panics exactly when a group version is of another group, and
   succeeds with the template group's versions and every requested version bound to one
   storage map that holds the primary store and, for status-capable types, the status view.
   */
  function ApiGroupFor(template: Object, gvs: seq<GroupVersion>, scheme: Scheme, config: CompletedConfig)
    : (r: Result<APIGroupInfo, Fault>)
    requires IsObject(template.kind)
    ensures var gr := template.kind.decl.value.groupResource;
            var st := NewStore(NewFn(template.kind.name), NewListFn(template.kind.name), gr,
                               NewDefaultStrategy(template), config.restOptionsGetter);
            && (st.Failure? ==> r == Failure(Panic(st.error)))
            && (st.Success? ==>
                  && (r.Success? <==> forall i | 0 <= i < |gvs| :: gvs[i].group == gr.group)
                  && (r.Failure? ==> r.error == Panic(GroupMismatch))
                  && (r.Success? ==>
                        && r.value.prioritizedVersions == PrioritizedVersionsForGroup(scheme, gr.group)
                        && r.value.storageMap.Keys == VersionsOf(gvs)
                        && forall v | v in VersionsOf(gvs) ::
                             r.value.storageMap[v] == ResourceStorage(template.kind, gr.resource, st.value)))
  {
    var gr := template.kind.decl.value.groupResource;
    var strategy := NewDefaultStrategy(template);
    match NewStore(NewFn(template.kind.name), NewListFn(template.kind.name), gr, strategy, config.restOptionsGetter)
    case Failure(e) => Failure(Panic(e))
    case Success(store) =>
      var storage := ResourceStorage(template.kind, gr.resource, store);
      var info := NewDefaultAPIGroupInfo(gr.group, scheme);
      match AssignVersions(gvs, gr.group, storage, info.storageMap)
      case Failure(f) => Failure(f)
      case Success(m) => Success(info.(storageMap := m))
  }

  /**
   `Resource(template, gvs...)`: the handler carries the versions unchanged and a
   group function that always exists.
   */
  function Resource(template: Object, gvs: seq<GroupVersion>): (h: ResourceHandler)
    requires IsObject(template.kind)
    ensures h.groupVersions == gvs
    ensures h.apiGroupFn.Some?
    ensures forall scheme, config :: h.apiGroupFn.value(scheme, config) == ApiGroupFor(template, gvs, scheme, config)
  {
    ResourceHandler(gvs, Some((scheme: Scheme, config: CompletedConfig) => ApiGroupFor(template, gvs, scheme, config)))
  }

  /**
   The status split end to end: for an incoming (m1, s1, t1) and a stored (m0, s0, t0)
   of the template's type, both end up as (m0, s0, t1).
   */
  lemma StatusSplitLaw(template: Kind, ctx: Context, m0: ObjectMeta, s0: Payload, t0: Payload,
                       m1: ObjectMeta, s1: Payload, t1: Payload)
    requires HasStatusSubResource(template)
    ensures StatusPrepareForUpdate(template)(ctx, Object(template, Data(m1, s1, t1)), Object(template, Data(m0, s0, t0)))
            == Success(UpdatePair(Object(template, Data(m0, s0, t1)), Object(template, Data(m0, s0, t1))))
  {
  }

  /**
   The split survives the main strategy's own update preparation: if the default
   strategy's PrepareForUpdate ran after the hook, the new status would stay, provided
   the type's own update hook keeps status; without a hook the stored spec and metadata
   would stay as well.
   */
  lemma StatusSplitThenDefaultPrepare(template: Kind, s: DefaultStrategy, ctx: Context, obj: Object, stored: Object)
    requires HasStatusSubResource(obj.kind)
    requires obj.kind.name == template.name && stored.kind.name == template.name
    requires HookKeepsStatus(obj.kind.caps)
    ensures var split := StatusSplit(template, ctx, obj, stored).value;
            PrepareForUpdate(s, ctx, split.obj, split.stored).data.status == obj.data.status
    ensures var split := StatusSplit(template, ctx, obj, stored).value;
            obj.kind.caps.prepareForUpdate.None? ==>
              PrepareForUpdate(s, ctx, split.obj, split.stored).data
                == Data(stored.data.meta, stored.data.spec, obj.data.status)
  {
  }

  /** The status store is a policy-only view: it differs from the primary in the update strategy only. */
  lemma StatusStoreSharesAllButUpdate(template: Object, gvs: seq<GroupVersion>, scheme: Scheme,
                                      config: CompletedConfig, v: string)
    requires IsObject(template.kind) && HasStatusSubResource(template.kind)
    requires ApiGroupFor(template, gvs, scheme, config).Success?
    requires v in ApiGroupFor(template, gvs, scheme, config).value.storageMap
    ensures var storage := ApiGroupFor(template, gvs, scheme, config).value.storageMap[v];
            var res := template.kind.decl.value.groupResource.resource;
            && res in storage && StatusKey(res) in storage
            && storage[StatusKey(res)] == storage[res].(updateStrategy := storage[StatusKey(res)].updateStrategy)
            && storage[StatusKey(res)].updateStrategy
                 == PrepareForUpdater(Some(storage[res].updateStrategy), Some(StatusPrepareForUpdate(template.kind)))
  {
  }
}
