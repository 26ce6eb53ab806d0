# apiserver-kit core, modelled in Dafny

This project models the core of apiserver-kit, a Go library for building
Kubernetes-style aggregated API servers. A resource type plugs into a generic
store, and stores plug into a server. The model covers these parts:

- **Resource objects** (`Objects`): the `Object` contract, `DeepCopyInto`,
  `CopyStatusTo`, and the optional capabilities a type may implement. Each Go
  type is a `Kind`: its name, whether it is an `Object`, whether it copies
  status, and an `Option` per optional interface.
- **Strategies** (`Strategy`): `DefaultStrategy` dispatches to those
  capabilities. `PrepareForUpdaterStrategy` replaces update preparation by an
  override hook.
- **REST wiring** (`Rest`): `GetAttrs`, `SelectableFields`, and `NewStore`,
  which points every policy slot of a store at one strategy and completes it
  against the options getter.
- **Registration** (`Registration`): `Resource(obj, gvs...)` and its group
  function. That function builds the per-version storage, adds the
  `<resource>/status` view for status-capable types, and panics on a group
  mismatch or a store error.
- **Storage-map merge** (`StorageMaps`): `mergeVersionedResourcesStorageMap`,
  as the two-loop method of the source. It is proved equal to a pointwise
  definition, and that definition is proved associative, idempotent, and
  commutative when there are no collisions.
- **Builder** (`ServerBuilder`): the `With*` builders and the group-consistency
  scan. It also has the per-group accumulation loop of `Execute`, proved equal
  to a reference map, plus the emulation-version mapping and the informers the
  post-start hook starts.
- **Scenarios** (`Scenarios`): the cases of the strategy and REST tests, two
  of the merge tests as scenario lemmas (`MergeDifferentVersionsScenario` and
  `MergeSameVersionScenario`, apiserver/builder_test.go:52-87), and the example
  server, which registers `Bar` and `ClusterBar` in
  `foo.opendefense.cloud/v1alpha1`. The empty-map merge tests
  (apiserver/builder_test.go:17-50) are covered by `StorageMaps.MergeEmptyLeft`
  and `StorageMaps.MergeEmptyRight`; the remaining merge tests
  (apiserver/builder_test.go:89-192) are instances of the pointwise contract of
  `StorageMaps.Merge`, and inputs are values, so none can be modified.

Go panics and returned errors are kept apart: `Fault = Panic(msg) | Err(msg)`.
The external generic-server types (`Scheme`, `CompletedConfig`,
`APIGroupInfo`) are in `Server`. Each is reduced to the parts this core reads.

The DefaultStrategy implementation is not part of this model. Its behaviour
is taken from apiserver/rest/strategy_test.go. Where a type lacks a capability,
the model chooses inert answers: the name is unchanged, validation gives no
errors, the `Allow*` answers are false, and objects are left untouched.

## Model

| member | source | states |
|---|---|---|
| `Objects.CopyStatusTo` | apiserver/rest/strategy_test.go:44-49 | the receiver's status is copied onto a target of the same type and nothing else changes; a target of another type is left as it is (the interface is at apiserver/resource/object.go:45-53; the type check is the test type's own) |
| `Objects.DeepCopyInto` | apiserver/resource/object.go:36-43 | the target keeps its type and takes all of the receiver's data |
| `Strategy.NewDefaultStrategy` | apiserver/resource.go:28 | the strategy built at registration wraps the resource template |
| `Strategy.GenerateName` | apiserver/rest/strategy_test.go:119-122 | the wrapped object's name generator decides the name when it has one; otherwise the base is kept |
| `Strategy.NamespaceScoped` | apiserver/rest/strategy_test.go:124-127 | the answer is the wrapped object's own scoping; there is an answer exactly when an Object is wrapped |
| `Strategy.PrepareForCreate` | apiserver/rest/strategy_test.go:129-134 | the argument's own create hook rewrites its data, even with nothing wrapped; without a hook the object is unchanged |
| `Strategy.PrepareForUpdate` | apiserver/rest/strategy_test.go:136-143 | the stored object's status is copied onto the incoming one first, then the incoming object's update hook runs on the result (the order is the model's choice, see Left out) |
| `Strategy.Validate` | apiserver/rest/strategy_test.go:145-150 | the object's own validation errors are returned verbatim; none when it cannot validate |
| `Strategy.ValidateUpdate` | apiserver/rest/strategy_test.go:145-150 | the object's update validation, given the stored data, is returned verbatim; none when it cannot validate |
| `Strategy.AllowCreateOnUpdate` | apiserver/rest/strategy_test.go:152-157 | true exactly when the wrapped object implements the capability and answers true |
| `Strategy.AllowUnconditionalUpdate` | apiserver/rest/strategy_test.go:152-157 | true exactly when the wrapped object implements the capability and answers true |
| `Strategy.Canonicalize` | apiserver/rest/strategy_test.go:159-163 | the object's own canonicalizer rewrites its data; the type is kept |
| `Strategy.ConvertToTable` | apiserver/rest/strategy_test.go:159-169 | the wrapped object's converter produces the table for the argument; there is a custom table exactly when it has one (dispatch on the wrapped object is the model's choice, see Left out) |
| `Strategy.UpdatePrepare` | apiserver/rest/strategy_test.go:171-203 | the decorator calls its override with exactly the context, object and stored object it got; with no override it changes nothing and does not panic |
| `Strategy.NoCapabilityDefaults` | apiserver/rest/strategy_test.go:118-169 | a type with no optional capability gets inert answers from every dispatch |
| `Strategy.NameGeneratorIndependent` | apiserver/rest/strategy_test.go:119-122 | a generator that appends a suffix to every name appends it to every base through the strategy |
| `Strategy.MainUpdateKeepsStoredStatus` | apiserver/rest/strategy_test.go:136-143 | through the main endpoint a status-capable type keeps the stored status, whatever status comes in, provided its own update hook (if any) keeps status; for a type without an update hook only the status changes |
| `Rest.SelectableFields` | apiserver/rest/rest.go:35-39 | the field set holds the object's name and its namespace |
| `Rest.GetAttrs` | apiserver/rest/rest.go:24-33 | fails exactly for values that are not Objects; otherwise gives the labels and the selectable fields |
| `Rest.CompleteWithOptions` | apiserver/rest/rest.go:72-76 | completion fails exactly when the options getter fails for the store's resource, with its error |
| `Rest.NewStore` | apiserver/rest/rest.go:55-78 | every policy slot and the table convertor is the given strategy; the store is completed with GetAttrs; it fails exactly when the options getter does |
| `Rest.StoreExtractsWithGetAttrs` | apiserver/rest/rest.go:72-73 | a completed store rejects, when filtering, exactly the values without metadata |
| `Server.PrioritizedVersionsForGroup` | apiserver/builder.go:147-148 | every ordered group version belongs to the requested group, one per registered version |
| `Server.NewDefaultAPIGroupInfo` | apiserver/resource.go:55 | a fresh info carries the scheme's versions for the group and no storage |
| `Registration.StatusSplit` | apiserver/resource.go:38-46 | for two objects of the template's status-capable type, both end as the stored metadata and spec with the incoming status; any other type panics; `StatusPrepareForUpdate` is this function as the closure installed on the status store |
| `Registration.StatusStore` | apiserver/resource.go:47-51 | the status view differs from the primary store in its update strategy only; that strategy wraps the primary's with the split hook |
| `Registration.ResourceStorage` | apiserver/resource.go:34-53 | the resource maps to the primary store; `<resource>/status` is present exactly for status-capable types; there are no other keys |
| `Registration.AssignVersions` | apiserver/resource.go:57-62 | panics exactly when a group version is of another group; otherwise every listed version maps to the shared storage and earlier entries are kept |
| `Registration.ApiGroupFor` | apiserver/resource.go:26-64 | a store error panics with that error; otherwise a group mismatch panics; otherwise the info carries the group's versions and exactly the listed versions, each bound to the resource's storage |
| `Registration.Resource` | apiserver/resource.go:23-67 | the handler keeps the versions unchanged and always carries a group function, which behaves as above |
| `Registration.StatusSplitLaw` | apiserver/resource.go:38-46 | an incoming (m1, s1, t1) and a stored (m0, s0, t0) both become (m0, s0, t1) |
| `Registration.StatusSplitThenDefaultPrepare` | apiserver/resource.go:47-51 | if the wrapped default preparation ran after the hook, the new status would survive it, provided the type's own update hook (if any) keeps status; for a type without an update hook the stored metadata and spec survive too |
| `Registration.StatusStoreSharesAllButUpdate` | apiserver/resource.go:47-52 | in every version the status entry is the primary store with only the update strategy replaced by the decorator |
| `StorageMaps.Merge` | apiserver/builder.go:326-349 | the versions are those of either input; a (version, resource) entry of the second input wins; all other entries come from the first |
| `StorageMaps.MergeResourceKeys` | apiserver/builder.go:331-347 | the resources of a merged version are the union of both inputs' resources for it |
| `StorageMaps.CopyResources` | apiserver/builder.go:335-337 | copying one version's resources overwrites and adds exactly the source's entries |
| `StorageMaps.CopyVersions` | apiserver/builder.go:331-338 | one copy loop merges a whole storage map into the accumulator |
| `StorageMaps.MergeVersionedResourcesStorageMap` | apiserver/builder.go:328-349 | the two loops, starting from an empty map, compute the pointwise merge; the inputs are values and are not changed |
| `StorageMaps.MergeEmptyRight` | apiserver/builder_test.go:24-37 | merging with an empty map on the right gives back the left input |
| `StorageMaps.MergeEmptyLeft` | apiserver/builder_test.go:39-50 | merging with an empty map on the left gives back the right input |
| `StorageMaps.MergeCommutesWithoutCollision` | apiserver/builder.go:339-347 | the order of the inputs matters only where both contribute the same version and resource |
| `StorageMaps.MergeAssociative` | apiserver/builder.go:326-349 | folding several handlers' maps does not depend on grouping |
| `StorageMaps.MergeIdempotent` | apiserver/builder.go:326-349 | merging a map with itself gives it back |
| `ServerBuilder.NewBuilder` | apiserver/builder.go:64-73 | a new builder has no group versions, group functions or informer factories |
| `ServerBuilder.WithComponentName` | apiserver/builder.go:75-79 | only the component name changes |
| `ServerBuilder.WithAPIGroupFn` | apiserver/builder.go:95-102 | a nil function is ignored; any other is appended and nothing else changes |
| `ServerBuilder.WithGroupVersions` | apiserver/builder.go:128-134 | the versions are appended in order |
| `ServerBuilder.WithSharedInformerFactory` | apiserver/builder.go:119-126 | a nil factory is ignored; any other is appended |
| `ServerBuilder.With` | apiserver/builder.go:104-108 | a handler adds its group function, if it has one, and all its group versions; the name and factories are kept |
| `ServerBuilder.WithResourceAppendsOne` | apiserver/builder.go:104-108 | registering a resource adds exactly its versions and one group function that behaves as that resource's |
| `ServerBuilder.CheckGroupVersions` | apiserver/builder.go:139-146 | panics exactly when a group version after the first non-empty group has another group; otherwise it yields the last group, which every non-empty group equals |
| `ServerBuilder.Outcome` | apiserver/builder.go:228-236 | a group function's panic propagates; an info whose first version has an empty group (`GroupOf`, the group of the first prioritized version, builder.go:229-233) is an error; otherwise the info is used |
| `ServerBuilder.GroupMapSpec` | apiserver/builder.go:226-245 | the reference accumulation has one entry per group that some handler contributes |
| `ServerBuilder.GroupMapSpecSnoc` | apiserver/builder.go:238-243 | one more info merges into its group's entry or starts a new entry; other groups are unchanged |
| `ServerBuilder.CollectStep` | apiserver/builder.go:227-244 | one iteration of the loop keeps the map equal to the reference for the handlers seen so far |
| `ServerBuilder.CollectAPIGroups` | apiserver/builder.go:226-245 | succeeds exactly when every group function succeeds with a non-empty group; stops at the first failure with its fault; on success gives the reference map |
| `ServerBuilder.Execute` | apiserver/builder.go:139-245 | the group check panics first; a group with no prioritized versions is then an error; otherwise the result is that of the accumulation |
| `ServerBuilder.OffsetMinor` | apiserver/builder.go:311 | the offset version keeps the major and moves the minor by the offset |
| `ServerBuilder.VersionToKubeVersion` | apiserver/builder.go:304-316 | only major 1 is mapped; 1.2 and later map to the kube version; earlier minors are offset below it; the result never exceeds the kube version |
| `ServerBuilder.DefaultVersionMapsToKube` | apiserver/builder.go:309-311 | the default version 1.2 maps exactly to the kube version |
| `ServerBuilder.VersionMappingMonotone` | apiserver/builder.go:304-316 | a higher component minor never maps to a lower kube version |
| `ServerBuilder.StartedInformers` | apiserver/builder.go:255-266 | the server's own factory, when set, starts first; then every registered factory starts once per registration, in order |
| `Scenarios.NameGeneratorScenario` | apiserver/rest/strategy_test.go:119-122 | "base" becomes "base-GEN" |
| `Scenarios.ScoperScenario` | apiserver/rest/strategy_test.go:124-127 | a cluster-scoped wrapped type answers false |
| `Scenarios.PrepareForCreateScenario` | apiserver/rest/strategy_test.go:129-134 | the create hook sets the flag with nothing wrapped |
| `Scenarios.PrepareForUpdateScenario` | apiserver/rest/strategy_test.go:136-143 | the stored status "old-status" wins and the flag is set |
| `Scenarios.ValidateScenario` | apiserver/rest/strategy_test.go:145-150 | both validations report errors |
| `Scenarios.AllowScenario` | apiserver/rest/strategy_test.go:152-157 | both allowances are taken from the wrapped types |
| `Scenarios.CanonicalizeAndTableScenario` | apiserver/rest/strategy_test.go:159-169 | canonicalizing sets the flag; the table has one row |
| `Scenarios.OverrideCalledScenario` | apiserver/rest/strategy_test.go:172-194 | the override is called with the context, object and stored object it was given: its result carries the context's values as annotations, the new status and the mark, and the stored object unchanged |
| `Scenarios.NilOverrideScenario` | apiserver/rest/strategy_test.go:196-202 | a decorator with no override succeeds |
| `Scenarios.GetAttrsScenario` | apiserver/rest/rest_test.go:14-24 | the labels, name and namespace of the test object are extracted |
| `Scenarios.MergeSameVersionScenario` | apiserver/builder_test.go:71-87 | two resources of one version end in one version map |
| `Scenarios.MergeDifferentVersionsScenario` | apiserver/builder_test.go:52-69 | resources of different versions keep their versions |
| `Scenarios.TwoInfosOneGroup` | apiserver/builder.go:238-243 | two infos of one group accumulate into the first, carrying both storage maps merged |
| `Scenarios.ExampleAccumulation` | example/cmd/foo-apiserver/main.go:49-50 | the two example infos accumulate into one group whose `v1alpha1` holds `bars` and `clusterbars` |
| `Scenarios.ExampleBuilderContents` | example/cmd/foo-apiserver/main.go:46-51 | the example builder holds both group versions and both resources' group functions, in order |
| `Scenarios.ExampleResourceInfo` | example/api/foo/bar_rest.go:32-55 | each example resource contributes `v1alpha1` holding just itself |
| `Scenarios.ExampleServerScenario` | example/cmd/foo-apiserver/main.go:46-51 | the example server's groups are consistent, and it gets one group whose `v1alpha1` holds `bars` and `clusterbars` |

## Left out

- The command line, TLS, recommended options, OpenAPI, admission initializers,
  `InstallAPIGroup`, the post-start hook registration and `RunWithContext`
  are left out. They are external calls into the generic server.
- `ServerBuilder.StartedInformers`: the server's own factory and the registered
  factories are parameters. The model does not derive them from `ApplyTo`
  setting the config's factory, or from the admission-initializer wrapper
  (apiserver/builder.go:160-169) appending the factory it is handed, which may
  be nil. In Go a nil registered factory would panic when the hook starts it;
  the model has no nil factory.
- `ServerBuilder.Execute`: the errors from option validation, `ApplyTo` and
  server creation, which come before the accumulation loop, are not modelled.
  They depend on external configuration. The scheme and completed config are
  parameters instead of builder fields.
- The component-globals registry is left out: registering the component and
  setting the emulation mapping are external. Only the mapping function is
  modelled.
- `ServerBuilder.VersionToKubeVersion`: for major 1, versions whose offset
  would take the kube minor below zero (such as 1.0 with a kube minor of 1)
  are excluded by a precondition, for the reason given for `OffsetMinor`.
- `ServerBuilder.OffsetMinor`: a minor offset below zero is excluded by a
  precondition. The external version library's behaviour there is not part of
  this model.
- `Strategy.UpdatePrepare`: the decorator's wrapped inner strategy is not
  called after the override. The decorator's implementation file is not part
  of this model. The promoted methods of the embedded strategy are also left out.
- `Strategy.NamespaceScoped`: with nothing wrapped the model answers `None`.
  That case is not exercised by the source.
- `Strategy` fallbacks: when a type lacks a capability, the model keeps the
  name, reports no errors, answers false and leaves the object unchanged. The
  DefaultStrategy implementation is not part of this model.
- `Strategy.PrepareForUpdate`: copying the stored status first and running the
  incoming object's hook second is the model's choice. The test's hook ignores
  status, so it does not fix the order. A hook that reads the status would see
  the stored status here and the incoming one under the reverse order.
- `Strategy.ConvertToTable`: consulting the wrapped object, not the argument,
  is the model's choice. The test passes the same object as both.
- `Strategy.NewDefaultStrategy`: the scheme and group-resource arguments of the
  registration call are dropped. No modelled behaviour reads them.
- `Objects.CopyStatusTo`: the type check is the test type's own body. The model
  compares type names, so two values of one embedding type (such as the
  test's `nameGen`) copy status to each other. Go's promoted `testObj` method
  would not copy there, because its target assertion is on `*testObj`.
- Hooks act on an object's data, not on the whole object. The old object is
  handed to them as data, which avoids a datatype recursing through functions.
- `Rest.CompleteWithOptions` models only the failure of the options getter
  from the generic registry's completion step. Its other internal checks are
  left out.
- `Rest.SelectableFields` promises only the two entries the source's test
  checks. The library's `ObjectMetaFieldsSet` is given its two-field body.
- `strategy.Match` is kept as an opaque reference (`MatchOf`). Its
  label/field selector semantics belong to the generic registry.
- Type metadata, codecs, the parameter codec, short names and the singular
  name are left out. They do not affect the storage layout.
- Merge collisions: when both inputs hold the same version and resource, the
  code silently keeps the second input's store. The model does the same, and
  `MergeCommutesWithoutCollision` shows that order matters only there.
