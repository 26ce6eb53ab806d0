/**
 Concrete scenarios: the cases of apiserver/rest/strategy_test.go and
 apiserver/rest/rest_test.go, the merge cases of apiserver/builder_test.go, and the
 example server of example/cmd/foo-apiserver/main.go, stated against the model.
 */
module Scenarios {
  import opened Wrappers
  import opened Objects
  import opened Strategy
  import opened Rest
  import opened Server
  import opened Registration
  import opened StorageMaps
  import opened ServerBuilder

  // ---------------------------------------------------------------------------------
  // The test type of the strategy tests

  /** The spec payload stands for the test type's `Flag` field once a hook has set it. */
  const FlagSet := "flag=true"

  function SetFlag(d: Data): Data {
    d.(spec := FlagSet)
  }

  const Invalid := FieldError("spec", "bad", "invalid")

  /** testObj: every hook sets the flag, both validations report one error, one table row. */
  const TestCaps := Capabilities(
    generateName := None,
    prepareForCreate := Some((ctx: Context, d: Data) => SetFlag(d)),
    prepareForUpdate := Some((ctx: Context, d: Data, o: Data) => SetFlag(d)),
    validate := Some((ctx: Context, d: Data) => [Invalid]),
    validateUpdate := Some((ctx: Context, d: Data, o: Data) => [Invalid]),
    canonicalize := Some((d: Data) => SetFlag(d)),
    allowCreateOnUpdate := None,
    allowUnconditionalUpdate := None,
    convertToTable := Some((ctx: Context, d: Data) => Success(Table([TableRow([])]))))

  const TestDecl := ResourceDecl(GroupResource("arc", "testobjs"), true)

  const TestObjKind := Kind("testObj", Some(TestDecl), true, TestCaps)
  const NameGenKind := Kind("nameGen", Some(TestDecl), true,
                            TestCaps.(generateName := Some((b: string) => b + "-GEN")))
  const ScoperKind := Kind("scoper", Some(ResourceDecl(GroupResource("arc", "testobjs"), false)), true, TestCaps)
  const AllowCreateKind := Kind("allowCreate", Some(TestDecl), true, TestCaps.(allowCreateOnUpdate := Some(true)))
  const AllowUnconditionalKind := Kind("allowUnconditional", Some(TestDecl), true,
                                       TestCaps.(allowUnconditionalUpdate := Some(true)))

  const EmptyMeta := ObjectMeta("", "", map[], map[], "")

  function WithStatus(k: Kind, status: Payload): Object {
    Object(k, Data(EmptyMeta, "", status))
  }

  const Background := Context(map[])

  lemma NameGeneratorScenario()
    ensures GenerateName(DefaultStrategy(Some(WithStatus(NameGenKind, ""))), "base") == "base-GEN"
  {
  }

  lemma ScoperScenario()
    ensures NamespaceScoped(DefaultStrategy(Some(WithStatus(ScoperKind, "")))) == Some(false)
  {
  }

  lemma PrepareForCreateScenario()
    ensures PrepareForCreate(DefaultStrategy(None), Background, WithStatus(TestObjKind, "")).data.spec == FlagSet
  {
  }

  /** The stored status wins and the incoming object's own hook still runs. */
  lemma PrepareForUpdateScenario()
    ensures var r := PrepareForUpdate(DefaultStrategy(None), Background,
                                      WithStatus(TestObjKind, "new-status"), WithStatus(TestObjKind, "old-status"));
            r.data.status == "old-status" && r.data.spec == FlagSet
  {
  }

  lemma ValidateScenario()
    ensures |Validate(DefaultStrategy(None), Background, WithStatus(TestObjKind, ""))| > 0
    ensures |ValidateUpdate(DefaultStrategy(None), Background, WithStatus(TestObjKind, ""), WithStatus(TestObjKind, ""))| > 0
  {
  }

  lemma AllowScenario()
    ensures AllowCreateOnUpdate(DefaultStrategy(Some(WithStatus(AllowCreateKind, ""))))
    ensures AllowUnconditionalUpdate(DefaultStrategy(Some(WithStatus(AllowUnconditionalKind, ""))))
  {
  }

  lemma CanonicalizeAndTableScenario()
    ensures var obj := WithStatus(TestObjKind, "");
            var s := DefaultStrategy(Some(obj));
            && Canonicalize(s, obj).data.spec == FlagSet
            && ConvertToTable(s, Background, obj).Some?
            && ConvertToTable(s, Background, obj).value.Success?
            && |ConvertToTable(s, Background, obj).value.value.rows| == 1
  {
  }

  /**
   An override that marks the incoming object and records the context it was given in
   its annotations, so the call, its argument order and the context passed all show.
   */
  function Recorder(): OverrideFn {
    (ctx: Context, obj: Object, stored: Object) =>
      Success(UpdatePair(obj.(data := obj.data.(spec := "called", meta := obj.data.meta.(annotations := ctx.values))),
                         stored))
  }

  lemma OverrideCalledScenario()
    ensures var u := PrepareForUpdater(Some(DefaultUpdate(DefaultStrategy(Some(WithStatus(TestObjKind, ""))))),
                                       Some(Recorder()));
            UpdatePrepare(u, Context(map["key" := "val"]), WithStatus(TestObjKind, "new"), WithStatus(TestObjKind, "old"))
              == Success(UpdatePair(Object(TestObjKind, Data(EmptyMeta.(annotations := map["key" := "val"]), "called", "new")),
                                    WithStatus(TestObjKind, "old")))
  {
  }

  lemma NilOverrideScenario()
    ensures UpdatePrepare(PrepareForUpdater(None, None), Background, WithStatus(TestObjKind, ""), WithStatus(TestObjKind, "")).Success?
  {
  }

  lemma GetAttrsScenario()
    ensures var meta := ObjectMeta("myname", "ns", map["foo" := "bar"], map[], "");
            var r := GetAttrs(Object(TestObjKind, Data(meta, "", "")));
            && r.Success?
            && r.value.labels["foo"] == "bar"
            && r.value.fields["metadata.name"] == "myname"
            && r.value.fields["metadata.namespace"] == "ns"
  {
  }

  // ---------------------------------------------------------------------------------
  // Merge cases

  lemma MergeSameVersionScenario(pods: int, services: int)
    ensures var m := Merge(map["v1" := map["pods" := pods]], map["v1" := map["services" := services]]);
            && m.Keys == {"v1"}
            && m["v1"] == map["pods" := pods, "services" := services]
  {
  }

  lemma MergeDifferentVersionsScenario(pods: int, orders: int)
    ensures var m := Merge(map["v1" := map["pods" := pods]], map["v1beta1" := map["orders" := orders]]);
            && m.Keys == {"v1", "v1beta1"}
            && m["v1"] == map["pods" := pods]
            && m["v1beta1"] == map["orders" := orders]
  {
  }

  // ---------------------------------------------------------------------------------
  // The example server: two resources of one group and version

  const FooGroup := "foo.opendefense.cloud"
  const V1alpha1 := GroupVersion(FooGroup, "v1alpha1")

  const BarKind := Kind("Bar", Some(ResourceDecl(GroupResource(FooGroup, "bars"), true)), false, NoCapabilities)
  const ClusterBarKind := Kind("ClusterBar", Some(ResourceDecl(GroupResource(FooGroup, "clusterbars"), false)), false,
                               NoCapabilities)

  const FooScheme := Scheme(map[FooGroup := ["v1alpha1"]])

  /** The group info one example resource contributes: `v1alpha1` holding just that resource. */
  lemma ExampleResourceInfo(template: Object, config: CompletedConfig)
    requires template.kind == BarKind || template.kind == ClusterBarKind
    requires forall gr :: config.restOptionsGetter.getRESTOptions(gr).Success?
    ensures var r := ApiGroupFor(template, [V1alpha1], FooScheme, config);
            var res := template.kind.decl.value.groupResource.resource;
            && r.Success?
            && GroupOf(r.value) == FooGroup
            && r.value.storageMap.Keys == {"v1alpha1"}
            && r.value.storageMap["v1alpha1"].Keys == {res}
  {
  }

  lemma InGroupPair(x: APIGroupInfo, y: APIGroupInfo)
    requires GroupOf(x) == GroupOf(y)
    ensures InGroup([x, y], GroupOf(x)) == [x, y]
  {
  }

  lemma MergeAllPair(m: VersionedStorage<Store>, n: VersionedStorage<Store>)
    ensures MergeAll([m, n]) == Merge(m, n)
  {
  }

  /** Two infos of one group accumulate into one entry: the first, with both storage maps merged. */
  lemma TwoInfosOneGroup(x: APIGroupInfo, y: APIGroupInfo)
    requires GroupOf(x) == GroupOf(y)
    ensures GroupsOf([x, y]) == {GroupOf(x)}
    ensures GroupEntry([x, y], GroupOf(x)) == x.(storageMap := Merge(x.storageMap, y.storageMap))
  {
    var infos := [x, y];
    var g := GroupOf(x);
    assert GroupsOf(infos) == {g} by {
      assert GroupOf(infos[0]) == g && GroupOf(infos[1]) == g;
    }
    InGroupPair(x, y);
    assert StorageMapsOf([x, y]) == [x.storageMap, y.storageMap];
    MergeAllPair(x.storageMap, y.storageMap);
  }

  function ExampleBuilder(): Builder {
    With(With(WithComponentName(NewBuilder(), "foo"),
              Resource(Object(BarKind, Data(EmptyMeta, "", "")), [V1alpha1])),
         Resource(Object(ClusterBarKind, Data(EmptyMeta, "", "")), [V1alpha1]))
  }

  /** The example builder holds both group versions and the two resources' group functions, in order. */
  lemma ExampleBuilderContents(config: CompletedConfig)
    ensures ExampleBuilder().groupVersions == [V1alpha1, V1alpha1]
    ensures |ExampleBuilder().apiGroupFns| == 2
    ensures ExampleBuilder().apiGroupFns[0](FooScheme, config)
              == ApiGroupFor(Object(BarKind, Data(EmptyMeta, "", "")), [V1alpha1], FooScheme, config)
    ensures ExampleBuilder().apiGroupFns[1](FooScheme, config)
              == ApiGroupFor(Object(ClusterBarKind, Data(EmptyMeta, "", "")), [V1alpha1], FooScheme, config)
  {
  }

  /** Accumulating the two example infos: one group whose `v1alpha1` holds both resources. */
  lemma ExampleAccumulation(x: APIGroupInfo, y: APIGroupInfo)
    requires GroupOf(x) == FooGroup && GroupOf(y) == FooGroup
    requires x.storageMap.Keys == {"v1alpha1"} && x.storageMap["v1alpha1"].Keys == {"bars"}
    requires y.storageMap.Keys == {"v1alpha1"} && y.storageMap["v1alpha1"].Keys == {"clusterbars"}
    ensures var m := GroupMapSpec([x, y]);
            && m.Keys == {FooGroup}
            && m[FooGroup].storageMap.Keys == {"v1alpha1"}
            && m[FooGroup].storageMap["v1alpha1"].Keys == {"bars", "clusterbars"}
  {
    TwoInfosOneGroup(x, y);
    MergeResourceKeys(x.storageMap, y.storageMap, "v1alpha1");
  }

  /**
   Registering Bar and ClusterBar at `v1alpha1` yields one group whose `v1alpha1`
   storage holds both resources and no status endpoints.
   */
  lemma ExampleServerScenario(config: CompletedConfig)
    requires forall gr :: config.restOptionsGetter.getRESTOptions(gr).Success?
    ensures GroupsConsistent(ExampleBuilder().groupVersions)
    ensures AllSucceed(ExampleBuilder().apiGroupFns, FooScheme, config)
    ensures var m := GroupMapSpec(Infos(ExampleBuilder().apiGroupFns, FooScheme, config));
            && m.Keys == {FooGroup}
            && m[FooGroup].storageMap.Keys == {"v1alpha1"}
            && m[FooGroup].storageMap["v1alpha1"].Keys == {"bars", "clusterbars"}
  {
    var fns := ExampleBuilder().apiGroupFns;
    ExampleBuilderContents(config);
    var bar := Object(BarKind, Data(EmptyMeta, "", ""));
    var clusterBar := Object(ClusterBarKind, Data(EmptyMeta, "", ""));
    ExampleResourceInfo(bar, config);
    ExampleResourceInfo(clusterBar, config);
    var x := ApiGroupFor(bar, [V1alpha1], FooScheme, config).value;
    var y := ApiGroupFor(clusterBar, [V1alpha1], FooScheme, config).value;
    assert Outcome(fns[0], FooScheme, config) == Success(x);
    assert Outcome(fns[1], FooScheme, config) == Success(y);
    assert AllSucceed(fns, FooScheme, config);
    assert Infos(fns, FooScheme, config) == [x, y];
    ExampleAccumulation(x, y);
  }
}
