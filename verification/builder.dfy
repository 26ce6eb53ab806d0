/**
 The builder (apiserver/builder.go): collection of group functions and group
 versions, the group-consistency check, the per-group accumulation of storage maps,
 the emulation-version mapping to the dependent kube component, and the informers
 started once the server runs.
 */
module ServerBuilder {
  import opened Wrappers
  import opened Objects
  import opened Rest
  import opened Server
  import opened Registration
  import opened StorageMaps

  /** A background informer factory, identified by name; starting it is external. */
  datatype SharedInformerFactory = SharedInformerFactory(name: string)

  /** The builder state this core reads and writes. */
  datatype Builder = Builder(
    componentName: string,
    groupVersions: seq<GroupVersion>,
    apiGroupFns: seq<APIGroupFn>,
    sharedInformerFactories: seq<SharedInformerFactory>)

  function NewBuilder(): (b: Builder)
    ensures b.groupVersions == [] && b.apiGroupFns == [] && b.sharedInformerFactories == []
  {
    Builder("", [], [], [])
  }

  function WithComponentName(b: Builder, n: string): (r: Builder)
    ensures r.componentName == n
    ensures r.groupVersions == b.groupVersions && r.apiGroupFns == b.apiGroupFns
    ensures r.sharedInformerFactories == b.sharedInformerFactories
  {
    b.(componentName := n)
  }

  /** A nil function is ignored; any other is appended. */
  function WithAPIGroupFn(b: Builder, fn: Option<APIGroupFn>): (r: Builder)
    ensures fn.None? ==> r == b
    ensures fn.Some? ==> |r.apiGroupFns| == |b.apiGroupFns| + 1 && r.apiGroupFns[|b.apiGroupFns|] == fn.value
    ensures fn.Some? ==> r.apiGroupFns[..|b.apiGroupFns|] == b.apiGroupFns
    ensures r.componentName == b.componentName && r.groupVersions == b.groupVersions
    ensures r.sharedInformerFactories == b.sharedInformerFactories
  {
    match fn
    case None => b
    case Some(f) => b.(apiGroupFns := b.apiGroupFns + [f])
  }

  function WithGroupVersions(b: Builder, gvs: seq<GroupVersion>): (r: Builder)
    ensures |r.groupVersions| == |b.groupVersions| + |gvs|
    ensures r.groupVersions[..|b.groupVersions|] == b.groupVersions && r.groupVersions[|b.groupVersions|..] == gvs
    ensures r.componentName == b.componentName && r.apiGroupFns == b.apiGroupFns
    ensures r.sharedInformerFactories == b.sharedInformerFactories
  {
    b.(groupVersions := b.groupVersions + gvs)
  }

  /** A nil factory is ignored; any other is appended. */
  function WithSharedInformerFactory(b: Builder, f: Option<SharedInformerFactory>): (r: Builder)
    ensures f.None? ==> r == b
    ensures f.Some? ==> r.sharedInformerFactories == b.sharedInformerFactories + [f.value]
    ensures r.componentName == b.componentName && r.groupVersions == b.groupVersions
    ensures r.apiGroupFns == b.apiGroupFns
  {
    match f
    case None => b
    case Some(factory) => b.(sharedInformerFactories := b.sharedInformerFactories + [factory])
  }

  /** Registers a handler: its group function when it has one, then all its group versions. */
  function With(b: Builder, rh: ResourceHandler): (r: Builder)
    ensures r.groupVersions == b.groupVersions + rh.groupVersions
    ensures r.apiGroupFns == b.apiGroupFns + (if rh.apiGroupFn.Some? then [rh.apiGroupFn.value] else [])
    ensures r.componentName == b.componentName && r.sharedInformerFactories == b.sharedInformerFactories
  {
    WithGroupVersions(WithAPIGroupFn(b, rh.apiGroupFn), rh.groupVersions)
  }

  /** Registering a resource adds exactly its versions and exactly one group function. */
  lemma WithResourceAppendsOne(b: Builder, template: Object, gvs: seq<GroupVersion>, scheme: Scheme,
                               config: CompletedConfig)
    requires IsObject(template.kind)
    ensures var r := With(b, Resource(template, gvs));
            && r.groupVersions == b.groupVersions + gvs
            && |r.apiGroupFns| == |b.apiGroupFns| + 1
            && r.apiGroupFns[..|b.apiGroupFns|] == b.apiGroupFns
            && r.apiGroupFns[|b.apiGroupFns|](scheme, config) == ApiGroupFor(template, gvs, scheme, config)
  {
  }

  // ---------------------------------------------------------------------------------
  // Group consistency

  const SameGroupExpected := "all exposed resources expected to have the same group"

  /** After the first non-empty group, every later group version has that same group. */
  predicate GroupsConsistent(gvs: seq<GroupVersion>) {
    forall i, j | 0 <= i < j < |gvs| :: gvs[i].group != "" ==> gvs[j].group == gvs[i].group
  }

  /** The group of the last group version, empty for no group versions. */
  function LastGroup(gvs: seq<GroupVersion>): string {
    if |gvs| == 0 then "" else gvs[|gvs| - 1].group
  }

  /**
   The scan at the start of Execute: any leading run of empty groups is accepted, after
   which every group must equal the first non-empty one; the result is the last group seen.
   */
  method CheckGroupVersions(gvs: seq<GroupVersion>) returns (r: Result<string, Fault>)
    ensures r.Success? <==> GroupsConsistent(gvs)
    ensures r.Failure? ==> r.error == Panic(SameGroupExpected)
    ensures r.Success? ==> r.value == LastGroup(gvs)
    ensures r.Success? ==> forall i | 0 <= i < |gvs| && gvs[i].group != "" :: gvs[i].group == r.value
  {
    var groupName := "";
    var i := 0;
    while i < |gvs|
      invariant 0 <= i <= |gvs|
      invariant GroupsConsistent(gvs[..i])
      invariant groupName == LastGroup(gvs[..i])
    {
      if groupName != "" && groupName != gvs[i].group {
        assert gvs[i - 1].group == groupName;
        return Failure(Panic(SameGroupExpected));
      }
      forall j, k | 0 <= j < k < i + 1 && gvs[j].group != ""
        ensures gvs[k].group == gvs[j].group
      {
        if k == i {
          assert gvs[..i][j] == gvs[j] && gvs[..i][i - 1] == gvs[i - 1];
          if j < i - 1 {
            assert gvs[i - 1].group == gvs[j].group;
          }
        } else {
          assert gvs[..i][j] == gvs[j] && gvs[..i][k] == gvs[k];
        }
      }
      assert gvs[..i + 1][|gvs[..i + 1]| - 1] == gvs[i];
      groupName := gvs[i].group;
      i := i + 1;
    }
    assert gvs[..i] == gvs;
    return Success(groupName);
  }

  // ---------------------------------------------------------------------------------
  // Per-group accumulation of the group functions' results

  const EmptyGroupName := "empty group name is not allowed"

  /** The group of an info: that of its first prioritized version, empty when it has none. */
  function GroupOf(info: APIGroupInfo): string {
    if |info.prioritizedVersions| == 0 then "" else info.prioritizedVersions[0].group
  }

  /** Calling one group function: its panic, an error for an empty group name, or its info. */
  function Outcome(fn: APIGroupFn, scheme: Scheme, config: CompletedConfig): (r: Result<APIGroupInfo, Fault>)
    ensures r.Success? <==> fn(scheme, config).Success? && GroupOf(fn(scheme, config).value) != ""
    ensures r.Success? ==> r.value == fn(scheme, config).value
    ensures r.Failure? && fn(scheme, config).Failure? ==> r.error == fn(scheme, config).error
    ensures r.Failure? && fn(scheme, config).Success? ==> r.error == Err(EmptyGroupName)
  {
    match fn(scheme, config)
    case Failure(f) => Failure(f)
    case Success(info) => if GroupOf(info) == "" then Failure(Err(EmptyGroupName)) else Success(info)
  }

  predicate AllSucceed(fns: seq<APIGroupFn>, scheme: Scheme, config: CompletedConfig) {
    forall k | 0 <= k < |fns| :: Outcome(fns[k], scheme, config).Success?
  }

  /** The infos of group functions that all succeed, in order. */
  function Infos(fns: seq<APIGroupFn>, scheme: Scheme, config: CompletedConfig): (r: seq<APIGroupInfo>)
    requires AllSucceed(fns, scheme, config)
    ensures |r| == |fns|
    ensures forall k | 0 <= k < |fns| :: r[k] == Outcome(fns[k], scheme, config).value
  {
    seq(|fns|, k requires 0 <= k < |fns| => Outcome(fns[k], scheme, config).value)
  }

  /** `f` is the outcome of the first failing group function, all earlier ones having succeeded. */
  ghost predicate FirstFailure(fns: seq<APIGroupFn>, scheme: Scheme, config: CompletedConfig, f: Fault) {
    exists k | 0 <= k < |fns| ::
      AllSucceed(fns[..k], scheme, config) && Outcome(fns[k], scheme, config) == Failure(f)
  }

  function GroupsOf(infos: seq<APIGroupInfo>): set<string> {
    set i | 0 <= i < |infos| :: GroupOf(infos[i])
  }

  /** The infos of group `g`, in order. */
  function InGroup(infos: seq<APIGroupInfo>, g: string): (r: seq<APIGroupInfo>)
    ensures forall i | 0 <= i < |r| :: GroupOf(r[i]) == g
    ensures |r| > 0 <==> g in GroupsOf(infos)
    decreases |infos|
  {
    if |infos| == 0 then
      []
    else
      var front := infos[..|infos| - 1];
      var last := infos[|infos| - 1];
      assert forall i | 0 <= i < |front| :: front[i] == infos[i];
      assert GroupsOf(infos) == GroupsOf(front) + {GroupOf(last)};
      InGroup(front, g) + (if GroupOf(last) == g then [last] else [])
  }

  function StorageMapsOf(infos: seq<APIGroupInfo>): (r: seq<VersionedStorage<Store>>)
    ensures |r| == |infos|
  {
    seq(|infos|, i requires 0 <= i < |infos| => infos[i].storageMap)
  }

  /** The left-to-right fold of merges: the first map, merged with each later one in turn. */
  function MergeAll(ms: seq<VersionedStorage<Store>>): VersionedStorage<Store>
    requires |ms| > 0
  {
    if |ms| == 1 then ms[0] else Merge(MergeAll(ms[..|ms| - 1]), ms[|ms| - 1])
  }

  /**
   The reference result of the accumulation: one entry per group; the first handler's
   info for that group, with the storage maps of all its handlers merged left to right.
   */
  function GroupMapSpec(infos: seq<APIGroupInfo>): (r: map<string, APIGroupInfo>)
    ensures r.Keys == GroupsOf(infos)
    ensures forall g | g in r :: r[g] == GroupEntry(infos, g)
  {
    map g | g in GroupsOf(infos) :: GroupEntry(infos, g)
  }

  /** The entry of group `g`: its first info, carrying the merge of all its storage maps. */
  function GroupEntry(infos: seq<APIGroupInfo>, g: string): APIGroupInfo
    requires g in GroupsOf(infos)
  {
    var members := InGroup(infos, g);
    members[0].(storageMap := MergeAll(StorageMapsOf(members)))
  }

  /** One step of the accumulation loop on the reference: fold `x` into its group's entry. */
  function AddInfo(m: map<string, APIGroupInfo>, x: APIGroupInfo): map<string, APIGroupInfo> {
    var g := GroupOf(x);
    if g in m then m[g := m[g].(storageMap := Merge(m[g].storageMap, x.storageMap))] else m[g := x]
  }

  lemma GroupsOfSnoc(infos: seq<APIGroupInfo>, x: APIGroupInfo)
    ensures GroupsOf(infos + [x]) == GroupsOf(infos) + {GroupOf(x)}
  {
    var all := infos + [x];
    assert forall i | 0 <= i < |infos| :: all[i] == infos[i];
    assert all[|infos|] == x;
  }

  lemma InGroupSnoc(infos: seq<APIGroupInfo>, x: APIGroupInfo, g: string)
    ensures InGroup(infos + [x], g) == InGroup(infos, g) + (if GroupOf(x) == g then [x] else [])
  {
  }

  lemma MergeAllSnoc(ms: seq<VersionedStorage<Store>>, m: VersionedStorage<Store>)
    requires |ms| > 0
    ensures MergeAll(ms + [m]) == Merge(MergeAll(ms), m)
  {
  }

  lemma StorageMapsOfSnoc(infos: seq<APIGroupInfo>, x: APIGroupInfo)
    ensures StorageMapsOf(infos + [x]) == StorageMapsOf(infos) + [x.storageMap]
  {
  }

  /** The entry of the group of `x` once `x` is appended. */
  lemma GroupEntrySnoc(infos: seq<APIGroupInfo>, x: APIGroupInfo)
    ensures GroupOf(x) in GroupsOf(infos + [x])
    ensures var g := GroupOf(x);
            GroupEntry(infos + [x], g)
              == if g in GroupsOf(infos) then
                   GroupEntry(infos, g).(storageMap := Merge(GroupEntry(infos, g).storageMap, x.storageMap))
                 else x
  {
    var g := GroupOf(x);
    GroupsOfSnoc(infos, x);
    InGroupSnoc(infos, x, g);
    var members := InGroup(infos, g);
    StorageMapsOfSnoc(members, x);
    if |members| == 0 {
      assert InGroup(infos + [x], g) == [x];
      assert StorageMapsOf([x]) == [x.storageMap];
    } else {
      MergeAllSnoc(StorageMapsOf(members), x.storageMap);
      assert (members + [x])[0] == members[0];
    }
  }

  /** The entries of other groups do not change when `x` is appended. */
  lemma OtherEntrySnoc(infos: seq<APIGroupInfo>, x: APIGroupInfo, g: string)
    requires g != GroupOf(x) && g in GroupsOf(infos)
    ensures g in GroupsOf(infos + [x])
    ensures GroupEntry(infos + [x], g) == GroupEntry(infos, g)
  {
    GroupsOfSnoc(infos, x);
    InGroupSnoc(infos, x, g);
    assert InGroup(infos + [x], g) == InGroup(infos, g) + [];
    assert InGroup(infos, g) + [] == InGroup(infos, g);
  }

  /** Appending one info to the sequence is one step of the accumulation. */
  lemma {:induction false} GroupMapSpecSnoc(infos: seq<APIGroupInfo>, x: APIGroupInfo)
    ensures GroupMapSpec(infos + [x]) == AddInfo(GroupMapSpec(infos), x)
  {
    var l := GroupMapSpec(infos + [x]);
    var m := GroupMapSpec(infos);
    var r := AddInfo(m, x);
    GroupsOfSnoc(infos, x);
    assert l.Keys == r.Keys;
    forall g | g in l
      ensures l[g] == r[g]
    {
      if g == GroupOf(x) {
        GroupEntrySnoc(infos, x);
      } else {
        OtherEntrySnoc(infos, x, g);
        assert r[g] == m[g];
      }
    }
  }

  /** A prefix that succeeds extends by one successful call. */
  lemma AllSucceedSnoc(fns: seq<APIGroupFn>, scheme: Scheme, config: CompletedConfig, i: nat)
    requires i < |fns|
    requires AllSucceed(fns[..i], scheme, config)
    requires Outcome(fns[i], scheme, config).Success?
    ensures AllSucceed(fns[..i + 1], scheme, config)
  {
  }

  lemma InfosSnoc(fns: seq<APIGroupFn>, scheme: Scheme, config: CompletedConfig, i: nat)
    requires i < |fns|
    requires AllSucceed(fns[..i], scheme, config)
    requires AllSucceed(fns[..i + 1], scheme, config)
    ensures Infos(fns[..i + 1], scheme, config)
              == Infos(fns[..i], scheme, config) + [Outcome(fns[i], scheme, config).value]
  {
  }

  /** One iteration of the accumulation loop keeps it equal to the reference. */
  lemma CollectStep(fns: seq<APIGroupFn>, scheme: Scheme, config: CompletedConfig, i: nat,
                    m: map<string, APIGroupInfo>)
    requires i < |fns|
    requires AllSucceed(fns[..i], scheme, config)
    requires m == GroupMapSpec(Infos(fns[..i], scheme, config))
    requires Outcome(fns[i], scheme, config).Success?
    ensures AllSucceed(fns[..i + 1], scheme, config)
    ensures AddInfo(m, Outcome(fns[i], scheme, config).value) == GroupMapSpec(Infos(fns[..i + 1], scheme, config))
  {
    AllSucceedSnoc(fns, scheme, config, i);
    InfosSnoc(fns, scheme, config, i);
    GroupMapSpecSnoc(Infos(fns[..i], scheme, config), Outcome(fns[i], scheme, config).value);
  }

  /**
   The accumulation loop of Execute: each group function is called in turn; its panic
   propagates, an info without a group name is an error, the first info of a group is
   kept and the storage maps of later infos of that group are merged into it.
   */
  method CollectAPIGroups(fns: seq<APIGroupFn>, scheme: Scheme, config: CompletedConfig)
    returns (r: Result<map<string, APIGroupInfo>, Fault>)
    ensures r.Success? <==> AllSucceed(fns, scheme, config)
    ensures r.Failure? ==> FirstFailure(fns, scheme, config, r.error)
    ensures r.Success? ==> r.value == GroupMapSpec(Infos(fns, scheme, config))
  {
    var apiGroupMap: map<string, APIGroupInfo> := map[];
    var i := 0;
    assert Infos(fns[..0], scheme, config) == [];
    assert GroupsOf([]) == {};
    while i < |fns|
      invariant 0 <= i <= |fns|
      invariant AllSucceed(fns[..i], scheme, config)
      invariant apiGroupMap == GroupMapSpec(Infos(fns[..i], scheme, config))
    {
      var res := fns[i](scheme, config);
      if res.Failure? {
        return Failure(res.error);
      }
      var apiGroupInfo := res.value;
      var groupName := GroupOf(apiGroupInfo);
      if groupName == "" {
        return Failure(Err(EmptyGroupName));
      }
      ghost var prev := apiGroupMap;
      // A later group function's storage joins the storage its group already has.
      if groupName in apiGroupMap {
        var merged := MergeVersionedResourcesStorageMap(apiGroupMap[groupName].storageMap, apiGroupInfo.storageMap);
        apiGroupMap := apiGroupMap[groupName := apiGroupMap[groupName].(storageMap := merged)];
      } else {
        apiGroupMap := apiGroupMap[groupName := apiGroupInfo];
      }
      assert apiGroupMap == AddInfo(prev, apiGroupInfo);
      CollectStep(fns, scheme, config, i, prev);
      i := i + 1;
    }
    assert fns[..i] == fns;
    return Success(apiGroupMap);
  }

  // ---------------------------------------------------------------------------------
  // Execute, as far as assembling the API groups

  const OrderedVersionsUnset := "orderedGroupVersions not set on Builder; call WithGroupVersions(...) before Execute"

  /**
   The assembly part of Execute: the group check panics on inconsistent groups; a
   group without prioritized versions in the scheme is an error; then the group
   functions are collected into one info per group.
   */
  method Execute(b: Builder, scheme: Scheme, config: CompletedConfig)
    returns (r: Result<map<string, APIGroupInfo>, Fault>)
    ensures !GroupsConsistent(b.groupVersions) ==> r == Failure(Panic(SameGroupExpected))
    ensures GroupsConsistent(b.groupVersions) &&
            |PrioritizedVersionsForGroup(scheme, LastGroup(b.groupVersions))| == 0 ==>
              r == Failure(Err(OrderedVersionsUnset))
    ensures GroupsConsistent(b.groupVersions) &&
            |PrioritizedVersionsForGroup(scheme, LastGroup(b.groupVersions))| > 0 ==>
              && (r.Success? <==> AllSucceed(b.apiGroupFns, scheme, config))
              && (r.Failure? ==> FirstFailure(b.apiGroupFns, scheme, config, r.error))
    ensures r.Success? ==> r.value == GroupMapSpec(Infos(b.apiGroupFns, scheme, config))
  {
    var group := CheckGroupVersions(b.groupVersions);
    if group.Failure? {
      return Failure(group.error);
    }
    var orderedGroupVersions := PrioritizedVersionsForGroup(scheme, group.value);
    if |orderedGroupVersions| == 0 {
      return Failure(Err(OrderedVersionsUnset));
    }
    r := CollectAPIGroups(b.apiGroupFns, scheme, config);
  }

  // ---------------------------------------------------------------------------------
  // Emulation-version mapping

  datatype Version = Version(major: nat, minor: nat)

  predicate GreaterThan(a: Version, b: Version) {
    a.major > b.major || (a.major == b.major && a.minor > b.minor)
  }

  /** The version `diff` minor releases away; offsets below minor 0 are not modelled. */
  function OffsetMinor(v: Version, diff: int): (r: Version)
    requires v.minor + diff >= 0
    ensures r.major == v.major && r.minor == v.minor + diff
  {
    Version(v.major, v.minor + diff)
  }

  /**
   Maps this component's version to the kube version: only major 1 is mapped; minor 2
   maps to the kube version itself, every other minor is offset from it, and the
   result is clamped so it never exceeds the kube version.
   */
  function VersionToKubeVersion(ver: Version, kube: Version): (r: Option<Version>)
    requires ver.major == 1 ==> kube.minor + ver.minor >= 2
    ensures r.None? <==> ver.major != 1
    ensures r.Some? ==> r.value.major == kube.major
    ensures r.Some? ==> r.value.minor == if ver.minor >= 2 then kube.minor else kube.minor + ver.minor - 2
    ensures r.Some? ==> !GreaterThan(r.value, kube)
  {
    if ver.major != 1 then
      None
    else
      // The offset is taken from minor 2, the component version that corresponds to kube.
      var offset := ver.minor as int - 2;
      var mapped := OffsetMinor(kube, offset);
      if GreaterThan(mapped, kube) then Some(kube) else Some(mapped)
  }

  /** The component's default version 1.2 maps exactly to the kube version. */
  lemma DefaultVersionMapsToKube(kube: Version)
    ensures VersionToKubeVersion(Version(1, 2), kube) == Some(kube)
  {
  }

  /** The mapping is monotone in the minor version. */
  lemma VersionMappingMonotone(a: nat, b: nat, kube: Version)
    requires a <= b && kube.minor + a >= 2
    ensures !GreaterThan(VersionToKubeVersion(Version(1, a), kube).value,
                         VersionToKubeVersion(Version(1, b), kube).value)
  {
  }

  // ---------------------------------------------------------------------------------
  // Post-start hook

  /**
   The informers the post-start hook starts, in order: the server's own factory when it
   is set, then every registered factory, each exactly once per registration.
   */
  function StartedInformers(serverFactory: Option<SharedInformerFactory>, registered: seq<SharedInformerFactory>)
    : (started: seq<SharedInformerFactory>)
    ensures forall f :: multiset(started)[f] == multiset(registered)[f] + (if serverFactory == Some(f) then 1 else 0)
    ensures serverFactory.None? ==> started == registered
    ensures serverFactory.Some? ==> started == [serverFactory.value] + registered
  {
    match serverFactory
    case Some(f) => [f] + registered
    case None => registered
  }
}
