/**
 The generic server types this core consumes and produces: the scheme's version
 priorities, the completed configuration, API group information and the group
 functions the builder collects (APIGroupFn in apiserver/builder.go).
 */
module Server {
  import opened Wrappers
  import opened Objects
  import opened Rest
  import StorageMaps

  /** The versions the scheme registers for each group, highest priority first. */
  datatype Scheme = Scheme(versionPriority: map<string, seq<string>>)

  /** The scheme's prioritized group versions of `group`; all of them belong to `group`. */
  function PrioritizedVersionsForGroup(scheme: Scheme, group: string): (r: seq<GroupVersion>)
    ensures forall i | 0 <= i < |r| :: r[i].group == group
    ensures |r| == if group in scheme.versionPriority then |scheme.versionPriority[group]| else 0
  {
    var versions := if group in scheme.versionPriority then scheme.versionPriority[group] else [];
    seq(|versions|, i requires 0 <= i < |versions| => GroupVersion(group, versions[i]))
  }

  /** The part of the completed server configuration a group function reads. */
  datatype CompletedConfig = CompletedConfig(restOptionsGetter: RESTOptionsGetter)

  /** One API group as handed to the server: its versions and its storage. */
  datatype APIGroupInfo = APIGroupInfo(
    prioritizedVersions: seq<GroupVersion>,
    storageMap: StorageMaps.VersionedStorage<Store>)

  /** A fresh group info: the scheme's versions for the group and no storage yet. */
  function NewDefaultAPIGroupInfo(group: string, scheme: Scheme): (r: APIGroupInfo)
    ensures r.prioritizedVersions == PrioritizedVersionsForGroup(scheme, group)
    ensures r.storageMap == map[]
  {
    APIGroupInfo(PrioritizedVersionsForGroup(scheme, group), map[])
  }

  /** A function producing one group's info; it may panic. */
  type APIGroupFn = (Scheme, CompletedConfig) -> Result<APIGroupInfo, Fault>
}
