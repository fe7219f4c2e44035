/**
 * The device profile cache: every profile by name, together with four
 * per-profile indexes derived from it (device objects, get and set operation
 * lists by resource name, commands by name), all kept in step.
 */
module ProfileCaches {
  import opened Wrappers
  import opened Models
  import opened Indexing
  import opened Text

  /** The indexes the cache derives from one profile. */
  function Objects(p: DeviceProfile): map<string, DeviceObject> {
    IndexBy(p.deviceResources, ObjectName, Itself)
  }

  function GetOps(p: DeviceProfile): map<string, seq<ResourceOperation>> {
    IndexBy(p.resources, ResourceName, GetList)
  }

  function SetOps(p: DeviceProfile): map<string, seq<ResourceOperation>> {
    IndexBy(p.resources, ResourceName, SetList)
  }

  function Commands(p: DeviceProfile): map<string, Command> {
    IndexBy(p.commands, CommandName, Itself)
  }

  /** `deviceObjectSliceToMap`. */
  method DeviceObjectSliceToMap(deviceObjects: seq<DeviceObject>) returns (result: map<string, DeviceObject>)
    ensures result == IndexBy(deviceObjects, ObjectName, Itself)
  {
    result := map[];
    for i := 0 to |deviceObjects|
      invariant result == IndexBy(deviceObjects[..i], ObjectName, Itself)
    {
      var o := deviceObjects[i];
      assert deviceObjects[..i + 1] == deviceObjects[..i] + [o];
      IndexBySnoc(deviceObjects[..i], o, ObjectName, Itself);
      result := result[o.name := o];
    }
    assert deviceObjects[..|deviceObjects|] == deviceObjects;
  }

  /** `profileResourceSliceToMaps`: the get and the set lists, each by resource name. */
  method ProfileResourceSliceToMaps(profileResources: seq<ProfileResource>)
    returns (getResult: map<string, seq<ResourceOperation>>, setResult: map<string, seq<ResourceOperation>>)
    ensures getResult == IndexBy(profileResources, ResourceName, GetList)
    ensures setResult == IndexBy(profileResources, ResourceName, SetList)
  {
    getResult, setResult := map[], map[];
    for i := 0 to |profileResources|
      invariant getResult == IndexBy(profileResources[..i], ResourceName, GetList)
      invariant setResult == IndexBy(profileResources[..i], ResourceName, SetList)
    {
      var pr := profileResources[i];
      assert profileResources[..i + 1] == profileResources[..i] + [pr];
      IndexBySnoc(profileResources[..i], pr, ResourceName, GetList);
      IndexBySnoc(profileResources[..i], pr, ResourceName, SetList);
      getResult := getResult[pr.name := pr.getOps];
      setResult := setResult[pr.name := pr.setOps];
    }
    assert profileResources[..|profileResources|] == profileResources;
  }

  /** `commandSliceToMap`. */
  method CommandSliceToMap(commands: seq<Command>) returns (result: map<string, Command>)
    ensures result == IndexBy(commands, CommandName, Itself)
  {
    result := map[];
    for i := 0 to |commands|
      invariant result == IndexBy(commands[..i], CommandName, Itself)
    {
      var c := commands[i];
      assert commands[..i + 1] == commands[..i] + [c];
      IndexBySnoc(commands[..i], c, CommandName, Itself);
      result := result[c.name := c];
    }
    assert commands[..|commands|] == commands;
  }

  /** The five maps share one key set, each profile is stored under its name, and the indexes are its own. */
  ghost predicate Coherent(
    dpMap: map<string, DeviceProfile>,
    doMap: map<string, map<string, DeviceObject>>,
    getOpMap: map<string, map<string, seq<ResourceOperation>>>,
    setOpMap: map<string, map<string, seq<ResourceOperation>>>,
    cmdMap: map<string, map<string, Command>>)
  {
    && doMap.Keys == dpMap.Keys
    && getOpMap.Keys == dpMap.Keys
    && setOpMap.Keys == dpMap.Keys
    && cmdMap.Keys == dpMap.Keys
    && forall n :: n in dpMap ==>
         && dpMap[n].name == n
         && doMap[n] == Objects(dpMap[n])
         && getOpMap[n] == GetOps(dpMap[n])
         && setOpMap[n] == SetOps(dpMap[n])
         && cmdMap[n] == Commands(dpMap[n])
  }

  lemma StorePreservesCoherent(
    dpMap: map<string, DeviceProfile>,
    doMap: map<string, map<string, DeviceObject>>,
    getOpMap: map<string, map<string, seq<ResourceOperation>>>,
    setOpMap: map<string, map<string, seq<ResourceOperation>>>,
    cmdMap: map<string, map<string, Command>>,
    p: DeviceProfile)
    requires Coherent(dpMap, doMap, getOpMap, setOpMap, cmdMap)
    ensures Coherent(dpMap[p.name := p], doMap[p.name := Objects(p)], getOpMap[p.name := GetOps(p)],
                     setOpMap[p.name := SetOps(p)], cmdMap[p.name := Commands(p)])
  {
    var dp, dobj := dpMap[p.name := p], doMap[p.name := Objects(p)];
    var gets, sets := getOpMap[p.name := GetOps(p)], setOpMap[p.name := SetOps(p)];
    var cmds := cmdMap[p.name := Commands(p)];
    assert dobj.Keys == dp.Keys && gets.Keys == dp.Keys && sets.Keys == dp.Keys && cmds.Keys == dp.Keys;
    forall n | n in dp
      ensures dp[n].name == n && dobj[n] == Objects(dp[n]) && gets[n] == GetOps(dp[n])
        && sets[n] == SetOps(dp[n]) && cmds[n] == Commands(dp[n])
    {
      if n != p.name {
        assert dp[n] == dpMap[n] && dobj[n] == doMap[n] && gets[n] == getOpMap[n];
        assert sets[n] == setOpMap[n] && cmds[n] == cmdMap[n];
      }
    }
  }

  lemma RemovePreservesCoherent(
    dpMap: map<string, DeviceProfile>,
    doMap: map<string, map<string, DeviceObject>>,
    getOpMap: map<string, map<string, seq<ResourceOperation>>>,
    setOpMap: map<string, map<string, seq<ResourceOperation>>>,
    cmdMap: map<string, map<string, Command>>,
    name: string)
    requires Coherent(dpMap, doMap, getOpMap, setOpMap, cmdMap)
    ensures Coherent(dpMap - {name}, doMap - {name}, getOpMap - {name}, setOpMap - {name}, cmdMap - {name})
  {
  }

  /** A command is indexed exactly when some resource has its name, and the entry is the last such resource's list. */
  lemma OpsIndexed(rs: seq<ProfileResource>, cmd: string, list: ProfileResource -> seq<ResourceOperation>)
    ensures cmd in IndexBy(rs, ResourceName, list) <==> exists i :: 0 <= i < |rs| && rs[i].name == cmd
    ensures cmd in IndexBy(rs, ResourceName, list) ==>
      exists i :: 0 <= i < |rs| && rs[i].name == cmd && LastWithKey(rs, ResourceName, i) && IndexBy(rs, ResourceName, list)[cmd] == list(rs[i])
  {
    IndexByKeys(rs, ResourceName, list);
    if cmd in IndexBy(rs, ResourceName, list) {
      IndexByOrigin(rs, ResourceName, list, cmd);
    }
  }

  /** The operation list of a profile resource for a request method. */
  function OpsFor(r: ProfileResource, verb: string): seq<ResourceOperation> {
    if ToLower(verb) == "get" then r.getOps else r.setOps
  }

  class ProfileCache {
    var dpMap: map<string, DeviceProfile>
    var doMap: map<string, map<string, DeviceObject>>
    var getOpMap: map<string, map<string, seq<ResourceOperation>>>
    var setOpMap: map<string, map<string, seq<ResourceOperation>>>
    var cmdMap: map<string, map<string, Command>>

    ghost predicate Valid()
      reads this
    {
      Coherent(dpMap, doMap, getOpMap, setOpMap, cmdMap)
    }

    /** The body of `newProfileCache`'s one-time initialisation. */
    constructor (profiles: seq<DeviceProfile>)
      ensures Valid()
      ensures dpMap == IndexBy(profiles, ProfileName, Itself)
    {
      var dp: map<string, DeviceProfile> := map[];
      var dobj: map<string, map<string, DeviceObject>> := map[];
      var gets: map<string, map<string, seq<ResourceOperation>>> := map[];
      var sets: map<string, map<string, seq<ResourceOperation>>> := map[];
      var cmds: map<string, map<string, Command>> := map[];
      for i := 0 to |profiles|
        invariant dp == IndexBy(profiles[..i], ProfileName, Itself)
        invariant Coherent(dp, dobj, gets, sets, cmds)
      {
        var p := profiles[i];
        assert profiles[..i + 1] == profiles[..i] + [p];
        IndexBySnoc(profiles[..i], p, ProfileName, Itself);
        var objs := DeviceObjectSliceToMap(p.deviceResources);
        var g, s := ProfileResourceSliceToMaps(p.resources);
        var c := CommandSliceToMap(p.commands);
        StorePreservesCoherent(dp, dobj, gets, sets, cmds, p);
        dp := dp[p.name := p];
        dobj := dobj[p.name := objs];
        gets := gets[p.name := g];
        sets := sets[p.name := s];
        cmds := cmds[p.name := c];
      }
      assert profiles[..|profiles|] == profiles;
      dpMap, doMap, getOpMap, setOpMap, cmdMap := dp, dobj, gets, sets, cmds;
    }

    /** `ForName`: the profile stored under name; it carries that name. */
    function ForName(name: string): (r: Option<DeviceProfile>)
      reads this
      requires Valid()
      ensures r.Some? <==> name in dpMap
      ensures r.Some? ==> r.value == dpMap[name] && r.value.name == name
    {
      if name in dpMap then Some(dpMap[name]) else None
    }

    /** `All`: every stored profile exactly once, in the map's (unspecified) order. */
    method All() returns (ps: seq<DeviceProfile>)
      requires Valid()
      ensures |ps| == |dpMap|
      ensures forall i :: 0 <= i < |ps| ==> ps[i].name in dpMap && dpMap[ps[i].name] == ps[i]
      ensures forall n :: n in dpMap ==> dpMap[n] in ps
      ensures forall i, j :: 0 <= i < j < |ps| ==> ps[i].name != ps[j].name
    {
      ps := Values(dpMap, ProfileName);
    }

    /** `Add`: refuses a name already cached; otherwise caches the profile and its indexes. */
    method Add(profile: DeviceProfile) returns (err: Option<string>)
      requires Valid()
      modifies this
      ensures Valid()
      ensures profile.name in old(dpMap) ==>
        && err == Some("device profile " + profile.name + " has already existed in cache")
        && unchanged(this)
      ensures profile.name !in old(dpMap) ==>
        && err == None
        && dpMap == old(dpMap)[profile.name := profile]
        && doMap == old(doMap)[profile.name := Objects(profile)]
        && getOpMap == old(getOpMap)[profile.name := GetOps(profile)]
        && setOpMap == old(setOpMap)[profile.name := SetOps(profile)]
        && cmdMap == old(cmdMap)[profile.name := Commands(profile)]
    {
      if profile.name in dpMap {
        return Some("device profile " + profile.name + " has already existed in cache");
      }
      Store(profile);
      err := None;
    }

    /** The map writes shared by Add and Update. */
    method Store(profile: DeviceProfile)
      requires Valid()
      modifies this
      ensures Valid()
      ensures dpMap == old(dpMap)[profile.name := profile]
      ensures doMap == old(doMap)[profile.name := Objects(profile)]
      ensures getOpMap == old(getOpMap)[profile.name := GetOps(profile)]
      ensures setOpMap == old(setOpMap)[profile.name := SetOps(profile)]
      ensures cmdMap == old(cmdMap)[profile.name := Commands(profile)]
    {
      var objs := DeviceObjectSliceToMap(profile.deviceResources);
      var g, s := ProfileResourceSliceToMaps(profile.resources);
      var c := CommandSliceToMap(profile.commands);
      StorePreservesCoherent(dpMap, doMap, getOpMap, setOpMap, cmdMap, profile);
      dpMap := dpMap[profile.name := profile];
      doMap := doMap[profile.name := objs];
      getOpMap := getOpMap[profile.name := g];
      setOpMap := setOpMap[profile.name := s];
      cmdMap := cmdMap[profile.name := c];
    }

    /** `Update`: refuses an unknown name; otherwise replaces the profile and rebuilds its indexes from it alone. */
    method Update(profile: DeviceProfile) returns (err: Option<string>)
      requires Valid()
      modifies this
      ensures Valid()
      ensures profile.name !in old(dpMap) ==>
        && err == Some("device profile " + profile.name + " does not exist in cache")
        && unchanged(this)
      ensures profile.name in old(dpMap) ==>
        && err == None
        && dpMap == old(dpMap)[profile.name := profile]
        && doMap == old(doMap)[profile.name := Objects(profile)]
        && getOpMap == old(getOpMap)[profile.name := GetOps(profile)]
        && setOpMap == old(setOpMap)[profile.name := SetOps(profile)]
        && cmdMap == old(cmdMap)[profile.name := Commands(profile)]
    {
      if profile.name !in dpMap {
        return Some("device profile " + profile.name + " does not exist in cache");
      }
      Store(profile);
      err := None;
    }

    /** `RemoveByName`: refuses an unknown name; otherwise drops it from all five maps. */
    method RemoveByName(name: string) returns (err: Option<string>)
      requires Valid()
      modifies this
      ensures Valid()
      ensures name !in old(dpMap) ==>
        && err == Some("device profile " + name + " does not exist in cache")
        && unchanged(this)
      ensures name in old(dpMap) ==>
        && err == None
        && dpMap == old(dpMap) - {name}
        && doMap == old(doMap) - {name}
        && getOpMap == old(getOpMap) - {name}
        && setOpMap == old(setOpMap) - {name}
        && cmdMap == old(cmdMap) - {name}
    {
      if name !in dpMap {
        return Some("device profile " + name + " does not exist in cache");
      }
      RemovePreservesCoherent(dpMap, doMap, getOpMap, setOpMap, cmdMap, name);
      dpMap := dpMap - {name};
      doMap := doMap - {name};
      getOpMap := getOpMap - {name};
      setOpMap := setOpMap - {name};
      cmdMap := cmdMap - {name};
      err := None;
    }

    /**
     * `DeviceObject`: found exactly when the profile is cached and declares
     * a device resource of that name; it is the last such declaration.
     */
    function DeviceObject(profileName: string, objectName: string): (r: Option<Models.DeviceObject>)
      reads this
      requires Valid()
      ensures r.Some? <==>
        profileName in dpMap &&
        exists i :: 0 <= i < |dpMap[profileName].deviceResources| && dpMap[profileName].deviceResources[i].name == objectName
      ensures r.Some? ==>
        var drs := dpMap[profileName].deviceResources;
        exists i :: 0 <= i < |drs| && drs[i] == r.value && r.value.name == objectName && LastWithKey(drs, ObjectName, i)
    {
      if profileName !in doMap then None
      else
        var drs := dpMap[profileName].deviceResources;
        IndexByKeys(drs, ObjectName, Itself);
        if objectName !in doMap[profileName] then None
        else
          IndexByOrigin(drs, ObjectName, Itself, objectName);
          Some(doMap[profileName][objectName])
    }

    /** `CommandExists`: an error for an unknown profile, else whether it declares the command. */
    function CommandExists(prfName: string, cmd: string): (r: Result<bool, string>)
      reads this
      requires Valid()
      ensures prfName !in dpMap ==>
        r == Failure("profiles: CommandExists: specified profile: " + prfName + " not found")
      ensures prfName in dpMap ==>
        var cs := dpMap[prfName].commands;
        r == Success(exists i :: 0 <= i < |cs| && cs[i].name == cmd)
    {
      if prfName !in cmdMap then Failure("profiles: CommandExists: specified profile: " + prfName + " not found")
      else
        IndexByKeys(dpMap[prfName].commands, CommandName, Itself);
        if cmd !in cmdMap[prfName] then Success(false)
        else Success(true)
    }

    /**
     * `ResourceOperations`: the get list of the named resource when the
     * method is "get" in any letter case, its set list otherwise.
     */
    function ResourceOperations(prfName: string, cmd: string, verb: string): (r: Result<seq<ResourceOperation>, string>)
      reads this
      requires Valid()
      ensures prfName !in dpMap ==>
        r == Failure("profiles: ResourceOperations: specified profile: " + prfName + " not found")
      ensures prfName in dpMap ==>
        var rs := dpMap[prfName].resources;
        && (r.Success? <==> exists i :: 0 <= i < |rs| && rs[i].name == cmd)
        && (r.Failure? ==> r.error == "profiles: ResourceOperations: specified cmd: " + cmd + " not found")
        && (r.Success? ==> exists i :: 0 <= i < |rs| && rs[i].name == cmd && LastWithKey(rs, ResourceName, i) && r.value == OpsFor(rs[i], verb))
    {
      if ToLower(verb) == "get" then
        if prfName !in getOpMap then Failure("profiles: ResourceOperations: specified profile: " + prfName + " not found")
        else
          var rs := dpMap[prfName].resources;
          OpsIndexed(rs, cmd, GetList);
          if cmd !in getOpMap[prfName] then Failure("profiles: ResourceOperations: specified cmd: " + cmd + " not found")
          else Success(getOpMap[prfName][cmd])
      else
        if prfName !in setOpMap then Failure("profiles: ResourceOperations: specified profile: " + prfName + " not found")
        else
          var rs := dpMap[prfName].resources;
          OpsIndexed(rs, cmd, SetList);
          if cmd !in setOpMap[prfName] then Failure("profiles: ResourceOperations: specified cmd: " + cmd + " not found")
          else Success(setOpMap[prfName][cmd])
    }
  }

  /** `newProfileCache`'s `sync.Once`: the cache is built by the first call only. */
  class ProfileCacheOnce {
    var done: bool
    var pc: ProfileCache?

    ghost predicate Valid()
      reads this, pc
    {
      (done <==> pc != null) && (pc != null ==> pc.Valid())
    }

    constructor ()
      ensures Valid() && !done
    {
      done, pc := false, null;
    }

    method NewProfileCache(profiles: seq<DeviceProfile>) returns (cache: ProfileCache)
      requires Valid()
      modifies this
      ensures Valid() && done && pc == cache && cache.Valid()
      ensures old(done) ==> cache == old(pc)
      ensures !old(done) ==> fresh(cache) && cache.Valid() && cache.dpMap == IndexBy(profiles, ProfileName, Itself)
    {
      if !done {
        pc := new ProfileCache(profiles);
        done := true;
      }
      cache := pc;
    }
  }
}
