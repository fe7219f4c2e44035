/** The device cache: every known device by name. */
module DeviceCaches {
  import opened Wrappers
  import opened Models
  import opened Indexing

  class DeviceCache {
    var dMap: map<string, Device>

    /** Every device is stored under its own name. */
    ghost predicate Valid()
      reads this
    {
      forall n :: n in dMap ==> dMap[n].name == n
    }

    /** The body of `newDeviceCache`'s one-time initialisation: later duplicates overwrite earlier ones. */
    constructor (devices: seq<Device>)
      ensures Valid()
      ensures dMap == IndexBy(devices, DeviceName, Itself)
    {
      var m: map<string, Device> := map[];
      for i := 0 to |devices|
        invariant m == IndexBy(devices[..i], DeviceName, Itself)
        invariant forall n :: n in m ==> m[n].name == n
      {
        var d := devices[i];
        assert devices[..i + 1] == devices[..i] + [d];
        IndexBySnoc(devices[..i], d, DeviceName, Itself);
        m := m[d.name := d];
      }
      assert devices[..|devices|] == devices;
      dMap := m;
    }

    /** `ForName`: the device stored under name; it carries that name. */
    function ForName(name: string): (r: Option<Device>)
      reads this
      requires Valid()
      ensures r.Some? <==> name in dMap
      ensures r.Some? ==> r.value == dMap[name] && r.value.name == name
    {
      if name in dMap then Some(dMap[name]) else None
    }

    /**
     * The lookup by device id that the command handler uses: some cached
     * device with that id, if there is one. Which one, when several share
     * the id, depends on the map's iteration order and is left open.
     */
    method ForId(id: string) returns (r: Option<Device>)
      requires Valid()
      ensures r.None? <==> forall n :: n in dMap ==> dMap[n].id != id
      ensures r.Some? ==> r.value.id == id && r.value.name in dMap && dMap[r.value.name] == r.value
    {
      if exists n :: n in dMap && dMap[n].id == id {
        var n :| n in dMap && dMap[n].id == id;
        r := Some(dMap[n]);
      } else {
        r := None;
      }
    }

    /** `All`: every cached device exactly once, in the map's (unspecified) order. */
    method All() returns (ds: seq<Device>)
      requires Valid()
      ensures |ds| == |dMap|
      ensures forall i :: 0 <= i < |ds| ==> ds[i].name in dMap && dMap[ds[i].name] == ds[i]
      ensures forall n :: n in dMap ==> dMap[n] in ds
      ensures forall i, j :: 0 <= i < j < |ds| ==> ds[i].name != ds[j].name
    {
      ds := Values(dMap, DeviceName);
    }

    /** `Add`: refuses a name already cached; otherwise caches the device. */
    method Add(device: Device) returns (err: Option<string>)
      requires Valid()
      modifies this
      ensures Valid()
      ensures device.name in old(dMap) ==>
        err == Some("device " + device.name + " has already existed in cache") && unchanged(this)
      ensures device.name !in old(dMap) ==>
        err == None && dMap == old(dMap)[device.name := device]
      ensures err == None ==> ForName(device.name) == Some(device)
    {
      if device.name in dMap {
        return Some("device " + device.name + " has already existed in cache");
      }
      dMap := dMap[device.name := device];
      err := None;
    }

    /** `Update`: refuses an unknown name; otherwise replaces that entry only. */
    method Update(device: Device) returns (err: Option<string>)
      requires Valid()
      modifies this
      ensures Valid()
      ensures device.name !in old(dMap) ==>
        err == Some("device " + device.name + " does not exist in cache") && unchanged(this)
      ensures device.name in old(dMap) ==>
        err == None && dMap == old(dMap)[device.name := device]
    {
      if device.name !in dMap {
        return Some("device " + device.name + " does not exist in cache");
      }
      dMap := dMap[device.name := device];
      err := None;
    }

    /** `Remove`: refuses an unknown name; otherwise deletes that entry only. */
    method Remove(name: string) returns (err: Option<string>)
      requires Valid()
      modifies this
      ensures Valid()
      ensures name !in old(dMap) ==>
        err == Some("device " + name + " does not exist in cache") && unchanged(this)
      ensures name in old(dMap) ==>
        err == None && dMap == old(dMap) - {name}
      ensures ForName(name) == None
    {
      if name !in dMap {
        return Some("device " + name + " does not exist in cache");
      }
      dMap := dMap - {name};
      err := None;
    }
  }

  /** `newDeviceCache`'s `sync.Once`: the cache is built by the first call only. */
  class DeviceCacheOnce {
    var done: bool
    var dc: DeviceCache?

    ghost predicate Valid()
      reads this, dc
    {
      (done <==> dc != null) && (dc != null ==> dc.Valid())
    }

    constructor ()
      ensures Valid() && !done
    {
      done, dc := false, null;
    }

    method NewDeviceCache(devices: seq<Device>) returns (cache: DeviceCache)
      requires Valid()
      modifies this
      ensures Valid() && done && dc == cache && cache.Valid()
      ensures old(done) ==> cache == old(dc)
      ensures !old(done) ==> fresh(cache) && cache.Valid() && cache.dMap == IndexBy(devices, DeviceName, Itself)
    {
      if !done {
        dc := new DeviceCache(devices);
        done := true;
      }
      cache := dc;
    }
  }
}
