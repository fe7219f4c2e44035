/**
 * The device command endpoint: the guards a command request passes
 * (service lock, device lookup, device lock, command existence) and the
 * GET execution that resolves a command's resource operations into driver
 * requests and turns the driver's values into an event.
 */
module Handler {
  import opened Ints
  import opened Wrappers
  import opened Models
  import opened Text
  import opened Indexing
  import CommandValues
  import opened ProfileCaches
  import opened DeviceCaches

  /** The service's error kinds (HTTP 423, 404 and 500). */
  datatype AppError = LockedError(msg: string) | NotFoundError(msg: string) | ServerError(msg: string)

  /** The `(*models.Event, common.AppError)` pair a handler returns. */
  datatype Response = Response(event: Option<Event>, err: Option<AppError>)

  /** One value returned by a driver, with the device object its resource operation named. */
  datatype DriverResult = DriverResult(objectName: string, value: CommandValues.CommandValue)

  /** The service settings the handler reads. */
  datatype Service = Service(name: string, locked: bool, maxCmdOps: nat)

  /**
   * What the handler calls but does not define: the protocol driver's
   * `HandleGetCommands`, the transform applied to each value, the `%v`
   * formatting of a value, and the clock reading (in milliseconds).
   */
  datatype Context = Context(
    driver: (Addressable, seq<CommandRequest>) -> Result<seq<DriverResult>, string>,
    transform: (CommandValues.CommandValue, PropertyValue) -> bool,
    show: CommandValues.CommandValue -> string,
    now: int64)

  /** An event's readings and whether every transform succeeded. */
  datatype Assembled = Assembled(readings: seq<Reading>, transformsOK: bool)

  function MissingObject(obj: string, device: Device, cmd: string): AppError {
    ServerError("no devobject: " + obj + " for dev: " + device.name + " cmd: " + cmd + " method: GET")
  }

  function MissingResultObject(obj: string, device: Device, shown: string): AppError {
    ServerError("no devobject: " + obj + " for dev: " + device.name + " in Command Result " + shown)
  }

  function TooManyOps(svc: Service, device: Device, cmd: string): AppError {
    ServerError("MaxCmdOps (" + IntToDecimal(svc.maxCmdOps) + ") execeeded for dev: " + device.name + " cmd: " + cmd + " method: GET")
  }

  function DriverFailed(device: Device, cmd: string, e: string): AppError {
    ServerError("HandleGetCommands error for Device: " + device.name + " cmd: " + cmd + ", " + e)
  }

  function TransformFailed(device: Device, cmd: string): AppError {
    ServerError("Transform failed for dev: " + device.name + " cmd: " + cmd + " method: GET")
  }

  function Find(objects: map<string, Models.DeviceObject>, name: string): Option<Models.DeviceObject> {
    if name in objects then Some(objects[name]) else None
  }

  /** The device objects a profile declares, by name, as the cache indexes them; none for a profile it does not hold. */
  function ProfileObjects(pc: ProfileCache, profileName: string): map<string, Models.DeviceObject>
    reads pc
    requires pc.Valid()
  {
    if profileName in pc.doMap then pc.doMap[profileName] else map[]
  }

  /** The cache's `DeviceObject` for the device's profile: a lookup among the profile's objects. */
  function DeviceObjectOf(pc: ProfileCache, device: Device, o: string): (r: Option<Models.DeviceObject>)
    reads pc
    requires pc.Valid()
    ensures r == Find(ProfileObjects(pc, device.profile.name), o)
  {
    pc.DeviceObject(device.profile.name, o)
  }

  /**
   * The driver requests for ops: each operation with the device object it
   * names, or the error for the first operation whose object is not declared.
   */
  function Requests(objects: map<string, Models.DeviceObject>, device: Device, cmd: string, ops: seq<ResourceOperation>): (r: Result<seq<CommandRequest>, AppError>)
    ensures r.Success? ==> |r.value| == |ops|
    decreases |ops|
  {
    if ops == [] then Success([])
    else
      var op := ops[|ops| - 1];
      match Requests(objects, device, cmd, ops[..|ops| - 1])
      case Failure(e) => Failure(e)
      case Success(reqs) =>
        if op.objectName !in objects then Failure(MissingObject(op.objectName, device, cmd))
        else Success(reqs + [CommandRequest(op, objects[op.objectName])])
  }

  /** The requests succeed exactly when every operation's object is declared, and then pair each operation with it, in order. */
  lemma {:induction false} RequestsSucceed(objects: map<string, Models.DeviceObject>, device: Device, cmd: string, ops: seq<ResourceOperation>)
    ensures Requests(objects, device, cmd, ops).Success? <==> forall i :: 0 <= i < |ops| ==> ops[i].objectName in objects
    ensures Requests(objects, device, cmd, ops).Success? ==>
      forall i :: 0 <= i < |ops| ==>
        Requests(objects, device, cmd, ops).value[i] == CommandRequest(ops[i], objects[ops[i].objectName])
    decreases |ops|
  {
    if ops != [] {
      var init := ops[..|ops| - 1];
      assert forall i :: 0 <= i < |init| ==> init[i] == ops[i];
      RequestsSucceed(objects, device, cmd, init);
    }
  }

  /** A failure names the first operation whose object is not declared. */
  lemma {:induction false} RequestsFailAtFirst(objects: map<string, Models.DeviceObject>, device: Device, cmd: string, ops: seq<ResourceOperation>)
    requires Requests(objects, device, cmd, ops).Failure?
    ensures exists i :: (0 <= i < |ops| && ops[i].objectName !in objects
      && (forall j :: 0 <= j < i ==> ops[j].objectName in objects)
      && Requests(objects, device, cmd, ops).error == MissingObject(ops[i].objectName, device, cmd))
    decreases |ops|
  {
    var init := ops[..|ops| - 1];
    assert forall i :: 0 <= i < |init| ==> init[i] == ops[i];
    if Requests(objects, device, cmd, init).Failure? {
      RequestsFailAtFirst(objects, device, cmd, init);
    } else {
      RequestsSucceed(objects, device, cmd, init);
      assert ops[|ops| - 1].objectName !in objects;
    }
  }

  /**
   * The readings for the driver's results, in order, each named after the
   * device object its result names, and whether every transform held; or
   * the error for the first result whose object is not declared.
   */
  function Assemble(objects: map<string, Models.DeviceObject>, device: Device, results: seq<DriverResult>, ctx: Context): (r: Result<Assembled, AppError>)
    ensures r.Success? ==> |r.value.readings| == |results|
    decreases |results|
  {
    if results == [] then Success(Assembled([], true))
    else
      var cr := results[|results| - 1];
      match Assemble(objects, device, results[..|results| - 1], ctx)
      case Failure(e) => Failure(e)
      case Success(a) =>
        if cr.objectName !in objects then Failure(MissingResultObject(cr.objectName, device, ctx.show(cr.value)))
        else
          var o := objects[cr.objectName];
          var ok := ctx.transform(cr.value, o.properties.value);
          Success(Assembled(a.readings + [CommandValues.Reading(cr.value, device.name, o.name, ctx.now)], a.transformsOK && ok))
  }

  /**
   * Assembly succeeds exactly when every result's object is declared; then
   * reading i is result i's value named after its object, and the
   * transforms are reported as held exactly when each one held.
   */
  lemma {:induction false} AssembleSucceeds(objects: map<string, Models.DeviceObject>, device: Device, results: seq<DriverResult>, ctx: Context)
    ensures Assemble(objects, device, results, ctx).Success? <==> forall i :: 0 <= i < |results| ==> results[i].objectName in objects
    ensures Assemble(objects, device, results, ctx).Success? ==>
      var a := Assemble(objects, device, results, ctx).value;
      && (forall i :: 0 <= i < |results| ==>
            a.readings[i] == CommandValues.Reading(results[i].value, device.name, objects[results[i].objectName].name, ctx.now))
      && (a.transformsOK <==> forall i :: 0 <= i < |results| ==>
            ctx.transform(results[i].value, objects[results[i].objectName].properties.value))
    decreases |results|
  {
    if results != [] {
      var init, cr := results[..|results| - 1], results[|results| - 1];
      assert forall i :: 0 <= i < |init| ==> init[i] == results[i];
      AssembleSucceeds(objects, device, init, ctx);
      if Assemble(objects, device, results, ctx).Success? {
        var a, a' := Assemble(objects, device, init, ctx).value, Assemble(objects, device, results, ctx).value;
        var o := objects[cr.objectName];
        assert a'.readings == a.readings + [CommandValues.Reading(cr.value, device.name, o.name, ctx.now)];
        assert a'.transformsOK == (a.transformsOK && ctx.transform(cr.value, o.properties.value));
      }
    }
  }

  /** A failure names the first result whose object is not declared, shown with its value. */
  lemma {:induction false} AssembleFailsAtFirst(objects: map<string, Models.DeviceObject>, device: Device, results: seq<DriverResult>, ctx: Context)
    requires Assemble(objects, device, results, ctx).Failure?
    ensures exists i :: (0 <= i < |results| && results[i].objectName !in objects
      && (forall j :: 0 <= j < i ==> results[j].objectName in objects)
      && Assemble(objects, device, results, ctx).error == MissingResultObject(results[i].objectName, device, ctx.show(results[i].value)))
    decreases |results|
  {
    var init := results[..|results| - 1];
    assert forall i :: 0 <= i < |init| ==> init[i] == results[i];
    if Assemble(objects, device, init, ctx).Failure? {
      AssembleFailsAtFirst(objects, device, init, ctx);
    } else {
      AssembleSucceeds(objects, device, init, ctx);
      assert results[|results| - 1].objectName !in objects;
    }
  }

  /** `execGetCmd` as a function of the caches, the settings and the collaborators. */
  function ExecGet(pc: ProfileCache, device: Device, cmd: string, svc: Service, ctx: Context): (r: Response)
    reads pc
    requires pc.Valid()
    ensures r.event.None? ==> r.err.Some?
    ensures r.event.Some? ==> r.event.value.device == device.name && r.event.value.origin == ctx.now
    ensures r.event.Some? && r.err.Some? ==> r.err == Some(TransformFailed(device, cmd))
    ensures var ops := pc.ResourceOperations(device.profile.name, cmd, "get");
      ops.Failure? ==> r == Response(None, Some(NotFoundError(ops.error)))
    ensures var ops := pc.ResourceOperations(device.profile.name, cmd, "get");
      var reqs := if ops.Success? then Requests(ProfileObjects(pc, device.profile.name), device, cmd, ops.value) else Success([]);
      ops.Success? && |ops.value| <= svc.maxCmdOps && reqs.Success? && ctx.driver(device.addressable, reqs.value).Failure? ==>
        r == Response(None, Some(DriverFailed(device, cmd, ctx.driver(device.addressable, reqs.value).error)))
  {
    match pc.ResourceOperations(device.profile.name, cmd, "get")
    case Failure(e) => Response(None, Some(NotFoundError(e)))
    case Success(ops) =>
      if |ops| > svc.maxCmdOps then Response(None, Some(TooManyOps(svc, device, cmd)))
      else
        var objects := ProfileObjects(pc, device.profile.name);
        match Requests(objects, device, cmd, ops)
        case Failure(e) => Response(None, Some(e))
        case Success(reqs) =>
          match ctx.driver(device.addressable, reqs)
          case Failure(e) => Response(None, Some(DriverFailed(device, cmd, e)))
          case Success(results) =>
            match Assemble(objects, device, results, ctx)
            case Failure(e) => Response(None, Some(e))
            case Success(a) =>
              var event := Event(device.name, ctx.now, a.readings);
              if a.transformsOK then Response(Some(event), None)
              else Response(Some(event), Some(TransformFailed(device, cmd)))
  }

  /** The first loop of `execGetCmd`: one request per operation, in order, resolving each operation's device object. */
  method BuildRequests(pc: ProfileCache, device: Device, cmd: string, ops: seq<ResourceOperation>) returns (r: Result<seq<CommandRequest>, AppError>)
    requires pc.Valid()
    ensures r == Requests(ProfileObjects(pc, device.profile.name), device, cmd, ops)
  {
    ghost var objects := ProfileObjects(pc, device.profile.name);
    var reqs: seq<CommandRequest> := [];
    for i := 0 to |ops|
      invariant Requests(objects, device, cmd, ops[..i]) == Success(reqs)
    {
      var op := ops[i];
      RequestsStep(objects, device, cmd, ops, i, reqs);
      match DeviceObjectOf(pc, device, op.objectName) {
        case None =>
          RequestsOfFailedPrefix(objects, device, cmd, ops, i + 1);
          return Failure(MissingObject(op.objectName, device, cmd));
        case Some(o) =>
          reqs := reqs + [CommandRequest(op, o)];
      }
    }
    assert ops[..|ops|] == ops;
    return Success(reqs);
  }

  /** The second loop of `execGetCmd`: one reading per driver result, clearing the flag on a failed transform. */
  method AssembleReadings(pc: ProfileCache, device: Device, results: seq<DriverResult>, ctx: Context) returns (r: Result<Assembled, AppError>)
    requires pc.Valid()
    ensures r == Assemble(ProfileObjects(pc, device.profile.name), device, results, ctx)
  {
    ghost var objects := ProfileObjects(pc, device.profile.name);
    var transformsOK := true;
    var readings: seq<Reading> := [];
    for i := 0 to |results|
      invariant Assemble(objects, device, results[..i], ctx) == Success(Assembled(readings, transformsOK))
    {
      var cr := results[i];
      AssembleStep(objects, device, results, ctx, i, Assembled(readings, transformsOK));
      match DeviceObjectOf(pc, device, cr.objectName) {
        case None =>
          AssembleOfFailedPrefix(objects, device, results, ctx, i + 1);
          return Failure(MissingResultObject(cr.objectName, device, ctx.show(cr.value)));
        case Some(o) =>
          var ok := ctx.transform(cr.value, o.properties.value);
          if !ok {
            transformsOK := false;
          }
          readings := readings + [CommandValues.Reading(cr.value, device.name, o.name, ctx.now)];
      }
    }
    assert results[..|results|] == results;
    return Success(Assembled(readings, transformsOK));
  }

  /** `execGetCmd`: resolves the command's operations, calls the driver once, and builds the event. */
  method ExecGetCmd(pc: ProfileCache, device: Device, cmd: string, svc: Service, ctx: Context) returns (r: Response)
    requires pc.Valid()
    ensures r == ExecGet(pc, device, cmd, svc, ctx)
  {
    var ops: seq<ResourceOperation>;
    match pc.ResourceOperations(device.profile.name, cmd, "get") {
      case Failure(e) =>
        return Response(None, Some(NotFoundError(e)));
      case Success(o) =>
        ops := o;
    }
    if |ops| > svc.maxCmdOps {
      return Response(None, Some(TooManyOps(svc, device, cmd)));
    }
    var reqs: seq<CommandRequest>;
    var built := BuildRequests(pc, device, cmd, ops);
    match built {
      case Failure(e) =>
        return Response(None, Some(e));
      case Success(rs) =>
        reqs := rs;
    }
    var results: seq<DriverResult>;
    match ctx.driver(device.addressable, reqs) {
      case Failure(e) =>
        return Response(None, Some(DriverFailed(device, cmd, e)));
      case Success(rs) =>
        results := rs;
    }
    var assembled := AssembleReadings(pc, device, results, ctx);
    match assembled {
      case Failure(e) =>
        return Response(None, Some(e));
      case Success(a) =>
        var event := Event(device.name, ctx.now, a.readings);
        if !a.transformsOK {
          return Response(Some(event), Some(TransformFailed(device, cmd)));
        }
        return Response(Some(event), None);
    }
  }

  /** One more operation extends the requests or fails on its object. */
  lemma RequestsStep(objects: map<string, Models.DeviceObject>, device: Device, cmd: string, ops: seq<ResourceOperation>, i: nat, reqs: seq<CommandRequest>)
    requires i < |ops| && Requests(objects, device, cmd, ops[..i]) == Success(reqs)
    ensures Requests(objects, device, cmd, ops[..i + 1]) ==
      if ops[i].objectName in objects then Success(reqs + [CommandRequest(ops[i], objects[ops[i].objectName])])
      else Failure(MissingObject(ops[i].objectName, device, cmd))
  {
    assert ops[..i + 1][..i] == ops[..i];
  }

  /** One more driver result extends the readings or fails on its object. */
  lemma AssembleStep(objects: map<string, Models.DeviceObject>, device: Device, results: seq<DriverResult>, ctx: Context, i: nat, a: Assembled)
    requires i < |results| && Assemble(objects, device, results[..i], ctx) == Success(a)
    ensures var cr := results[i];
      Assemble(objects, device, results[..i + 1], ctx) ==
        if cr.objectName in objects then
          Success(Assembled(a.readings + [CommandValues.Reading(cr.value, device.name, objects[cr.objectName].name, ctx.now)],
                            a.transformsOK && ctx.transform(cr.value, objects[cr.objectName].properties.value)))
        else Failure(MissingResultObject(cr.objectName, device, ctx.show(cr.value)))
  {
    assert results[..i + 1][..i] == results[..i];
  }

  /** A failing prefix makes every longer list fail with the same error. */
  lemma {:induction false} RequestsOfFailedPrefix(objects: map<string, Models.DeviceObject>, device: Device, cmd: string, ops: seq<ResourceOperation>, k: nat)
    requires k <= |ops|
    requires Requests(objects, device, cmd, ops[..k]).Failure?
    ensures Requests(objects, device, cmd, ops) == Requests(objects, device, cmd, ops[..k])
    decreases |ops| - k
  {
    if k < |ops| {
      assert ops[..k + 1][..k] == ops[..k];
      RequestsOfFailedPrefix(objects, device, cmd, ops, k + 1);
    } else {
      assert ops[..k] == ops;
    }
  }

  lemma {:induction false} AssembleOfFailedPrefix(objects: map<string, Models.DeviceObject>, device: Device, results: seq<DriverResult>, ctx: Context, k: nat)
    requires k <= |results|
    requires Assemble(objects, device, results[..k], ctx).Failure?
    ensures Assemble(objects, device, results, ctx) == Assemble(objects, device, results[..k], ctx)
    decreases |results| - k
  {
    if k < |results| {
      assert results[..k + 1][..k] == results[..k];
      AssembleOfFailedPrefix(objects, device, results, ctx, k + 1);
    } else {
      assert results[..k] == results;
    }
  }

  /** `execPutCmd`: a set command does nothing yet and reports no error. */
  function ExecPutCmd(device: Device, cmd: string): (err: Option<AppError>)
    ensures err == None
  {
    None
  }

  /** A route variable, or the empty string when it is absent (Go's zero value). */
  function Var(vars: map<string, string>, key: string): string {
    if key in vars then vars[key] else ""
  }

  /** `CommandHandler` from the device lock onward, for the device the id resolved to. */
  function HandleDevice(pc: ProfileCache, d: Device, cmd: string, verb: string, svc: Service, ctx: Context): (r: Response)
    reads pc
    requires pc.Valid()
    ensures d.adminState == Locked ==> r == Response(None, Some(LockedError(d.name + " is locked; " + verb)))
    ensures ToLower(verb) != "get" && r.err.None? ==> r.event.None?
  {
    if d.adminState == Locked then Response(None, Some(LockedError(d.name + " is locked; " + verb)))
    else
      match pc.CommandExists(d.profile.name, cmd)
      case Failure(_) => Response(None, Some(ServerError("internal error; Device: " + d.name + " searching " + cmd + " in cache failed; " + verb)))
      case Success(exists_) =>
        if !exists_ then Response(None, Some(NotFoundError(cmd + " for Device: " + d.name + " not found; " + verb)))
        else if ToLower(verb) == "get" then ExecGet(pc, d, cmd, svc, ctx)
        else Response(None, ExecPutCmd(d, cmd))
  }

  /**
   * `CommandHandler`: a locked service is refused first, then an unknown
   * device id, then everything `HandleDevice` decides for the device found.
   */
  method CommandHandler(vars: map<string, string>, body: string, verb: string, svc: Service,
                        dc: DeviceCache, pc: ProfileCache, ctx: Context) returns (r: Response)
    requires dc.Valid() && pc.Valid()
    ensures svc.locked ==> r == Response(None, Some(LockedError(svc.name + " is locked; " + verb)))
    ensures !svc.locked && (forall n :: n in dc.dMap ==> dc.dMap[n].id != Var(vars, "id")) ==>
      r == Response(None, Some(NotFoundError("Device: " + Var(vars, "id") + " not found; " + verb)))
    ensures !svc.locked && (exists n :: n in dc.dMap && dc.dMap[n].id == Var(vars, "id")) ==>
      exists n :: n in dc.dMap && dc.dMap[n].id == Var(vars, "id") &&
        r == HandleDevice(pc, dc.dMap[n], Var(vars, "command"), verb, svc, ctx)
  {
    var id := Var(vars, "id");
    var cmd := Var(vars, "command");
    if svc.locked {
      return Response(None, Some(LockedError(svc.name + " is locked; " + verb)));
    }
    var found := dc.ForId(id);
    if found.None? {
      return Response(None, Some(NotFoundError("Device: " + id + " not found; " + verb)));
    }
    var d := found.value;
    if d.adminState == Locked {
      return Response(None, Some(LockedError(d.name + " is locked; " + verb)));
    }
    match pc.CommandExists(d.profile.name, cmd) {
      case Failure(_) =>
        return Response(None, Some(ServerError("internal error; Device: " + d.name + " searching " + cmd + " in cache failed; " + verb)));
      case Success(exists_) =>
        if !exists_ {
          return Response(None, Some(NotFoundError(cmd + " for Device: " + d.name + " not found; " + verb)));
        }
    }
    if ToLower(verb) == "get" {
      r := ExecGetCmd(pc, d, cmd, svc, ctx);
    } else {
      var appErr := ExecPutCmd(d, cmd);
      r := Response(None, appErr);
    }
  }

  /** A locked device is refused whatever the profile cache holds: the lock is checked before any lookup. */
  lemma LockedDeviceIgnoresProfiles(pc1: ProfileCache, pc2: ProfileCache, d: Device, cmd: string, verb: string, svc: Service, ctx: Context)
    requires pc1.Valid() && pc2.Valid() && d.adminState == Locked
    ensures HandleDevice(pc1, d, cmd, verb, svc, ctx) == HandleDevice(pc2, d, cmd, verb, svc, ctx)
  {
  }

  /** The three lookup outcomes before execution: unknown profile, unknown command, and a GET. */
  lemma HandleDeviceOutcomes(pc: ProfileCache, d: Device, cmd: string, verb: string, svc: Service, ctx: Context)
    requires pc.Valid() && d.adminState != Locked
    ensures d.profile.name !in pc.dpMap ==>
      HandleDevice(pc, d, cmd, verb, svc, ctx).err == Some(ServerError("internal error; Device: " + d.name + " searching " + cmd + " in cache failed; " + verb))
    ensures d.profile.name in pc.dpMap && (forall i :: 0 <= i < |pc.dpMap[d.profile.name].commands| ==> pc.dpMap[d.profile.name].commands[i].name != cmd) ==>
      HandleDevice(pc, d, cmd, verb, svc, ctx).err == Some(NotFoundError(cmd + " for Device: " + d.name + " not found; " + verb))
    ensures d.profile.name in pc.dpMap && (exists i :: 0 <= i < |pc.dpMap[d.profile.name].commands| && pc.dpMap[d.profile.name].commands[i].name == cmd) ==>
      HandleDevice(pc, d, cmd, verb, svc, ctx) ==
        (if ToLower(verb) == "get" then ExecGet(pc, d, cmd, svc, ctx) else Response(None, None))
  {
  }

  /** More operations than the limit are refused without calling the driver: the driver cannot affect the outcome. */
  lemma TooManyOpsIgnoresDriver(pc: ProfileCache, device: Device, cmd: string, svc: Service, ctx1: Context, ctx2: Context)
    requires pc.Valid()
    requires var ops := pc.ResourceOperations(device.profile.name, cmd, "get"); ops.Success? && |ops.value| > svc.maxCmdOps
    ensures ExecGet(pc, device, cmd, svc, ctx1) == ExecGet(pc, device, cmd, svc, ctx2)
    ensures ExecGet(pc, device, cmd, svc, ctx1) == Response(None, Some(TooManyOps(svc, device, cmd)))
  {
  }

  /** An operation naming an undeclared device object aborts the command before the driver is called. */
  lemma MissingObjectIgnoresDriver(pc: ProfileCache, device: Device, cmd: string, svc: Service, ctx1: Context, ctx2: Context, k: int)
    requires pc.Valid()
    requires var ops := pc.ResourceOperations(device.profile.name, cmd, "get");
      ops.Success? && |ops.value| <= svc.maxCmdOps &&
      0 <= k < |ops.value| && pc.DeviceObject(device.profile.name, ops.value[k].objectName).None?
    ensures ExecGet(pc, device, cmd, svc, ctx1) == ExecGet(pc, device, cmd, svc, ctx2)
    ensures ExecGet(pc, device, cmd, svc, ctx1).event.None?
    ensures ExecGet(pc, device, cmd, svc, ctx1).err.value.ServerError?
  {
    var ops := pc.ResourceOperations(device.profile.name, cmd, "get").value;
    var objects := ProfileObjects(pc, device.profile.name);
    assert DeviceObjectOf(pc, device, ops[k].objectName).None?;
    RequestsSucceed(objects, device, cmd, ops);
    RequestsFailAtFirst(objects, device, cmd, ops);
  }

  /**
   * When every operation and every driver result names a declared device
   * object, the GET returns an event with one reading per result, and it
   * reports an error exactly when some transform failed.
   */
  lemma TransformFailureReported(pc: ProfileCache, device: Device, cmd: string, svc: Service, ctx: Context, results: seq<DriverResult>)
    requires pc.Valid()
    requires var ops := pc.ResourceOperations(device.profile.name, cmd, "get");
      var objects := ProfileObjects(pc, device.profile.name);
      ops.Success? && |ops.value| <= svc.maxCmdOps && Requests(objects, device, cmd, ops.value).Success? &&
      ctx.driver(device.addressable, Requests(objects, device, cmd, ops.value).value) == Success(results)
    requires forall i :: 0 <= i < |results| ==> pc.DeviceObject(device.profile.name, results[i].objectName).Some?
    ensures var r := ExecGet(pc, device, cmd, svc, ctx);
      && r.event.Some?
      && |r.event.value.readings| == |results|
      && (r.err.Some? <==>
            exists i :: (0 <= i < |results| &&
              !ctx.transform(results[i].value, pc.DeviceObject(device.profile.name, results[i].objectName).value.properties.value)))
  {
    var objects := ProfileObjects(pc, device.profile.name);
    forall i | 0 <= i < |results|
      ensures pc.DeviceObject(device.profile.name, results[i].objectName) == Find(objects, results[i].objectName)
    {
      assert DeviceObjectOf(pc, device, results[i].objectName) == Find(objects, results[i].objectName);
    }
    AssembleSucceeds(objects, device, results, ctx);
  }

  /** With the value's own `TransformResult`, which always succeeds, a GET never reports a transform failure. */
  lemma StubTransformNeverFails(pc: ProfileCache, device: Device, cmd: string, svc: Service, ctx: Context)
    requires pc.Valid()
    requires forall cv, pv :: ctx.transform(cv, pv) == CommandValues.TransformResult(cv, pv)
    ensures ExecGet(pc, device, cmd, svc, ctx).event.Some? ==> ExecGet(pc, device, cmd, svc, ctx).err.None?
  {
    var objects := ProfileObjects(pc, device.profile.name);
    match pc.ResourceOperations(device.profile.name, cmd, "get")
    case Failure(_) =>
    case Success(ops) =>
      if |ops| <= svc.maxCmdOps && Requests(objects, device, cmd, ops).Success? {
        match ctx.driver(device.addressable, Requests(objects, device, cmd, ops).value)
        case Failure(_) =>
        case Success(results) =>
          AssembleSucceeds(objects, device, results, ctx);
      }
  }
}
