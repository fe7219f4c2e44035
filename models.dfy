/**
 * The metadata types of the EdgeX core models package that the device
 * service consumes (devices, profiles, resource operations, readings and
 * events), reduced to the fields the service reads or writes, plus the
 * service's own CommandRequest.
 */
module Models {
  import opened Ints

  /** Administrative state that blocks commands. */
  const Locked: string := "LOCKED"
  const Unlocked: string := "UNLOCKED"
  /** Operating states. */
  const Enabled: string := "ENABLED"
  const Disabled: string := "DISABLED"

  /** The transform parameters attached to a device object. */
  datatype PropertyValue = PropertyValue(
    valueType: string,
    readWrite: string,
    defaultValue: string,
    base: string,
    scale: string,
    offset: string,
    assertion: string)

  datatype ProfileProperty = ProfileProperty(value: PropertyValue, units: string)

  /** One addressable resource of a device profile. */
  datatype DeviceObject = DeviceObject(
    name: string,
    description: string,
    properties: ProfileProperty,
    attributes: map<string, string>)

  /** One step of a profile command, naming the device object it targets. */
  datatype ResourceOperation = ResourceOperation(
    index: string,
    operation: string,
    objectName: string,
    parameter: string,
    resource: string,
    mappings: map<string, string>)

  /** A profile command: its get and set operation lists. */
  datatype ProfileResource = ProfileResource(
    name: string,
    getOps: seq<ResourceOperation>,
    setOps: seq<ResourceOperation>)

  datatype Command = Command(name: string)

  datatype DeviceProfile = DeviceProfile(
    name: string,
    deviceResources: seq<DeviceObject>,
    resources: seq<ProfileResource>,
    commands: seq<Command>)

  datatype Addressable = Addressable(name: string, protocol: string, address: string, port: int)

  datatype Device = Device(
    id: string,
    name: string,
    adminState: string,
    operatingState: string,
    addressable: Addressable,
    profile: DeviceProfile)

  datatype ValueDescriptor = ValueDescriptor(name: string, valueType: string)

  /** A denormalized reading: resource name, device name, rendered value, time. */
  datatype Reading = Reading(name: string, device: string, value: string, origin: int64)

  datatype Event = Event(device: string, origin: int64, readings: seq<Reading>)

  /** The request handed to a protocol driver for one resource operation. */
  datatype CommandRequest = CommandRequest(ro: ResourceOperation, deviceObject: DeviceObject)

  /** A `*models.Device`: a mutable cell through which a device is changed in place. */
  class DeviceRef {
    var device: Device

    constructor (d: Device)
      ensures device == d
    {
      device := d;
    }
  }

  /** Key functions used to index slices by name. */
  function ObjectName(o: DeviceObject): string { o.name }
  function ResourceName(r: ProfileResource): string { r.name }
  function CommandName(c: Command): string { c.name }
  function ProfileName(p: DeviceProfile): string { p.name }
  function DeviceName(d: Device): string { d.name }
  function GetList(r: ProfileResource): seq<ResourceOperation> { r.getOps }
  function SetList(r: ProfileResource): seq<ResourceOperation> { r.setOps }
  function Itself<T>(x: T): T { x }
}
