/**
 * The connected BLE device as the band driver sees it: a table of GATT
 * services and characteristics, and the log of radio operations the driver
 * issues against it. The radio itself is not modelled; each characteristic
 * carries the outcome its operations would have.
 */
module Gatt {
  import opened Wrappers

  type byte = x: int | 0 <= x < 256

  /**
   * A 16-bit short UUID, standing for 0000xxxx-0000-1000-8000-00805f9b34fb
   * (the Bluetooth base UUID). Every UUID the driver uses has this form.
   */
  type Uuid = x: int | 0 <= x < 0x1_0000

  /**
   * One GATT characteristic: its advertised capabilities, the value a read
   * returns, and how the transport behaves on it. `readFails` makes
   * ReadAsync throw; `acked` holds the frames whose WriteAsync returns
   * true, so a frame outside it is one whose write returns false or throws
   * (the driver cannot tell these apart); `startFails` makes
   * StartUpdatesAsync throw.
   */
  datatype Characteristic = Characteristic(
    canRead: bool,
    canWrite: bool,
    value: seq<byte>,
    readFails: bool,
    acked: set<seq<byte>>,
    startFails: bool)

  /** A connected device handle: its identity and its service table. */
  datatype Device = Device(id: nat, services: map<Uuid, map<Uuid, Characteristic>>)

  /** A resolved IService: the device it came from and its characteristics. */
  datatype ServiceRef = ServiceRef(device: nat, uuid: Uuid, characteristics: map<Uuid, Characteristic>)

  /** Where a characteristic lives: device, service, characteristic. */
  datatype Target = Target(device: nat, service: Uuid, characteristic: Uuid)

  /** A resolved ICharacteristic. */
  datatype CharRef = CharRef(at: Target, props: Characteristic)

  /** IDevice.GetServiceAsync: the service, or null when the device has none with that UUID. */
  function GetService(d: Device, uuid: Uuid): (s: Option<ServiceRef>)
    ensures s.Some? <==> uuid in d.services
    ensures s.Some? ==> s.value.device == d.id && s.value.uuid == uuid && s.value.characteristics == d.services[uuid]
  {
    if uuid in d.services then Some(ServiceRef(d.id, uuid, d.services[uuid])) else None
  }

  /**
   * IService.GetCharacteristicAsync on a service that may itself be null.
   * A null service makes the call throw, a missing characteristic makes the
   * next use of it throw; every caller catches both alike, so both give None.
   */
  function Resolve(s: Option<ServiceRef>, uuid: Uuid): (c: Option<CharRef>)
    ensures c.Some? <==> s.Some? && uuid in s.value.characteristics
    ensures c.Some? ==> c.value.at == Target(s.value.device, s.value.uuid, uuid)
                        && c.value.props == s.value.characteristics[uuid]
  {
    if s.Some? && uuid in s.value.characteristics
    then Some(CharRef(Target(s.value.device, s.value.uuid, uuid), s.value.characteristics[uuid]))
    else None
  }
}
