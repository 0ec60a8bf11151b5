/**
 * The band protocol session of Band.cs: payload decoders, characteristic
 * access with capability checks, the callback registry that guards
 * StartUpdatesAsync, the lazily cached main service, the feature operations
 * and the two notification handlers.
 *
 * Every radio operation the driver issues is appended to a log (`Host.log`),
 * so each effect of an operation is a statement about that log. Each
 * operation has a pure outcome function (`...Outcome`) that gives its reply,
 * the actions it appends and the new static state; the methods of `Band`
 * are proved against those functions, and the lemmas at the end state what
 * Band.cs promises about them.
 */
module BandProtocol {
  import opened Wrappers
  import opened Gatt

  // ---------------------------------------------------------------------
  // Protocol catalogue: the UUIDs and command frames the operations use
  // ---------------------------------------------------------------------

  const UUID_SV_MAIN: Uuid := 0xfee0
  const UUID_SV_HEART_RATE: Uuid := 0x180d
  const UUID_CH_USER_INFO: Uuid := 0xff04
  const UUID_CH_CONTROL_POINT: Uuid := 0xff05
  const UUID_CH_REALTIME_STEPS: Uuid := 0xff06
  const UUID_CH_HEART_RATE: Uuid := 0x2a37
  const UUID_CH_HEART_RATE_CONTROL_POINT: Uuid := 0x2a39

  /** Commands for the heart-rate control point (continuous mode only is used). */
  const HR_CP_START_HEART_RATE_CONTINUOUS: seq<byte> := [0x15, 0x1, 1]
  const HR_CP_STOP_HEART_RATE_CONTINUOUS: seq<byte> := [0x15, 0x1, 0]

  /** Commands for the main control point. The stop frame repeats the start frame's bytes. */
  const CP_START_REALTIME_STEPS: seq<byte> := [0x3, 0x1]
  const CP_STOP_REALTIME_STEPS: seq<byte> := [0x3, 0x1]

  /** First byte of a standard two-byte heart-rate frame. */
  const HEART_RATE_FORMAT: byte := 6

  // ---------------------------------------------------------------------
  // Codec
  // ---------------------------------------------------------------------

  /** The C# decoders index past the end of a short payload and throw. */
  datatype DecodeError = IndexOutOfRange

  /**
   * DecodeSteps: bytes 0 and 1 as a little-endian 16-bit count. `0xff & b`
   * is the identity on a byte and the two bytes occupy disjoint bit ranges,
   * so the C# code's `b0 | b1 << 8` is the sum `b0 + 256 * b1`.
   */
  function DecodeSteps(b: seq<byte>): (r: Result<int, DecodeError>)
    ensures r.Ok? <==> |b| >= 2
    ensures r.Ok? ==> 0 <= r.value <= 0xFFFF
    ensures r.Ok? ==> r.value % 256 == b[0] && r.value / 256 == b[1]
  {
    if |b| < 2 then Err(IndexOutOfRange) else Ok(b[0] as int + b[1] as int * 256)
  }

  /** The two-byte frame a band sends for a step count (the inverse of DecodeSteps). */
  function StepsPayload(n: int): (b: seq<byte>)
    requires 0 <= n <= 0xFFFF
    ensures |b| == 2
  {
    [n % 256, n / 256]
  }

  /**
   * DecodeHeartRate: the second byte of a `[0x06, bpm]` frame; for any other
   * non-empty payload the first byte, as a best-effort fallback.
   */
  function DecodeHeartRate(b: seq<byte>): (r: Result<int, DecodeError>)
    ensures r.Ok? <==> |b| >= 1
    ensures r.Ok? ==> 0 <= r.value <= 0xFF
    ensures |b| == 2 && b[0] == HEART_RATE_FORMAT ==> r == Ok(b[1])
    ensures |b| >= 1 && !(|b| == 2 && b[0] == HEART_RATE_FORMAT) ==> r == Ok(b[0])
  {
    if |b| == 2 && b[0] == HEART_RATE_FORMAT then Ok(b[1])
    else if |b| == 0 then Err(IndexOutOfRange)
    else Ok(b[0])
  }

  /** The standard frame a band sends for a heart-rate sample. */
  function HeartRateFrame(bpm: byte): (b: seq<byte>)
    ensures |b| == 2 && b[0] == HEART_RATE_FORMAT
  {
    [HEART_RATE_FORMAT, bpm]
  }

  // ---------------------------------------------------------------------
  // Callbacks and the action log
  // ---------------------------------------------------------------------

  datatype HandlerKind = OnStepsHandler | OnHeartRateHandler

  /** A C# delegate: equal when bound to the same Band and the same method. */
  datatype Handler = Handler(band: Band, kind: HandlerKind)

  /** A radio operation issued by the driver. */
  datatype Action =
    | Discover(device: nat, service: Uuid)      // IDevice.GetServiceAsync
    | Read(target: Target)                       // ICharacteristic.ReadAsync
    | Write(target: Target, data: seq<byte>)     // ICharacteristic.WriteAsync
    | Attach(target: Target, handler: Handler)   // the handler joins ValueUpdated
    | StartUpdates(target: Target)               // ICharacteristic.StartUpdatesAsync

  /** A reply and the actions issued to obtain it. */
  datatype Io<T> = Io(reply: T, actions: seq<Action>)

  /** A subscription attempt: its reply, the actions, and the registry afterwards. */
  datatype Subscription = Subscription(reply: bool, actions: seq<Action>, handlers: set<Handler>)

  /** A feature operation: its reply, the actions, and both static fields afterwards. */
  datatype Session<T> = Session(reply: T, actions: seq<Action>, handlers: set<Handler>, main: Option<ServiceRef>)

  // ---------------------------------------------------------------------
  // Characteristic access layer
  // ---------------------------------------------------------------------

  /** The (possibly null) service has the characteristic. */
  predicate Has(s: Option<ServiceRef>, uuid: Uuid) {
    s.Some? && uuid in s.value.characteristics
  }

  /** The (possibly null) service has the characteristic, and it is writable and acknowledges a write of `data`. */
  predicate AcceptsWrite(s: Option<ServiceRef>, uuid: Uuid, data: seq<byte>) {
    Has(s, uuid) && s.value.characteristics[uuid].canWrite && data in s.value.characteristics[uuid].acked
  }

  /**
   * ReadFromCharacteristic: a device read only when the characteristic is
   * readable; null when it is missing, not readable, or the read throws.
   */
  function ReadOutcome(c: Option<CharRef>): (io: Io<Option<seq<byte>>>)
    ensures io.reply.Some? <==> c.Some? && c.value.props.canRead && !c.value.props.readFails
    ensures io.reply.Some? ==> io.reply.value == c.value.props.value
    ensures c.None? || !c.value.props.canRead ==> io.actions == []
    ensures c.Some? && c.value.props.canRead ==> io.actions == [Read(c.value.at)]
  {
    match c
    case None => Io(None, [])
    case Some(ch) =>
      if !ch.props.canRead then Io(None, [])
      else if ch.props.readFails then Io(None, [Read(ch.at)])
      else Io(Some(ch.props.value), [Read(ch.at)])
  }

  /**
   * WriteToCharacteristic: a device write only when the characteristic is
   * writable; true exactly when the write was issued and acknowledged.
   */
  function WriteOutcome(c: Option<CharRef>, data: seq<byte>): (io: Io<bool>)
    ensures io.reply <==> c.Some? && c.value.props.canWrite && data in c.value.props.acked
    ensures c.None? || !c.value.props.canWrite ==> io.actions == []
    ensures c.Some? && c.value.props.canWrite ==> io.actions == [Write(c.value.at, data)]
  {
    match c
    case None => Io(false, [])
    case Some(ch) =>
      if !ch.props.canWrite then Io(false, [])
      else Io(data in ch.props.acked, [Write(ch.at, data)])
  }

  /**
   * SubscribeTo: the registry is keyed by callback. A callback not yet in it
   * is added first, then attached and updates are started; one already in it
   * makes the call a no-op that succeeds. A missing characteristic fails
   * before the registry is touched.
   */
  function SubscribeOutcome(c: Option<CharRef>, callback: Handler, handlers: set<Handler>): (s: Subscription)
    ensures c.None? ==> s == Subscription(false, [], handlers)
    ensures c.Some? ==> s.handlers == handlers + {callback}
    ensures c.Some? && callback in handlers ==> s.reply && s.actions == []
    ensures c.Some? && callback !in handlers ==>
              s.actions == [Attach(c.value.at, callback), StartUpdates(c.value.at)]
              && (s.reply <==> !c.value.props.startFails)
  {
    match c
    case None => Subscription(false, [], handlers)
    case Some(ch) =>
      if callback in handlers then Subscription(true, [], handlers)
      else Subscription(!ch.props.startFails, [Attach(ch.at, callback), StartUpdates(ch.at)], handlers + {callback})
  }

  /**
   * SubscribeToHeartRate: discover the heart-rate service, look up its
   * control point, subscribe to the heart-rate characteristic, then write
   * stop-continuous and start-continuous to the control point. With no
   * service nothing else happens; with no control point the subscription
   * still happens and the first write throws.
   */
  function HeartRateSubscribeOutcome(d: Device, callback: Handler, handlers: set<Handler>): (s: Subscription)
    ensures |s.actions| >= 1 && s.actions[0] == Discover(d.id, UUID_SV_HEART_RATE)
    ensures var service := GetService(d, UUID_SV_HEART_RATE);
            s.handlers == if Has(service, UUID_CH_HEART_RATE) then handlers + {callback} else handlers
    ensures var service := GetService(d, UUID_SV_HEART_RATE);
            s.reply <==> Has(service, UUID_CH_HEART_RATE)
                         && (callback in handlers || !service.value.characteristics[UUID_CH_HEART_RATE].startFails)
                         && AcceptsWrite(service, UUID_CH_HEART_RATE_CONTROL_POINT, HR_CP_STOP_HEART_RATE_CONTINUOUS)
                         && AcceptsWrite(service, UUID_CH_HEART_RATE_CONTROL_POINT, HR_CP_START_HEART_RATE_CONTINUOUS)
  {
    var service := GetService(d, UUID_SV_HEART_RATE);
    var discover := [Discover(d.id, UUID_SV_HEART_RATE)];
    if service.None? then Subscription(false, discover, handlers)
    else
      var controlPoint := Resolve(service, UUID_CH_HEART_RATE_CONTROL_POINT);
      var sub := SubscribeOutcome(Resolve(service, UUID_CH_HEART_RATE), callback, handlers);
      if controlPoint.None? then Subscription(false, discover + sub.actions, sub.handlers)
      else
        var stop := WriteOutcome(controlPoint, HR_CP_STOP_HEART_RATE_CONTINUOUS);
        var start := WriteOutcome(controlPoint, HR_CP_START_HEART_RATE_CONTINUOUS);
        Subscription(sub.reply && stop.reply && start.reply,
                     discover + sub.actions + stop.actions + start.actions, sub.handlers)
  }

  // ---------------------------------------------------------------------
  // Band session: the feature operations
  // ---------------------------------------------------------------------

  /** The lazy lookup of the main service: it is discovered only while the cache is empty. */
  function MainServiceLookup(d: Device, cache: Option<ServiceRef>): (io: Io<Option<ServiceRef>>)
    ensures cache.Some? ==> io == Io(cache, [])
    ensures cache.None? ==> io == Io(GetService(d, UUID_SV_MAIN), [Discover(d.id, UUID_SV_MAIN)])
  {
    if cache.None? then Io(GetService(d, UUID_SV_MAIN), [Discover(d.id, UUID_SV_MAIN)]) else Io(cache, [])
  }

  /** The step count read from a payload, or -1 for a null or short payload. */
  function StepsReading(payload: Option<seq<byte>>): (r: int)
    ensures r == -1 <==> payload.None? || |payload.value| < 2
    ensures r != -1 ==> 0 <= r <= 0xFFFF && DecodeSteps(payload.value) == Ok(r)
  {
    if payload.Some? && DecodeSteps(payload.value).Ok? then DecodeSteps(payload.value).value else -1
  }

  /** The value GetCurrentSteps returns once the main service is `main`. */
  function CurrentSteps(main: Option<ServiceRef>): (r: int)
    ensures r == -1 <==>
      main.None? || UUID_CH_REALTIME_STEPS !in main.value.characteristics
      || !main.value.characteristics[UUID_CH_REALTIME_STEPS].canRead
      || main.value.characteristics[UUID_CH_REALTIME_STEPS].readFails
      || |main.value.characteristics[UUID_CH_REALTIME_STEPS].value| < 2
    ensures r != -1 ==>
      var v := main.value.characteristics[UUID_CH_REALTIME_STEPS].value;
      0 <= r <= 0xFFFF && r == v[0] as int + 256 * v[1] as int
  {
    StepsReading(ReadOutcome(Resolve(main, UUID_CH_REALTIME_STEPS)).reply)
  }

  /** GetCurrentSteps. */
  function CurrentStepsOutcome(d: Device, handlers: set<Handler>, cache: Option<ServiceRef>): (s: Session<int>)
    ensures s.main == MainServiceLookup(d, cache).reply && s.handlers == handlers
    ensures s.reply == CurrentSteps(s.main)
  {
    var main := MainServiceLookup(d, cache);
    var read := ReadOutcome(Resolve(main.reply, UUID_CH_REALTIME_STEPS));
    Session(StepsReading(read.reply), main.actions + read.actions, handlers, main.reply)
  }

  /** StartMeasuringSteps: subscribe to the real-time steps, then write the start frame. */
  function StartStepsOutcome(d: Device, handlers: set<Handler>, cache: Option<ServiceRef>, callback: Handler): (s: Session<bool>)
    ensures s.main == MainServiceLookup(d, cache).reply
    ensures s.handlers == if Has(s.main, UUID_CH_REALTIME_STEPS) then handlers + {callback} else handlers
    ensures s.reply <==> Has(s.main, UUID_CH_REALTIME_STEPS)
                         && (callback in handlers || !s.main.value.characteristics[UUID_CH_REALTIME_STEPS].startFails)
                         && AcceptsWrite(s.main, UUID_CH_CONTROL_POINT, CP_START_REALTIME_STEPS)
  {
    var main := MainServiceLookup(d, cache);
    var sub := SubscribeOutcome(Resolve(main.reply, UUID_CH_REALTIME_STEPS), callback, handlers);
    var start := WriteOutcome(Resolve(main.reply, UUID_CH_CONTROL_POINT), CP_START_REALTIME_STEPS);
    Session(sub.reply && start.reply, main.actions + sub.actions + start.actions, sub.handlers, main.reply)
  }

  /** StopMeasuringSteps: write the stop frame to the main control point. */
  function StopStepsOutcome(d: Device, handlers: set<Handler>, cache: Option<ServiceRef>): (s: Session<bool>)
    ensures s.main == MainServiceLookup(d, cache).reply && s.handlers == handlers
    ensures s.reply <==> AcceptsWrite(s.main, UUID_CH_CONTROL_POINT, CP_STOP_REALTIME_STEPS)
    ensures forall a | a in s.actions && a.Write? :: a.data == CP_STOP_REALTIME_STEPS
  {
    var main := MainServiceLookup(d, cache);
    var stop := WriteOutcome(Resolve(main.reply, UUID_CH_CONTROL_POINT), CP_STOP_REALTIME_STEPS);
    Session(stop.reply, main.actions + stop.actions, handlers, main.reply)
  }

  /** StartMeasuringHeartRate: write the user info, then run SubscribeToHeartRate. */
  function StartHeartRateOutcome(d: Device, handlers: set<Handler>, cache: Option<ServiceRef>, callback: Handler,
                                 userInfo: seq<byte>): (s: Session<bool>)
    ensures s.main == MainServiceLookup(d, cache).reply
    ensures s.handlers == if Has(GetService(d, UUID_SV_HEART_RATE), UUID_CH_HEART_RATE) then handlers + {callback} else handlers
    ensures s.reply <==> AcceptsWrite(s.main, UUID_CH_USER_INFO, userInfo) && HeartRateSubscribeOutcome(d, callback, handlers).reply
  {
    var main := MainServiceLookup(d, cache);
    var wrote := WriteOutcome(Resolve(main.reply, UUID_CH_USER_INFO), userInfo);
    var hr := HeartRateSubscribeOutcome(d, callback, handlers);
    Session(wrote.reply && hr.reply, main.actions + wrote.actions + hr.actions, hr.handlers, main.reply)
  }

  /** StopMeasuringHeartRate: the heart-rate service is discovered afresh, not cached. */
  function StopHeartRateOutcome(d: Device): (io: Io<bool>)
    ensures io.reply <==> AcceptsWrite(GetService(d, UUID_SV_HEART_RATE), UUID_CH_HEART_RATE_CONTROL_POINT,
                                       HR_CP_STOP_HEART_RATE_CONTINUOUS)
    ensures |io.actions| >= 1 && io.actions[0] == Discover(d.id, UUID_SV_HEART_RATE)
  {
    var stop := WriteOutcome(Resolve(GetService(d, UUID_SV_HEART_RATE), UUID_CH_HEART_RATE_CONTROL_POINT),
                             HR_CP_STOP_HEART_RATE_CONTINUOUS);
    Io(stop.reply, [Discover(d.id, UUID_SV_HEART_RATE)] + stop.actions)
  }

  // ---------------------------------------------------------------------
  // Event handlers
  // ---------------------------------------------------------------------

  /**
   * What a handler does with a notification: raise its event with a value,
   * suppress it, or fail because the decoder threw.
   */
  datatype Delivery = Raised(measure: int) | Suppressed | Failed

  /** OnSteps: every decoded value is raised, zero included. */
  function StepsDelivery(payload: seq<byte>): (d: Delivery)
    ensures d.Failed? <==> |payload| < 2
    ensures !d.Suppressed?
    ensures d.Raised? ==> DecodeSteps(payload) == Ok(d.measure)
  {
    match DecodeSteps(payload)
    case Err(_) => Failed
    case Ok(n) => Raised(n)
  }

  /** OnHeartRate: a decoded value is raised only when it is positive. */
  function HeartRateDelivery(payload: seq<byte>): (d: Delivery)
    ensures d.Failed? <==> |payload| == 0
    ensures d.Raised? ==> d.measure > 0 && DecodeHeartRate(payload) == Ok(d.measure)
    ensures d.Suppressed? <==> DecodeHeartRate(payload) == Ok(0)
  {
    match DecodeHeartRate(payload)
    case Err(_) => Failed
    case Ok(n) => if n > 0 then Raised(n) else Suppressed
  }

  // ---------------------------------------------------------------------
  // The static state and the driver
  // ---------------------------------------------------------------------

  /**
   * Band's static fields, shared by every Band instance, and the log of
   * radio operations issued by any of them.
   */
  class Host {
    var mainService: Option<ServiceRef>   // Band._mainService
    var eventHandlers: set<Handler>       // Band._eventHandlers
    var log: seq<Action>

    constructor ()
      ensures mainService == None && eventHandlers == {} && log == []
    {
      mainService := None;
      eventHandlers := {};
      log := [];
    }
  }

  class Band {
    const device: Device
    const host: Host
    /** Values raised on the Steps and HeartRate events, oldest first. */
    var stepsRaised: seq<int>
    var heartRateRaised: seq<int>

    /** The constructor re-creates the shared handler registry; the cached main service survives. */
    constructor (device: Device, host: Host)
      modifies host`eventHandlers
      ensures this.device == device && this.host == host
      ensures stepsRaised == [] && heartRateRaised == []
      ensures host.eventHandlers == {}
    {
      this.device := device;
      this.host := host;
      stepsRaised := [];
      heartRateRaised := [];
      new;
      host.eventHandlers := {};
    }

    /** IDevice.GetServiceAsync. */
    method GetServiceAsync(uuid: Uuid) returns (service: Option<ServiceRef>)
      modifies host`log
      ensures service == GetService(device, uuid)
      ensures host.log == old(host.log) + [Discover(device.id, uuid)]
    {
      host.log := host.log + [Discover(device.id, uuid)];
      service := GetService(device, uuid);
    }

    /** The lazy fetch of the main service that opens four of the public operations. */
    method CacheMainService()
      modifies host`mainService, host`log
      ensures var io := MainServiceLookup(device, old(host.mainService));
              host.mainService == io.reply && host.log == old(host.log) + io.actions
    {
      if host.mainService.None? {
        host.mainService := GetServiceAsync(UUID_SV_MAIN);
      }
    }

    /** ReadFromCharacteristic(ICharacteristic). */
    method ReadFromCharacteristic(c: CharRef) returns (payload: Option<seq<byte>>)
      modifies host`log
      ensures var io := ReadOutcome(Some(c));
              payload == io.reply && host.log == old(host.log) + io.actions
    {
      payload := None;
      if c.props.canRead {
        host.log := host.log + [Read(c.at)];
        if !c.props.readFails {
          payload := Some(c.props.value);
        }
      }
    }

    /** ReadFromCharacteristic(Guid, IService). */
    method ReadFromServiceCharacteristic(uuid: Uuid, service: Option<ServiceRef>) returns (payload: Option<seq<byte>>)
      modifies host`log
      ensures var io := ReadOutcome(Resolve(service, uuid));
              payload == io.reply && host.log == old(host.log) + io.actions
    {
      var c := Resolve(service, uuid);
      if c.None? {
        payload := None;
      } else {
        payload := ReadFromCharacteristic(c.value);
      }
    }

    /** ReadFromCharacteristic(Guid, Guid). */
    method ReadFromDeviceCharacteristic(uuid: Uuid, serviceUuid: Uuid) returns (payload: Option<seq<byte>>)
      modifies host`log
      ensures var io := ReadOutcome(Resolve(GetService(device, serviceUuid), uuid));
              payload == io.reply && host.log == old(host.log) + [Discover(device.id, serviceUuid)] + io.actions
    {
      var service := GetServiceAsync(serviceUuid);
      payload := ReadFromServiceCharacteristic(uuid, service);
    }

    /** WriteToCharacteristic(byte[], ICharacteristic). */
    method WriteToCharacteristic(data: seq<byte>, c: CharRef) returns (ok: bool)
      modifies host`log
      ensures var io := WriteOutcome(Some(c), data);
              ok == io.reply && host.log == old(host.log) + io.actions
    {
      ok := false;
      if c.props.canWrite {
        host.log := host.log + [Write(c.at, data)];
        ok := data in c.props.acked;
      }
    }

    /** WriteToCharacteristic(byte[], Guid, IService). */
    method WriteToServiceCharacteristic(data: seq<byte>, uuid: Uuid, service: Option<ServiceRef>) returns (ok: bool)
      modifies host`log
      ensures var io := WriteOutcome(Resolve(service, uuid), data);
              ok == io.reply && host.log == old(host.log) + io.actions
    {
      var c := Resolve(service, uuid);
      if c.None? {
        ok := false;
      } else {
        ok := WriteToCharacteristic(data, c.value);
      }
    }

    /** WriteToCharacteristic(byte[], Guid, Guid). */
    method WriteToDeviceCharacteristic(data: seq<byte>, uuid: Uuid, serviceUuid: Uuid) returns (ok: bool)
      modifies host`log
      ensures var io := WriteOutcome(Resolve(GetService(device, serviceUuid), uuid), data);
              ok == io.reply && host.log == old(host.log) + [Discover(device.id, serviceUuid)] + io.actions
    {
      var service := GetServiceAsync(serviceUuid);
      ok := WriteToServiceCharacteristic(data, uuid, service);
    }

    /** SubscribeTo(ICharacteristic, callback): HashSet.Add guards the attach and the start. */
    method SubscribeTo(c: CharRef, callback: Handler) returns (ok: bool)
      modifies host`eventHandlers, host`log
      ensures var s := SubscribeOutcome(Some(c), callback, old(host.eventHandlers));
              ok == s.reply && host.eventHandlers == s.handlers && host.log == old(host.log) + s.actions
    {
      if callback !in host.eventHandlers {
        host.eventHandlers := host.eventHandlers + {callback};
        host.log := host.log + [Attach(c.at, callback)];
        host.log := host.log + [StartUpdates(c.at)];
        if c.props.startFails {
          return false;
        }
      }
      ok := true;
    }

    /** SubscribeTo(Guid, IService, callback). */
    method SubscribeToServiceCharacteristic(uuid: Uuid, service: Option<ServiceRef>, callback: Handler) returns (ok: bool)
      modifies host`eventHandlers, host`log
      ensures var s := SubscribeOutcome(Resolve(service, uuid), callback, old(host.eventHandlers));
              ok == s.reply && host.eventHandlers == s.handlers && host.log == old(host.log) + s.actions
    {
      var c := Resolve(service, uuid);
      if c.None? {
        ok := false;
      } else {
        ok := SubscribeTo(c.value, callback);
      }
    }

    /** SubscribeTo(Guid, Guid, callback). */
    method SubscribeToDeviceCharacteristic(uuid: Uuid, serviceUuid: Uuid, callback: Handler) returns (ok: bool)
      modifies host`eventHandlers, host`log
      ensures var s := SubscribeOutcome(Resolve(GetService(device, serviceUuid), uuid), callback, old(host.eventHandlers));
              ok == s.reply && host.eventHandlers == s.handlers
              && host.log == old(host.log) + [Discover(device.id, serviceUuid)] + s.actions
    {
      var service := GetServiceAsync(serviceUuid);
      ok := SubscribeToServiceCharacteristic(uuid, service, callback);
    }

    /** SubscribeToHeartRate. */
    method SubscribeToHeartRate(callback: Handler) returns (ok: bool)
      modifies host`eventHandlers, host`log
      ensures var s := HeartRateSubscribeOutcome(device, callback, old(host.eventHandlers));
              ok == s.reply && host.eventHandlers == s.handlers && host.log == old(host.log) + s.actions
    {
      var service := GetServiceAsync(UUID_SV_HEART_RATE);
      if service.None? {
        return false;
      }
      var controlPoint := Resolve(service, UUID_CH_HEART_RATE_CONTROL_POINT);
      var subscribed := SubscribeToServiceCharacteristic(UUID_CH_HEART_RATE, service, callback);
      if controlPoint.None? {
        return false;
      }
      var stopped := WriteToCharacteristic(HR_CP_STOP_HEART_RATE_CONTINUOUS, controlPoint.value);
      var started := WriteToCharacteristic(HR_CP_START_HEART_RATE_CONTINUOUS, controlPoint.value);
      ok := subscribed && stopped && started;
    }

    /** GetCurrentSteps: -1 stands for every failure. */
    method GetCurrentSteps() returns (steps: int)
      modifies host`mainService, host`log
      ensures var s := CurrentStepsOutcome(device, old(host.eventHandlers), old(host.mainService));
              steps == s.reply && host.mainService == s.main && host.log == old(host.log) + s.actions
    {
      CacheMainService();
      var payload := ReadFromServiceCharacteristic(UUID_CH_REALTIME_STEPS, host.mainService);
      if payload.None? {
        return -1;
      }
      var decoded := DecodeSteps(payload.value);
      if decoded.Err? {
        return -1;
      }
      steps := decoded.value;
    }

    /** StartMeasuringSteps. */
    method StartMeasuringSteps() returns (ok: bool)
      modifies host
      ensures var s := StartStepsOutcome(device, old(host.eventHandlers), old(host.mainService), Handler(this, OnStepsHandler));
              ok == s.reply && host.eventHandlers == s.handlers && host.mainService == s.main
              && host.log == old(host.log) + s.actions
    {
      CacheMainService();
      var subscribed := SubscribeToServiceCharacteristic(UUID_CH_REALTIME_STEPS, host.mainService, Handler(this, OnStepsHandler));
      var started := WriteToServiceCharacteristic(CP_START_REALTIME_STEPS, UUID_CH_CONTROL_POINT, host.mainService);
      ok := subscribed && started;
    }

    /** StopMeasuringSteps. */
    method StopMeasuringSteps() returns (ok: bool)
      modifies host`mainService, host`log
      ensures var s := StopStepsOutcome(device, old(host.eventHandlers), old(host.mainService));
              ok == s.reply && host.mainService == s.main && host.log == old(host.log) + s.actions
    {
      CacheMainService();
      ok := WriteToServiceCharacteristic(CP_STOP_REALTIME_STEPS, UUID_CH_CONTROL_POINT, host.mainService);
    }

    /** StartMeasuringHeartRate; `userInfo` is the user profile's byte layout, taken as given. */
    method StartMeasuringHeartRate(userInfo: seq<byte>) returns (ok: bool)
      modifies host
      ensures var s := StartHeartRateOutcome(device, old(host.eventHandlers), old(host.mainService),
                                             Handler(this, OnHeartRateHandler), userInfo);
              ok == s.reply && host.eventHandlers == s.handlers && host.mainService == s.main
              && host.log == old(host.log) + s.actions
    {
      CacheMainService();
      var wroteUserInfo := WriteToServiceCharacteristic(userInfo, UUID_CH_USER_INFO, host.mainService);
      var subscribed := SubscribeToHeartRate(Handler(this, OnHeartRateHandler));
      ok := wroteUserInfo && subscribed;
    }

    /** StopMeasuringHeartRate. */
    method StopMeasuringHeartRate() returns (ok: bool)
      modifies host`log
      ensures var io := StopHeartRateOutcome(device);
              ok == io.reply && host.log == old(host.log) + io.actions
    {
      var service := GetServiceAsync(UUID_SV_HEART_RATE);
      var controlPoint := Resolve(service, UUID_CH_HEART_RATE_CONTROL_POINT);
      if controlPoint.None? {
        return false;
      }
      ok := WriteToCharacteristic(HR_CP_STOP_HEART_RATE_CONTINUOUS, controlPoint.value);
    }

    /** OnSteps: decode the notification and raise Steps. */
    method OnSteps(payload: seq<byte>) returns (delivery: Delivery)
      modifies this`stepsRaised
      ensures delivery == StepsDelivery(payload)
      ensures stepsRaised == old(stepsRaised) + (if delivery.Raised? then [delivery.measure] else [])
    {
      var decoded := DecodeSteps(payload);
      if decoded.Err? {
        return Failed;
      }
      stepsRaised := stepsRaised + [decoded.value];
      delivery := Raised(decoded.value);
    }

    /** OnHeartRate: decode the notification and raise HeartRate when it is positive. */
    method OnHeartRate(payload: seq<byte>) returns (delivery: Delivery)
      modifies this`heartRateRaised
      ensures delivery == HeartRateDelivery(payload)
      ensures heartRateRaised == old(heartRateRaised) + (if delivery.Raised? then [delivery.measure] else [])
    {
      var decoded := DecodeHeartRate(payload);
      if decoded.Err? {
        return Failed;
      }
      if decoded.value > 0 {
        heartRateRaised := heartRateRaised + [decoded.value];
        delivery := Raised(decoded.value);
      } else {
        delivery := Suppressed;
      }
    }
  }

  // ---------------------------------------------------------------------
  // Properties
  // ---------------------------------------------------------------------

  /** DecodeSteps inverts the band's two-byte encoding. */
  lemma StepsRoundTrip(n: int)
    requires 0 <= n <= 0xFFFF
    ensures DecodeSteps(StepsPayload(n)) == Ok(n)
  {
  }

  /** Only the first two bytes matter, and re-encoding a decoded count gives them back. */
  lemma StepsIgnoreTrailingBytes(b: seq<byte>)
    requires |b| >= 2
    ensures DecodeSteps(b) == DecodeSteps(b[..2])
    ensures StepsPayload(DecodeSteps(b).value) == b[..2]
  {
  }

  /** A standard heart-rate frame decodes to its bpm byte. */
  lemma HeartRateRoundTrip(bpm: byte)
    ensures DecodeHeartRate(HeartRateFrame(bpm)) == Ok(bpm)
  {
  }

  /** Non-standard frames fall back to byte 0; `[0x06, 0x48]` reads as 72. */
  lemma HeartRateFallback(x: byte)
    ensures DecodeHeartRate([x]) == Ok(x)
    ensures DecodeHeartRate([0x01, 0x02]) == Ok(1)
    ensures DecodeHeartRate([0x06, 0x48]) == Ok(72)
    ensures DecodeHeartRate([0x06, 0x48, 0x00]) == Ok(6)
  {
  }

  /** A zero heart rate is suppressed; a zero step count is raised. */
  lemma ZeroReadings()
    ensures HeartRateDelivery([0x06, 0x00]) == Suppressed
    ensures HeartRateDelivery([0x00]) == Suppressed
    ensures StepsDelivery([0x00, 0x00]) == Raised(0)
    ensures HeartRateDelivery([0x06, 0x48]) == Raised(72)
  {
  }

  /** A second subscription with the same callback issues nothing and succeeds. */
  lemma SubscribeIsIdempotent(c: Option<CharRef>, c': Option<CharRef>, callback: Handler, handlers: set<Handler>)
    requires c.Some? && c'.Some?
    ensures var first := SubscribeOutcome(c, callback, handlers);
            SubscribeOutcome(c', callback, first.handlers) == Subscription(true, [], first.handlers)
  {
  }

  /**
   * The callback is registered before StartUpdatesAsync runs, so a failed
   * start leaves it registered and every later subscription with it is a
   * no-op that never starts updates.
   */
  lemma FailedStartStaysRegistered(c: Option<CharRef>, c': Option<CharRef>, callback: Handler, handlers: set<Handler>)
    requires c.Some? && c.value.props.startFails && callback !in handlers
    requires c'.Some?
    ensures var first := SubscribeOutcome(c, callback, handlers);
            !first.reply && callback in first.handlers
            && SubscribeOutcome(c', callback, first.handlers).reply
            && SubscribeOutcome(c', callback, first.handlers).actions == []
  {
  }

  /** On the heart-rate control point, a start-continuous write always directly follows a stop-continuous write. */
  lemma HeartRateStopPrecedesStart(d: Device, callback: Handler, handlers: set<Handler>)
    ensures var a := HeartRateSubscribeOutcome(d, callback, handlers).actions;
            forall i | 0 <= i < |a| && a[i].Write? && a[i].data == HR_CP_START_HEART_RATE_CONTINUOUS ::
              i > 0 && a[i - 1] == Write(a[i].target, HR_CP_STOP_HEART_RATE_CONTINUOUS)
  {
    var service := GetService(d, UUID_SV_HEART_RATE);
    if service.Some? {
      var controlPoint := Resolve(service, UUID_CH_HEART_RATE_CONTROL_POINT);
      var sub := SubscribeOutcome(Resolve(service, UUID_CH_HEART_RATE), callback, handlers);
      assert forall a | a in sub.actions :: !a.Write?;
    }
  }

  /**
   * With everything present and writable and the callback new, starting
   * heart-rate measurement issues exactly: user-info write, heart-rate
   * service discovery, attach, start updates, stop-continuous, start-continuous;
   * the reply is the conjunction of the three write acknowledgements and the start.
   */
  lemma HeartRateStartSequence(d: Device, handlers: set<Handler>, main: ServiceRef, callback: Handler, userInfo: seq<byte>)
    requires UUID_CH_USER_INFO in main.characteristics && main.characteristics[UUID_CH_USER_INFO].canWrite
    requires UUID_SV_HEART_RATE in d.services
    requires UUID_CH_HEART_RATE in d.services[UUID_SV_HEART_RATE]
    requires UUID_CH_HEART_RATE_CONTROL_POINT in d.services[UUID_SV_HEART_RATE]
    requires d.services[UUID_SV_HEART_RATE][UUID_CH_HEART_RATE_CONTROL_POINT].canWrite
    requires callback !in handlers
    ensures var s := StartHeartRateOutcome(d, handlers, Some(main), callback, userInfo);
            var hr := Target(d.id, UUID_SV_HEART_RATE, UUID_CH_HEART_RATE);
            var cp := Target(d.id, UUID_SV_HEART_RATE, UUID_CH_HEART_RATE_CONTROL_POINT);
            var cpProps := d.services[UUID_SV_HEART_RATE][UUID_CH_HEART_RATE_CONTROL_POINT];
            s.actions == [Write(Target(main.device, main.uuid, UUID_CH_USER_INFO), userInfo),
                          Discover(d.id, UUID_SV_HEART_RATE),
                          Attach(hr, callback), StartUpdates(hr),
                          Write(cp, HR_CP_STOP_HEART_RATE_CONTINUOUS),
                          Write(cp, HR_CP_START_HEART_RATE_CONTINUOUS)]
            && (s.reply <==> userInfo in main.characteristics[UUID_CH_USER_INFO].acked
                             && !d.services[UUID_SV_HEART_RATE][UUID_CH_HEART_RATE].startFails
                             && HR_CP_STOP_HEART_RATE_CONTINUOUS in cpProps.acked
                             && HR_CP_START_HEART_RATE_CONTINUOUS in cpProps.acked)
            && s.handlers == handlers + {callback} && s.main == Some(main)
  {
  }

  /**
   * The stop and start frames to the heart-rate control point are answered
   * separately: when the stop frame is acknowledged and the start frame is
   * not, both are still written and SubscribeToHeartRate fails.
   */
  lemma HeartRateStartFrameRejected(d: Device, callback: Handler, handlers: set<Handler>)
    requires UUID_SV_HEART_RATE in d.services
    requires UUID_CH_HEART_RATE in d.services[UUID_SV_HEART_RATE]
    requires UUID_CH_HEART_RATE_CONTROL_POINT in d.services[UUID_SV_HEART_RATE]
    requires var cp := d.services[UUID_SV_HEART_RATE][UUID_CH_HEART_RATE_CONTROL_POINT];
             cp.canWrite && HR_CP_STOP_HEART_RATE_CONTINUOUS in cp.acked && HR_CP_START_HEART_RATE_CONTINUOUS !in cp.acked
    ensures var s := HeartRateSubscribeOutcome(d, callback, handlers);
            var cp := Target(d.id, UUID_SV_HEART_RATE, UUID_CH_HEART_RATE_CONTROL_POINT);
            !s.reply
            && s.actions[|s.actions| - 2..] == [Write(cp, HR_CP_STOP_HEART_RATE_CONTINUOUS),
                                                Write(cp, HR_CP_START_HEART_RATE_CONTINUOUS)]
  {
  }

  /** StopMeasuringHeartRate writes nothing but stop-continuous, at most once. */
  lemma StopHeartRateWritesOnlyStop(d: Device)
    ensures var a := StopHeartRateOutcome(d).actions;
            1 <= |a| <= 2 && a[0] == Discover(d.id, UUID_SV_HEART_RATE)
            && forall i | 0 <= i < |a| && a[i].Write? :: i == 1 && a[i].data == HR_CP_STOP_HEART_RATE_CONTINUOUS
  {
  }

  /** StartMeasuringSteps subscribes to the real-time steps first, then writes `{0x3, 0x1}` to the control point. */
  lemma StartStepsSequence(d: Device, handlers: set<Handler>, main: ServiceRef, callback: Handler)
    requires UUID_CH_REALTIME_STEPS in main.characteristics
    requires UUID_CH_CONTROL_POINT in main.characteristics && main.characteristics[UUID_CH_CONTROL_POINT].canWrite
    requires callback !in handlers
    ensures var s := StartStepsOutcome(d, handlers, Some(main), callback);
            var steps := Target(main.device, main.uuid, UUID_CH_REALTIME_STEPS);
            s.actions == [Attach(steps, callback), StartUpdates(steps),
                          Write(Target(main.device, main.uuid, UUID_CH_CONTROL_POINT), [0x3, 0x1])]
            && (s.reply <==> !main.characteristics[UUID_CH_REALTIME_STEPS].startFails
                             && CP_START_REALTIME_STEPS in main.characteristics[UUID_CH_CONTROL_POINT].acked)
  {
  }

  /** StopMeasuringSteps issues exactly the write StartMeasuringSteps issues, with the same `{0x3, 0x1}` bytes. */
  lemma StopStepsRepeatsStartFrame(d: Device, handlers: set<Handler>, cache: Option<ServiceRef>)
    ensures var main := MainServiceLookup(d, cache);
            var start := WriteOutcome(Resolve(main.reply, UUID_CH_CONTROL_POINT), CP_START_REALTIME_STEPS);
            StopStepsOutcome(d, handlers, cache) == Session(start.reply, main.actions + start.actions, handlers, main.reply)
  {
  }

  /** Starting steps a second time never subscribes again: only the start frame is written. */
  lemma StartStepsTwice(d: Device, handlers: set<Handler>, cache: Option<ServiceRef>, callback: Handler)
    requires var main := MainServiceLookup(d, cache).reply;
             main.Some? && UUID_CH_REALTIME_STEPS in main.value.characteristics
    ensures var first := StartStepsOutcome(d, handlers, cache, callback);
            var second := StartStepsOutcome(d, first.handlers, first.main, callback);
            second.actions == WriteOutcome(Resolve(first.main, UUID_CH_CONTROL_POINT), CP_START_REALTIME_STEPS).actions
            && second.main == first.main && second.handlers == first.handlers
  {
  }

  /**
   * GetServiceAsync(main) is issued only while the cache is empty: with a
   * cached main service no operation discovers it again, and the cache is kept.
   */
  lemma MainServiceFetchedOnlyWhenUncached(d: Device, handlers: set<Handler>, cache: Option<ServiceRef>,
                                           callback: Handler, userInfo: seq<byte>)
    ensures var a1 := CurrentStepsOutcome(d, handlers, cache);
            var a2 := StartStepsOutcome(d, handlers, cache, callback);
            var a3 := StopStepsOutcome(d, handlers, cache);
            var a4 := StartHeartRateOutcome(d, handlers, cache, callback, userInfo);
            (cache.None? ==> a1.actions[0] == a2.actions[0] == a3.actions[0] == a4.actions[0] == Discover(d.id, UUID_SV_MAIN))
            && (cache.Some? ==>
                  a1.main == a2.main == a3.main == a4.main == cache
                  && Discover(d.id, UUID_SV_MAIN) !in a1.actions + a2.actions + a3.actions
                  && forall a | a in a4.actions && a.Discover? :: a.service == UUID_SV_HEART_RATE)
  {
    if cache.Some? {
      var main := MainServiceLookup(d, cache);
      var wrote := WriteOutcome(Resolve(main.reply, UUID_CH_USER_INFO), userInfo);
      var hr := HeartRateSubscribeOutcome(d, callback, handlers);
      assert forall a | a in hr.actions && a.Discover? :: a.service == UUID_SV_HEART_RATE;
      assert StartHeartRateOutcome(d, handlers, cache, callback, userInfo).actions == wrote.actions + hr.actions;
    }
  }

  /**
   * The cached main service is static: once set, steps operations act on the
   * service it holds, whatever device the calling Band was created for.
   */
  lemma CachedServiceIgnoresDevice(d: Device, d': Device, handlers: set<Handler>, main: ServiceRef, callback: Handler)
    ensures CurrentStepsOutcome(d, handlers, Some(main)) == CurrentStepsOutcome(d', handlers, Some(main))
    ensures StartStepsOutcome(d, handlers, Some(main), callback) == StartStepsOutcome(d', handlers, Some(main), callback)
    ensures StopStepsOutcome(d, handlers, Some(main)) == StopStepsOutcome(d', handlers, Some(main))
  {
  }

  /** GetCurrentSteps reads `[0x0A, 0x00]` as 10, and gives -1 when the main service is missing. */
  lemma CurrentStepsExamples(d: Device, handlers: set<Handler>, main: ServiceRef)
    requires UUID_CH_REALTIME_STEPS in main.characteristics
    requires main.characteristics[UUID_CH_REALTIME_STEPS] == Characteristic(true, false, [0x0A, 0x00], false, {}, false)
    requires UUID_SV_MAIN !in d.services
    ensures CurrentStepsOutcome(d, handlers, Some(main)).reply == 10
    ensures CurrentStepsOutcome(d, handlers, None).reply == -1
  {
  }
}
