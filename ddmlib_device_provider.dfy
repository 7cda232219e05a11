/**
 * DdmlibDeviceProvider: the registry of Android devices reported by the debug bridge, the listener
 * decisions, and the wait for the initial device list.
 */
module DdmlibProvider {
  import opened Wrappers
  import opened Seqs

  /** The sleep between two checks of the bridge, in milliseconds. */
  const DEFAULT_DDM_LIB_SLEEP_TIME: nat := 500

  /** A device as the bridge reports it; `handle` is the object's identity. */
  datatype IDevice = IDevice(handle: nat, serialNumber: string)

  /** The provider's wrapper around a bridge device. `instance` is the wrapper's identity. */
  datatype DdmlibAndroidDevice = DdmlibAndroidDevice(instance: nat, ddmsDevice: IDevice, serialNumber: string)

  datatype DeviceEvent = DeviceConnected(device: DdmlibAndroidDevice) | DeviceDisconnected(device: DdmlibAndroidDevice)

  /** The provider's observable effects, in order. */
  datatype Effect =
    | Setup(device: DdmlibAndroidDevice)
    | Send(event: DeviceEvent)
    | Dispose(device: DdmlibAndroidDevice)
    | DisconnectBridge
    | TerminateBridge

  /** An adb server of the configuration. */
  datatype AdbEndpoint = AdbEndpoint(host: string, port: int)

  datatype InitializeError = OnlyLocalAdbServer | NoDevices

  /** The device `deviceDisconnected` is about: the wrapper holds that very bridge device, or one with its serial. */
  function ReportsDevice(device: IDevice): DdmlibAndroidDevice -> bool {
    (d: DdmlibAndroidDevice) => device.handle == d.ddmsDevice.handle || device.serialNumber == d.ddmsDevice.serialNumber
  }

  /** `devices.values` in the iteration order `order`. */
  function ValuesIn(devices: map<string, DdmlibAndroidDevice>, order: seq<string>): (vs: seq<DdmlibAndroidDevice>)
    requires forall k | k in order :: k in devices
    ensures |vs| == |order| && forall i :: 0 <= i < |order| ==> vs[i] == devices[order[i]]
  {
    seq(|order|, i requires 0 <= i < |order| => devices[order[i]])
  }

  /** `order` lists every key of `devices` exactly once: an iteration order of the concurrent map. */
  predicate IsOrderOf(order: seq<string>, devices: map<string, DdmlibAndroidDevice>) {
    NoDuplicates(order) && (forall k | k in order :: k in devices) && (forall k | k in devices :: k in order)
  }

  /**
   * `matchDdmsToDevice`: the last registered device, in iteration order, that wraps the reported device
   * or one with the same serial number.
   */
  function MatchDdmsToDevice(devices: map<string, DdmlibAndroidDevice>, order: seq<string>, device: IDevice)
    : (r: Option<DdmlibAndroidDevice>)
    requires IsOrderOf(order, devices)
    ensures r.None? <==> forall k | k in devices :: !ReportsDevice(device)(devices[k])
    ensures r.Some? ==> exists i :: (0 <= i < |order| && r.value == devices[order[i]] && ReportsDevice(device)(r.value) &&
      forall j :: i < j < |order| ==> !ReportsDevice(device)(devices[order[j]]))
  {
    var values := ValuesIn(devices, order);
    match FindLastIndex(values, ReportsDevice(device))
    case None =>
      assert forall k | k in devices :: devices[k] == values[IndexOf(order, k)];
      None
    case Some(i) => Some(values[i])
  }

  /** The bridge keeps going while the initial list is missing, or while there are no devices and time is left. */
  predicate KeepWaiting(hasInitialDeviceList: bool, hasDevices: bool, countdown: int) {
    !hasInitialDeviceList || (!hasDevices && countdown >= 0)
  }

  /**
   * The wait loop of `initialize`. `hasInitialDeviceList(i)` and `hasDevices(i)` are what the bridge
   * answers after `i` sleeps (`hasDevices` is the bridge's own device list). `settledBy` is a time from
   * which the initial list is known; without one the loop would not end. Returns how many sleeps were
   * taken.
   */
  method WaitForDevices(waitForDevicesTimeoutMillis: int, hasInitialDeviceList: nat -> bool, hasDevices: nat -> bool,
                        ghost settledBy: nat)
    returns (sleeps: nat)
    requires forall i :: i >= settledBy ==> hasInitialDeviceList(i)
    ensures forall j :: 0 <= j < sleeps ==>
      KeepWaiting(hasInitialDeviceList(j), hasDevices(j), waitForDevicesTimeoutMillis - DEFAULT_DDM_LIB_SLEEP_TIME * j)
    ensures !KeepWaiting(hasInitialDeviceList(sleeps), hasDevices(sleeps),
                         waitForDevicesTimeoutMillis - DEFAULT_DDM_LIB_SLEEP_TIME * sleeps)
  {
    var getDevicesCountdown := waitForDevicesTimeoutMillis;
    var sleepTime := DEFAULT_DDM_LIB_SLEEP_TIME;
    sleeps := 0;
    while KeepWaiting(hasInitialDeviceList(sleeps), hasDevices(sleeps), getDevicesCountdown)
      invariant getDevicesCountdown == waitForDevicesTimeoutMillis - DEFAULT_DDM_LIB_SLEEP_TIME * sleeps
      invariant forall j :: 0 <= j < sleeps ==>
        KeepWaiting(hasInitialDeviceList(j), hasDevices(j), waitForDevicesTimeoutMillis - DEFAULT_DDM_LIB_SLEEP_TIME * j)
      decreases if sleeps <= settledBy then settledBy - sleeps else 0,
                if getDevicesCountdown + DEFAULT_DDM_LIB_SLEEP_TIME >= 0 then getDevicesCountdown + DEFAULT_DDM_LIB_SLEEP_TIME else 0
    {
      getDevicesCountdown := getDevicesCountdown - sleepTime;
      sleeps := sleeps + 1;
    }
  }

  /**
   * The countdown bounds only the wait for devices: the wait ends at the latest one sleep after the
   * countdown goes negative once the initial list is known, and never before the initial list arrives.
   */
  lemma WaitBounds(waitForDevicesTimeoutMillis: int, hasInitialDeviceList: nat -> bool, hasDevices: nat -> bool,
                   settledBy: nat, sleeps: nat)
    requires forall i :: i >= settledBy ==> hasInitialDeviceList(i)
    requires forall j :: 0 <= j < sleeps ==>
      KeepWaiting(hasInitialDeviceList(j), hasDevices(j), waitForDevicesTimeoutMillis - DEFAULT_DDM_LIB_SLEEP_TIME * j)
    requires !KeepWaiting(hasInitialDeviceList(sleeps), hasDevices(sleeps),
                          waitForDevicesTimeoutMillis - DEFAULT_DDM_LIB_SLEEP_TIME * sleeps)
    ensures hasInitialDeviceList(sleeps)
    ensures forall j :: 0 <= j < sleeps ==> !hasInitialDeviceList(j) || !hasDevices(j)
    ensures waitForDevicesTimeoutMillis < 0 ==> sleeps <= settledBy
    ensures waitForDevicesTimeoutMillis >= 0 ==>
      sleeps <= settledBy + waitForDevicesTimeoutMillis / DEFAULT_DDM_LIB_SLEEP_TIME + 1
  {
    var stop := if waitForDevicesTimeoutMillis < 0 then settledBy
                else settledBy + waitForDevicesTimeoutMillis / DEFAULT_DDM_LIB_SLEEP_TIME + 1;
    assert hasInitialDeviceList(stop);
    assert waitForDevicesTimeoutMillis - DEFAULT_DDM_LIB_SLEEP_TIME * stop < 0;
    assert !KeepWaiting(hasInitialDeviceList(stop), hasDevices(stop),
                        waitForDevicesTimeoutMillis - DEFAULT_DDM_LIB_SLEEP_TIME * stop);
  }

  class DdmlibDeviceProvider {
    /** The registered devices by serial number. */
    var devices: map<string, DdmlibAndroidDevice>
    var effects: seq<Effect>
    var channelClosed: bool

    /** Each device is stored under its own serial number. */
    predicate Valid()
      reads this
    {
      forall k | k in devices :: devices[k].serialNumber == k
    }

    constructor()
      ensures Valid() && devices == map[] && effects == [] && !channelClosed
    {
      devices := map[];
      effects := [];
      channelClosed := false;
    }

    /**
     * `getDeviceOrPut`: an absent serial stores and returns the candidate; a present one keeps and returns
     * the stored device, and the candidate, when it is another object, is disposed.
     */
    method GetDeviceOrPut(androidDevice: DdmlibAndroidDevice) returns (retained: DdmlibAndroidDevice)
      requires Valid()
      modifies this
      ensures Valid() && channelClosed == old(channelClosed)
      ensures androidDevice.serialNumber !in old(devices) ==>
        retained == androidDevice && devices == old(devices)[androidDevice.serialNumber := androidDevice] &&
        effects == old(effects)
      ensures androidDevice.serialNumber in old(devices) ==>
        retained == old(devices)[androidDevice.serialNumber] && devices == old(devices) &&
        effects == old(effects) + (if retained != androidDevice then [Dispose(androidDevice)] else [])
    {
      if androidDevice.serialNumber in devices {
        retained := devices[androidDevice.serialNumber];
      } else {
        devices := devices[androidDevice.serialNumber := androidDevice];
        retained := androidDevice;
      }
      if retained != androidDevice {
        effects := effects + [Dispose(androidDevice)];
      }
    }

    /** A healthy device is set up, registered unless its serial is known, and published as connected. */
    method ConnectHealthy(candidate: DdmlibAndroidDevice)
      requires Valid()
      modifies this
      ensures Valid() && channelClosed == old(channelClosed)
      ensures candidate.serialNumber !in old(devices) ==>
        devices == old(devices)[candidate.serialNumber := candidate] &&
        effects == old(effects) + [Setup(candidate), Send(DeviceEvent.DeviceConnected(candidate))]
      ensures candidate.serialNumber in old(devices) ==>
        var kept := old(devices)[candidate.serialNumber];
        devices == old(devices) &&
        effects == old(effects) + [Setup(candidate)] + (if kept != candidate then [Dispose(candidate)] else []) +
          [Send(DeviceEvent.DeviceConnected(kept))]
    {
      effects := effects + [Setup(candidate)];
      var androidDevice := GetDeviceOrPut(candidate);
      effects := effects + [Send(DeviceEvent.DeviceConnected(androidDevice))];
    }

    /**
     * `deviceConnected`: `candidate` is the wrapper built for the reported device and `healthy` its health.
     * An unhealthy device, or no device, changes nothing.
     */
    method DeviceConnected(device: Option<IDevice>, candidate: DdmlibAndroidDevice, healthy: bool)
      requires Valid() && (device.Some? ==> candidate.ddmsDevice == device.value)
      modifies this
      ensures Valid() && channelClosed == old(channelClosed)
      ensures old(devices).Keys <= devices.Keys
      ensures device.Some? && healthy ==>
        devices == (if candidate.serialNumber in old(devices) then old(devices) else old(devices)[candidate.serialNumber := candidate])
      ensures device.Some? && healthy ==>
        var kept := if candidate.serialNumber in old(devices) then old(devices)[candidate.serialNumber] else candidate;
        effects == old(effects) + [Setup(candidate)] + (if kept != candidate then [Dispose(candidate)] else []) +
          [Send(DeviceEvent.DeviceConnected(kept))]
      ensures device.None? || !healthy ==> devices == old(devices) && effects == old(effects)
    {
      if device.Some? && healthy {
        ConnectHealthy(candidate);
      }
    }

    /**
     * `deviceChanged`: a healthy device is handled as in `deviceConnected`; an unhealthy one is published
     * as disconnected, as the fresh wrapper, and the registry is left alone.
     */
    method DeviceChanged(device: Option<IDevice>, candidate: DdmlibAndroidDevice, healthy: bool)
      requires Valid() && (device.Some? ==> candidate.ddmsDevice == device.value)
      modifies this
      ensures Valid() && channelClosed == old(channelClosed)
      ensures old(devices).Keys <= devices.Keys
      ensures device.Some? && healthy ==>
        devices == (if candidate.serialNumber in old(devices) then old(devices) else old(devices)[candidate.serialNumber := candidate])
      ensures device.Some? && healthy ==>
        var kept := if candidate.serialNumber in old(devices) then old(devices)[candidate.serialNumber] else candidate;
        effects == old(effects) + [Setup(candidate)] + (if kept != candidate then [Dispose(candidate)] else []) +
          [Send(DeviceEvent.DeviceConnected(kept))]
      ensures device.Some? && !healthy ==>
        devices == old(devices) && effects == old(effects) + [Send(DeviceEvent.DeviceDisconnected(candidate))]
      ensures device.None? ==> devices == old(devices) && effects == old(effects)
    {
      if device.Some? {
        if healthy {
          ConnectHealthy(candidate);
        } else {
          effects := effects + [Send(DeviceEvent.DeviceDisconnected(candidate))];
        }
      }
    }

    /**
     * `deviceDisconnected`: the matching registered device, if any, is published as disconnected and
     * disposed; it stays registered. `order` is the iteration order of the registry.
     */
    method DeviceDisconnected(device: Option<IDevice>, order: seq<string>)
      requires Valid() && IsOrderOf(order, devices)
      modifies this
      ensures Valid() && devices == old(devices) && channelClosed == old(channelClosed)
      ensures device.Some? && MatchDdmsToDevice(old(devices), order, device.value).Some? ==>
        var m := MatchDdmsToDevice(old(devices), order, device.value).value;
        effects == old(effects) + [Send(DeviceEvent.DeviceDisconnected(m)), Dispose(m)]
      ensures device.None? || MatchDdmsToDevice(old(devices), order, device.value).None? ==> effects == old(effects)
    {
      if device.Some? {
        var found := MatchDdmsToDevice(devices, order, device.value);
        if found.Some? {
          effects := effects + [Send(DeviceEvent.DeviceDisconnected(found.value))];
          effects := effects + [Dispose(found.value)];
        }
      }
    }

    /** `terminate`: shuts the bridge down and closes the channel; the registry is not touched. */
    method Terminate()
      modifies this
      ensures devices == old(devices) && channelClosed
      ensures effects == old(effects) + [DisconnectBridge, TerminateBridge]
    {
      effects := effects + [DisconnectBridge, TerminateBridge];
      channelClosed := true;
    }

    /**
     * The checks of `initialize` around the bridge: exactly one adb server, on the default host
     * (`defaultHost` is `AdbEndpoint().host`), then the wait for devices; a bridge with no initial list or
     * no devices once the wait ends terminates the provider. The bridge answers are parameters as in
     * `WaitForDevices`; `sleeps` is the number of sleeps the wait took, 0 when it did not run.
     */
    method Initialize(adbServers: seq<AdbEndpoint>, defaultHost: string, waitForDevicesTimeoutMillis: int,
                      hasInitialDeviceList: nat -> bool, hasDevices: nat -> bool, ghost settledBy: nat)
      returns (r: Result<nat, InitializeError>, sleeps: nat)
      requires forall i :: i >= settledBy ==> hasInitialDeviceList(i)
      modifies this
      ensures devices == old(devices)
      ensures !(|adbServers| == 1 && adbServers[0].host == defaultHost) ==>
        r == Failure(OnlyLocalAdbServer) && sleeps == 0 && effects == old(effects) && channelClosed == old(channelClosed)
      ensures |adbServers| == 1 && adbServers[0].host == defaultHost ==>
        && (forall j :: 0 <= j < sleeps ==>
              KeepWaiting(hasInitialDeviceList(j), hasDevices(j), waitForDevicesTimeoutMillis - DEFAULT_DDM_LIB_SLEEP_TIME * j))
        && !KeepWaiting(hasInitialDeviceList(sleeps), hasDevices(sleeps),
                        waitForDevicesTimeoutMillis - DEFAULT_DDM_LIB_SLEEP_TIME * sleeps)
        && (r.Success? <==> hasInitialDeviceList(sleeps) && hasDevices(sleeps))
        && (r.Failure? ==> r == Failure(NoDevices))
      ensures r.Success? ==> r.value == sleeps && effects == old(effects) && channelClosed == old(channelClosed)
      ensures r == Failure(NoDevices) ==> effects == old(effects) + [DisconnectBridge, TerminateBridge] && channelClosed
    {
      if |adbServers| != 1 || adbServers[0].host != defaultHost {
        return Failure(OnlyLocalAdbServer), 0;
      }
      sleeps := WaitForDevices(waitForDevicesTimeoutMillis, hasInitialDeviceList, hasDevices, settledBy);
      if !hasInitialDeviceList(sleeps) || !hasDevices(sleeps) {
        Terminate();
        return Failure(NoDevices), sleeps;
      }
      return Success(sleeps), sleeps;
    }
  }

  /**
   * A disconnect disposes the wrapper but keeps it registered, so a later connection of the same serial
   * disposes the new wrapper and publishes Connected for the old, already disposed one.
   */
  method ReconnectAfterDisconnect(first: DdmlibAndroidDevice, second: DdmlibAndroidDevice) returns (p: DdmlibDeviceProvider)
    requires second.serialNumber == first.serialNumber && second != first
    ensures p.devices == map[first.serialNumber := first]
    ensures p.effects == [Setup(first), Send(DeviceEvent.DeviceConnected(first)),
                          Send(DeviceEvent.DeviceDisconnected(first)), Dispose(first),
                          Setup(second), Dispose(second), Send(DeviceEvent.DeviceConnected(first))]
  {
    p := new DdmlibDeviceProvider();
    p.DeviceConnected(Some(first.ddmsDevice), first, true);
    assert p.devices == map[first.serialNumber := first];
    assert ReportsDevice(first.ddmsDevice)(first);
    p.DeviceDisconnected(Some(first.ddmsDevice), [first.serialNumber]);
    p.DeviceConnected(Some(second.ddmsDevice), second, true);
  }

  /** A registered device never leaves the registry through the listener: a connection keeps every serial. */
  lemma GetOrPutKeepsEntries(devices: map<string, DdmlibAndroidDevice>, candidate: DdmlibAndroidDevice)
    ensures (if candidate.serialNumber in devices then devices else devices[candidate.serialNumber := candidate]).Keys
      == devices.Keys + {candidate.serialNumber}
  {
  }
}
