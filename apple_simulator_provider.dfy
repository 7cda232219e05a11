/**
 * The registry side of the Apple simulator provider: grouping the configured workers by host, the map of
 * connected simulators, one pass of the liveness monitor, and termination.
 */
module AppleProvider {
  import opened Wrappers
  import opened Seqs
  import opened AppleModel

  /** A connected simulator. `instance` tells apart two device objects for the same simulator. */
  datatype AppleSimulatorDevice = AppleSimulatorDevice(instance: nat, udid: string, transport: Transport, serialNumber: string)

  datatype DeviceEvent = DeviceConnected(device: AppleSimulatorDevice) | DeviceDisconnected(device: AppleSimulatorDevice)

  /** The provider's observable effects, in order: events sent, devices disposed, connections released. */
  datatype Effect =
    | Send(event: DeviceEvent)
    | Dispose(device: AppleSimulatorDevice)
    | ReleaseConnection(device: AppleSimulatorDevice)

  /** `NoDevicesException` raised by `initialize`. */
  datatype InitializeError = NoWorkers

  /** The hosts map of `initialize`: a `put` per worker, so a later worker for a transport replaces an earlier one. */
  function HostsOf(workers: seq<Worker>): map<Transport, seq<AppleTarget>> {
    if workers == [] then map[]
    else
      var w := workers[|workers| - 1];
      HostsOf(workers[..|workers| - 1])[w.transport := w.devices]
  }

  function OnTransport(t: Transport): Worker -> bool {
    (w: Worker) => w.transport == t
  }

  /** Every configured transport is a host, and its targets are those of the last worker naming it. */
  lemma {:induction false} HostsLastWins(workers: seq<Worker>)
    ensures forall t :: t in HostsOf(workers) <==> exists w | w in workers :: w.transport == t
    ensures forall t | t in HostsOf(workers) ::
      FindLastIndex(workers, OnTransport(t)).Some? &&
      HostsOf(workers)[t] == workers[FindLastIndex(workers, OnTransport(t)).value].devices
  {
    if workers != [] {
      var init := workers[..|workers| - 1];
      var w := workers[|workers| - 1];
      assert workers == init + [w];
      HostsLastWins(init);
      forall t | t in HostsOf(workers)
        ensures FindLastIndex(workers, OnTransport(t)).Some? &&
          HostsOf(workers)[t] == workers[FindLastIndex(workers, OnTransport(t)).value].devices
      {
        if t != w.transport {
          assert FindLastIndex(workers, OnTransport(t)) == FindLastIndex(init, OnTransport(t));
        }
      }
    }
  }

  /** The worker checks and host grouping of `initialize`: no workers is an error. */
  method GroupHosts(workers: seq<Worker>) returns (r: Result<map<Transport, seq<AppleTarget>>, InitializeError>)
    ensures workers == [] <==> r == Failure(NoWorkers)
    ensures workers != [] ==> r == Success(HostsOf(workers))
  {
    if workers == [] {
      return Failure(NoWorkers);
    }
    var hosts: map<Transport, seq<AppleTarget>> := map[];
    for i := 0 to |workers|
      invariant hosts == HostsOf(workers[..i])
    {
      assert workers[..i + 1][..i] == workers[..i];
      hosts := hosts[workers[i].transport := workers[i].devices];
    }
    assert workers[..|workers|] == workers;
    return Success(hosts);
  }

  /** `order` lists every key of `devices` exactly once: an iteration order of the concurrent map. */
  predicate IsOrderOf(order: seq<string>, devices: map<string, AppleSimulatorDevice>) {
    NoDuplicates(order) && (forall k | k in order :: k in devices) && (forall k | k in devices :: k in order)
  }

  /** The devices, visited in `order`, whose connection is gone. */
  function Stale(devices: map<string, AppleSimulatorDevice>, order: seq<string>, connected: AppleSimulatorDevice -> bool)
    : (stale: seq<AppleSimulatorDevice>)
    requires forall k | k in order :: k in devices
    ensures forall d | d in stale :: !connected(d) && exists k | k in order :: devices[k] == d
  {
    if order == [] then []
    else
      var prev := Stale(devices, order[..|order| - 1], connected);
      var d := devices[order[|order| - 1]];
      if connected(d) then prev else prev + [d]
  }

  /** What the monitor does for each stale device: publish it as disconnected, then dispose it. */
  function DisconnectEffects(stale: seq<AppleSimulatorDevice>): seq<Effect> {
    if stale == [] then []
    else
      var d := stale[|stale| - 1];
      DisconnectEffects(stale[..|stale| - 1]) + [Send(DeviceDisconnected(d)), Dispose(d)]
  }

  function TransportsOf(stale: seq<AppleSimulatorDevice>): set<Transport> {
    set d | d in stale :: d.transport
  }

  /** The re-provisioning plans of a monitor pass: per transport, the udids of its stale devices as existing simulators. */
  function Replan(stale: seq<AppleSimulatorDevice>): map<Transport, ProvisioningPlan> {
    map t | t in TransportsOf(stale) ::
      ProvisioningPlan(set d | d in stale && d.transport == t :: d.udid, [], {})
  }

  /** One more visited key: its device joins the stale ones when its connection is gone. */
  lemma StaleStep(devices: map<string, AppleSimulatorDevice>, order: seq<string>, i: nat,
                  connected: AppleSimulatorDevice -> bool)
    requires i < |order| && forall k | k in order :: k in devices
    ensures var prev := Stale(devices, order[..i], connected);
      var d := devices[order[i]];
      Stale(devices, order[..i + 1], connected) == if connected(d) then prev else prev + [d]
  {
    assert order[..i + 1][..i] == order[..i];
  }

  lemma DisconnectEffectsStep(stale: seq<AppleSimulatorDevice>, d: AppleSimulatorDevice)
    ensures DisconnectEffects(stale + [d]) == DisconnectEffects(stale) + [Send(DeviceDisconnected(d)), Dispose(d)]
  {
    assert (stale + [d])[..|stale|] == stale;
  }

  /**
   * What termination does for each registered device: dispose it, then release its connection. Both run in
   * one `try` whose `catch` ignores the exception, so a device whose dispose throws (`disposeFails`) keeps
   * its connection and termination goes on with the next device.
   */
  function TerminateEffects(devices: map<string, AppleSimulatorDevice>, order: seq<string>,
                            disposeFails: AppleSimulatorDevice -> bool): seq<Effect>
    requires forall k | k in order :: k in devices
  {
    if order == [] then []
    else
      var d := devices[order[|order| - 1]];
      TerminateEffects(devices, order[..|order| - 1], disposeFails) +
        (if disposeFails(d) then [Dispose(d)] else [Dispose(d), ReleaseConnection(d)])
  }

  /** A monitor pass visits every registered device: exactly the disconnected ones are stale. */
  lemma {:induction false} StaleExactly(devices: map<string, AppleSimulatorDevice>, order: seq<string>,
                                        connected: AppleSimulatorDevice -> bool)
    requires forall k | k in order :: k in devices
    ensures forall k | k in order :: devices[k] in Stale(devices, order, connected) <==> !connected(devices[k])
  {
    if order != [] {
      StaleExactly(devices, order[..|order| - 1], connected);
      assert order == order[..|order| - 1] + [order[|order| - 1]];
    }
  }

  /** The monitor disposes and reports as disconnected exactly the stale devices, and never reports a connection. */
  lemma {:induction false} DisconnectEffectsExactly(stale: seq<AppleSimulatorDevice>)
    ensures forall d :: Dispose(d) in DisconnectEffects(stale) <==> d in stale
    ensures forall d :: Send(DeviceDisconnected(d)) in DisconnectEffects(stale) <==> d in stale
    ensures forall d :: Send(DeviceConnected(d)) !in DisconnectEffects(stale)
    ensures forall d :: ReleaseConnection(d) !in DisconnectEffects(stale)
  {
    if stale != [] {
      DisconnectEffectsExactly(stale[..|stale| - 1]);
      assert stale == stale[..|stale| - 1] + [stale[|stale| - 1]];
    }
  }

  /** Every stale device is re-planned on its own transport, as an existing simulator, and nothing else is. */
  lemma ReplanCoversStale(stale: seq<AppleSimulatorDevice>)
    ensures forall d | d in stale :: d.transport in Replan(stale) && d.udid in Replan(stale)[d.transport].existingSimulators
    ensures forall t | t in Replan(stale) ::
      Replan(stale)[t].needsProvisioning == [] && Replan(stale)[t].physicalUdids == {} &&
      forall u | u in Replan(stale)[t].existingSimulators :: exists d | d in stale :: d.transport == t && d.udid == u
  {
  }

  /**
   * Termination disposes every registered device and releases the connection of exactly those whose
   * dispose succeeds.
   */
  lemma {:induction false} TerminateDisposesAll(devices: map<string, AppleSimulatorDevice>, order: seq<string>,
                                                disposeFails: AppleSimulatorDevice -> bool)
    requires forall k | k in order :: k in devices
    ensures forall k | k in order :: Dispose(devices[k]) in TerminateEffects(devices, order, disposeFails)
    ensures forall k | k in order ::
      ReleaseConnection(devices[k]) in TerminateEffects(devices, order, disposeFails) <==> !disposeFails(devices[k])
  {
    if order != [] {
      var init, last := order[..|order| - 1], order[|order| - 1];
      var d := devices[last];
      var tail: seq<Effect> := if disposeFails(d) then [Dispose(d)] else [Dispose(d), ReleaseConnection(d)];
      var before := TerminateEffects(devices, init, disposeFails);
      assert TerminateEffects(devices, order, disposeFails) == before + tail;
      TerminateDisposesAll(devices, init, disposeFails);
      TerminateTouchesOnlyRegistered(devices, init, disposeFails);
      assert order == init + [last];
      forall k | k in order
        ensures Dispose(devices[k]) in before + tail
        ensures ReleaseConnection(devices[k]) in before + tail <==> !disposeFails(devices[k])
      {
        assert ReleaseConnection(devices[k]) in tail <==> devices[k] == d && !disposeFails(d);
        if k !in init {
          assert k == last;
          assert ReleaseConnection(d) in before ==> !disposeFails(d);
        }
      }
    }
  }

  /** Termination sends nothing and only disposes or releases registered devices, releasing none whose dispose throws. */
  lemma {:induction false} TerminateTouchesOnlyRegistered(devices: map<string, AppleSimulatorDevice>, order: seq<string>,
                                                          disposeFails: AppleSimulatorDevice -> bool)
    requires forall k | k in order :: k in devices
    ensures forall e | e in TerminateEffects(devices, order, disposeFails) ::
      !e.Send? && (exists k | k in order :: devices[k] == e.device) && (e.ReleaseConnection? ==> !disposeFails(e.device))
  {
    if order != [] {
      var init, last := order[..|order| - 1], order[|order| - 1];
      var d := devices[last];
      var before := TerminateEffects(devices, init, disposeFails);
      var tail: seq<Effect> := if disposeFails(d) then [Dispose(d)] else [Dispose(d), ReleaseConnection(d)];
      assert TerminateEffects(devices, order, disposeFails) == before + tail;
      TerminateTouchesOnlyRegistered(devices, init, disposeFails);
      forall e: Effect | e in before + tail
        ensures exists k | k in order :: devices[k] == e.device
      {
        if e in before {
          var k :| k in init && devices[k] == e.device;
          assert k in order;
        } else {
          assert devices[last] == e.device;
        }
      }
    }
  }

  class AppleSimulatorProvider {
    /** The connected simulators by serial number. */
    var devices: map<string, AppleSimulatorDevice>
    /** Everything sent, disposed and released so far. */
    var effects: seq<Effect>
    var channelClosed: bool
    /** The monitor job is running: launched by `initialize`, cancelled by `terminate`. */
    var monitoring: bool

    /** Each device is stored under its own serial number. */
    predicate Valid()
      reads this
    {
      forall k | k in devices :: devices[k].serialNumber == k
    }

    constructor()
      ensures Valid()
      ensures devices == map[] && effects == [] && !channelClosed && !monitoring
    {
      devices := map[];
      effects := [];
      channelClosed := false;
      monitoring := false;
    }

    /** The launch of the monitor job at the end of `initialize`; nothing else changes. */
    method LaunchMonitor()
      modifies this
      ensures monitoring
      ensures devices == old(devices) && effects == old(effects) && channelClosed == old(channelClosed)
    {
      monitoring := true;
    }

    /**
     * `connect`: stores the device under its serial number; an entry it replaces is disposed; then
     * Connected is published for the new device.
     */
    method Connect(device: AppleSimulatorDevice)
      requires Valid()
      modifies this
      ensures Valid()
      ensures devices == old(devices)[device.serialNumber := device]
      ensures effects == old(effects) +
        (if device.serialNumber in old(devices) then [Dispose(old(devices)[device.serialNumber])] else []) +
        [Send(DeviceConnected(device))]
      ensures channelClosed == old(channelClosed) && monitoring == old(monitoring)
    {
      var previous := if device.serialNumber in devices then Some(devices[device.serialNumber]) else None;
      devices := devices[device.serialNumber := device];
      if previous.Some? {
        effects := effects + [Dispose(previous.value)];
      }
      effects := effects + [Send(DeviceConnected(device))];
    }

    /**
     * One pass of the monitoring loop, visiting the devices in `order`: each device whose connection is
     * gone is published as disconnected and disposed; the registry keeps every entry; the stale devices
     * are re-planned per transport.
     */
    method MonitorPass(order: seq<string>, connected: AppleSimulatorDevice -> bool)
      returns (replan: map<Transport, ProvisioningPlan>)
      requires Valid() && IsOrderOf(order, devices)
      modifies this
      ensures devices == old(devices) && Valid()
      ensures effects == old(effects) + DisconnectEffects(Stale(old(devices), order, connected))
      ensures replan == Replan(Stale(old(devices), order, connected))
      ensures channelClosed == old(channelClosed) && monitoring == old(monitoring)
    {
      var registered := devices;
      var recreate: seq<AppleSimulatorDevice> := [];
      var sent: seq<Effect> := [];
      for i := 0 to |order|
        invariant recreate == Stale(registered, order[..i], connected)
        invariant sent == DisconnectEffects(recreate)
        modifies {}
      {
        StaleStep(registered, order, i, connected);
        var device := registered[order[i]];
        if !connected(device) {
          DisconnectEffectsStep(recreate, device);
          sent := sent + [Send(DeviceDisconnected(device)), Dispose(device)];
          recreate := recreate + [device];
        }
      }
      assert order[..|order|] == order;
      effects := effects + sent;
      replan := Replan(recreate);
    }

    /**
     * `terminate`: stops the monitor, closes the channel, disposes every device (in `order`) and releases
     * its connection unless its dispose throws (`disposeFails`), then clears the registry. Run on an empty
     * registry it only stops and closes.
     */
    method Terminate(order: seq<string>, disposeFails: AppleSimulatorDevice -> bool)
      requires Valid() && IsOrderOf(order, devices)
      modifies this
      ensures devices == map[] && Valid()
      ensures effects == old(effects) + TerminateEffects(old(devices), order, disposeFails)
      ensures old(devices) == map[] ==> effects == old(effects)
      ensures channelClosed && !monitoring
    {
      monitoring := false;
      channelClosed := true;
      for i := 0 to |order|
        invariant devices == old(devices)
        invariant effects == old(effects) + TerminateEffects(devices, order[..i], disposeFails)
        invariant channelClosed && !monitoring
      {
        assert order[..i + 1][..i] == order[..i];
        var device := devices[order[i]];
        if disposeFails(device) {
          effects := effects + [Dispose(device)];
        } else {
          effects := effects + [Dispose(device), ReleaseConnection(device)];
        }
      }
      assert order[..|order|] == order;
      assert |order| == 0 || order[0] in old(devices);
      devices := map[];
    }
  }
}
