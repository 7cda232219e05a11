/** The values the Apple device provider works with: the simctl inventory, the configured targets, plans. */
module AppleModel {
  import opened Wrappers

  /** The simulator states that matter here; every other simctl state is `OtherState`. */
  datatype SimctlState = Booted | Shutdown | OtherState(name: string)

  /** One entry of `simctl list devices`. */
  datatype SimctlDevice = SimctlDevice(
    udid: string,
    state: SimctlState,
    isAvailable: Option<bool>,
    deviceTypeIdentifier: Option<string>,
    runtime: Option<string>)

  /** The identifiers of the device types and runtimes `simctl list` reports. */
  datatype SimctlListDevicesOutput = SimctlListDevicesOutput(devicetypes: seq<string>, runtimes: seq<string>)

  /** How a device host is reached. */
  datatype Transport = Local | Ssh(addr: string, port: int)

  /** A template for a simulator that may be reused or created on demand. */
  datatype SimulatorProfile = SimulatorProfile(
    fullyQualifiedDeviceTypeId: string,
    fullyQualifiedRuntimeId: Option<string>,
    newNamePrefix: string)

  /** One configured device of a worker. */
  datatype AppleTarget =
    | Simulator(udid: string)
    | Physical(udid: string)
    | Profile(profile: SimulatorProfile)
    | Host

  /** A host and the devices configured on it. */
  datatype Worker = Worker(transport: Transport, devices: seq<AppleTarget>)

  /** What to connect on one host: existing simulators, profiles to create, physical devices. */
  datatype ProvisioningPlan = ProvisioningPlan(
    existingSimulators: set<string>,
    needsProvisioning: seq<SimulatorProfile>,
    physicalUdids: set<string>)
}
