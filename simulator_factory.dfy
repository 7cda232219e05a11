/** SimulatorFactory.create: looking up a simulator by udid and deciding its SDK. */
module SimulatorFactory {
  import opened Wrappers
  import opened Seqs
  import opened AppleModel

  datatype Sdk = IPHONESIMULATOR | TV_SIMULATOR | WATCH_SIMULATOR | VISION_SIMULATOR

  const DEVICE_TYPE_PREFIX: string := "com.apple.CoreSimulator.SimDeviceType."

  /** Kotlin's `removePrefix`: drops `prefix` when `s` starts with it. */
  function RemovePrefix(s: string, prefix: string): (r: string)
    ensures StartsWith(s, prefix) ==> prefix + r == s
    ensures !StartsWith(s, prefix) ==> r == s
  {
    if StartsWith(s, prefix) then
      assert s == s[..|prefix|] + s[|prefix|..];
      s[|prefix|..]
    else s
  }

  /** The short device type: the identifier without its CoreSimulator prefix, "" when there is none. */
  function SimulatorId(deviceTypeIdentifier: Option<string>): string {
    match deviceTypeIdentifier
    case None => ""
    case Some(id) => RemovePrefix(id, DEVICE_TYPE_PREFIX)
  }

  /** The if/else-if chain on the short device type. */
  function SdkOf(simulatorId: string): Sdk {
    if StartsWith(simulatorId, "iPhone") then IPHONESIMULATOR
    else if StartsWith(simulatorId, "iPad") then IPHONESIMULATOR
    else if StartsWith(simulatorId, "Apple-TV") then TV_SIMULATOR
    else if StartsWith(simulatorId, "Apple-Watch") then WATCH_SIMULATOR
    else if StartsWith(simulatorId, "Apple-Vision") then VISION_SIMULATOR
    else IPHONESIMULATOR
  }

  /** The classification: both directions for every SDK, so it is total and the branches do not overlap. */
  lemma SdkOfCharacterized(id: string)
    ensures SdkOf(id) == TV_SIMULATOR <==> StartsWith(id, "Apple-TV")
    ensures SdkOf(id) == WATCH_SIMULATOR <==> StartsWith(id, "Apple-Watch")
    ensures SdkOf(id) == VISION_SIMULATOR <==> StartsWith(id, "Apple-Vision")
    ensures SdkOf(id) == IPHONESIMULATOR <==>
      !StartsWith(id, "Apple-TV") && !StartsWith(id, "Apple-Watch") && !StartsWith(id, "Apple-Vision")
  {
    if StartsWith(id, "iPhone") || StartsWith(id, "iPad") {
      assert id[0] == 'i';
    } else if StartsWith(id, "Apple-TV") {
      assert id[6] == 'T';
    } else if StartsWith(id, "Apple-Watch") {
      assert id[6] == 'W';
    }
  }

  /** A fully qualified identifier is classified by the name that follows the prefix. */
  lemma QualifiedIdentifierClassified(name: string)
    ensures SimulatorId(Some(DEVICE_TYPE_PREFIX + name)) == name
    ensures SdkOf(SimulatorId(Some(DEVICE_TYPE_PREFIX + name))) == SdkOf(name)
  {
    assert (DEVICE_TYPE_PREFIX + name)[..|DEVICE_TYPE_PREFIX|] == DEVICE_TYPE_PREFIX;
  }

  /** A missing identifier becomes the empty name, which falls through to IPHONESIMULATOR. */
  lemma MissingIdentifierIsIphone()
    ensures SimulatorId(None) == "" && SdkOf(SimulatorId(None)) == IPHONESIMULATOR
  {
  }

  datatype FailureCause = Missing | Unavailable

  /** `DeviceFailureException` with reason InvalidSimulatorIdentifier. */
  datatype DeviceFailure = InvalidSimulatorIdentifier(udid: string, cause: FailureCause)

  /** The created device, before its foreign setup. */
  datatype AppleSimulatorDevice = AppleSimulatorDevice(udid: string, transport: Transport, sdk: Sdk)

  /** The result, and whether the command executor was closed on the way. */
  datatype CreateOutcome = CreateOutcome(result: Result<AppleSimulatorDevice, DeviceFailure>, executorClosed: bool)

  function HasUdid(udid: string): SimctlDevice -> bool {
    (d: SimctlDevice) => d.udid == udid
  }

  /**
   * `create`: the first listed device with the udid decides. It fails when there is none, or when that
   * device is flagged unavailable (an unknown availability is accepted); failing closes the executor.
   */
  function Create(listing: seq<SimctlDevice>, transport: Transport, udid: string): (r: CreateOutcome)
    ensures r.executorClosed <==> r.result.Failure?
    ensures r.result.Failure? <==>
      (forall d | d in listing :: d.udid != udid) || Find(listing, HasUdid(udid)).value.isAvailable == Some(false)
    ensures r.result.Success? ==> r.result.value.udid == udid && r.result.value.transport == transport
    ensures r.result.Success? ==>
      r.result.value.sdk == SdkOf(SimulatorId(Find(listing, HasUdid(udid)).value.deviceTypeIdentifier))
  {
    match Find(listing, HasUdid(udid))
    case None => CreateOutcome(Failure(InvalidSimulatorIdentifier(udid, Missing)), true)
    case Some(d) =>
      if d.isAvailable == Some(false) then CreateOutcome(Failure(InvalidSimulatorIdentifier(udid, Unavailable)), true)
      else
        var sdk := SdkOf(SimulatorId(d.deviceTypeIdentifier));
        CreateOutcome(Success(AppleSimulatorDevice(d.udid, transport, sdk)), false)
  }

  /** Only the first entry for a udid counts: a later available duplicate does not rescue an unavailable one. */
  lemma FirstEntryDecides(listing: seq<SimctlDevice>, transport: Transport, d: SimctlDevice, later: SimctlDevice)
    requires d.isAvailable == Some(false) && later.udid == d.udid && later.isAvailable == Some(true)
    requires forall x | x in listing :: x.udid != d.udid
    ensures Create(listing + [d, later], transport, d.udid).result == Failure(InvalidSimulatorIdentifier(d.udid, Unavailable))
  {
    FindAppend(listing, d, HasUdid(d.udid));
    FindAppend(listing + [d], later, HasUdid(d.udid));
    assert listing + [d, later] == listing + [d] + [later];
  }
}
