/**
 * Per-host provisioning of the Apple simulator provider: reconciling the configured targets of one host
 * against the simctl inventory of that host.
 */
module AppleProvisioning {
  import opened Wrappers
  import opened Seqs
  import opened AppleModel

  /** `isAvailable ?: false`: an unknown availability counts as unavailable. */
  predicate IsAvailable(d: SimctlDevice) {
    d.isAvailable == Some(true)
  }

  function UdidsOf(ds: seq<SimctlDevice>): set<string> {
    set d | d in ds :: d.udid
  }

  /** No two entries share a udid. */
  predicate DistinctUdids(ds: seq<SimctlDevice>) {
    forall i, j :: 0 <= i < j < |ds| ==> ds[i].udid != ds[j].udid
  }

  /** The udids of the available inventory entries. */
  function AvailableUdids(inventory: seq<SimctlDevice>): set<string> {
    set d | d in inventory && IsAvailable(d) :: d.udid
  }

  function AvailableWithUdid(udid: string): SimctlDevice -> bool {
    (d: SimctlDevice) => IsAvailable(d) && d.udid == udid
  }

  /**
   * `filter { isAvailable ?: false }.groupBy { udid }.mapValues { first() }`: an insertion-ordered map from
   * udid to its first available entry, represented by its values in key order.
   */
  function AvailableByUdid(inventory: seq<SimctlDevice>): (r: seq<SimctlDevice>)
    ensures forall d | d in r :: d in inventory && IsAvailable(d)
    ensures UdidsOf(r) == AvailableUdids(inventory)
    ensures DistinctUdids(r)
  {
    if inventory == [] then []
    else
      var init := inventory[..|inventory| - 1];
      var prev := AvailableByUdid(init);
      var d := inventory[|inventory| - 1];
      assert inventory == init + [d];
      assert AvailableUdids(inventory) == AvailableUdids(init) + if IsAvailable(d) then {d.udid} else {};
      if IsAvailable(d) && d.udid !in UdidsOf(prev) then
        assert UdidsOf(prev + [d]) == UdidsOf(prev) + {d.udid};
        assert forall i | 0 <= i < |prev| :: prev[i] in prev;
        prev + [d]
      else prev
  }

  /** Each kept entry is the first available entry of the inventory with its udid. */
  lemma {:induction false} AvailableByUdidKeepsFirst(inventory: seq<SimctlDevice>)
    ensures forall d | d in AvailableByUdid(inventory) :: Find(inventory, AvailableWithUdid(d.udid)) == Some(d)
  {
    if inventory != [] {
      var init := inventory[..|inventory| - 1];
      var x := inventory[|inventory| - 1];
      assert inventory == init + [x];
      AvailableByUdidKeepsFirst(init);
      var prev := AvailableByUdid(init);
      forall d | d in AvailableByUdid(inventory)
        ensures Find(inventory, AvailableWithUdid(d.udid)) == Some(d)
      {
        FindAppend(init, x, AvailableWithUdid(d.udid));
        if d !in prev {
          assert d == x && d.udid !in UdidsOf(prev);
          assert d.udid !in AvailableUdids(init);
          assert Find(init, AvailableWithUdid(d.udid)).None?;
        }
      }
    }
  }

  /** The targets of one worker, split by kind in configuration order; Host targets are skipped. */
  datatype TargetsByKind = TargetsByKind(simulators: seq<string>, profiles: seq<SimulatorProfile>, physical: seq<string>)

  /** One step of the `forEach` over the targets. */
  function AddTarget(k: TargetsByKind, t: AppleTarget): TargetsByKind {
    match t
    case Simulator(udid) => k.(simulators := k.simulators + [udid])
    case Physical(udid) => k.(physical := k.physical + [udid])
    case Profile(profile) => k.(profiles := k.profiles + [profile])
    case Host => k
  }

  function Partition(targets: seq<AppleTarget>): TargetsByKind {
    if targets == [] then TargetsByKind([], [], [])
    else AddTarget(Partition(targets[..|targets| - 1]), targets[|targets| - 1])
  }

  /** Every target lands in the list of its kind, and nothing else does. */
  lemma {:induction false} PartitionMembers(targets: seq<AppleTarget>)
    ensures forall u :: u in Partition(targets).simulators <==> Simulator(u) in targets
    ensures forall u :: u in Partition(targets).physical <==> Physical(u) in targets
    ensures forall p :: p in Partition(targets).profiles <==> Profile(p) in targets
  {
    if targets != [] {
      var init := targets[..|targets| - 1];
      assert targets == init + [targets[|targets| - 1]];
      PartitionMembers(init);
    }
  }

  /** Host targets are skipped wherever they appear. */
  lemma {:induction false} PartitionSkipsHost(a: seq<AppleTarget>, b: seq<AppleTarget>)
    ensures Partition(a + [Host] + b) == Partition(a + b)
    decreases |b|
  {
    if b == [] {
      assert (a + [Host] + b)[..|a|] == a;
      assert a + b == a;
    } else {
      var init := b[..|b| - 1];
      var x := b[|b| - 1];
      PartitionSkipsHost(a, init);
      assert (a + [Host] + b)[..|a + [Host] + b| - 1] == a + [Host] + init;
      assert (a + b)[..|a + b| - 1] == a + init;
    }
  }

  /** `usedUdids`: the explicit simulator udids present in the available inventory. */
  function UsedUdids(available: seq<SimctlDevice>, simulators: seq<string>): set<string> {
    set u | u in simulators && u in UdidsOf(available)
  }

  function UdidNotIn(udids: set<string>): SimctlDevice -> bool {
    (d: SimctlDevice) => d.udid !in udids
  }

  /** The ordered map without the keys in `udids` (`filterKeys`, `minus`, `remove`). */
  function Without(ds: seq<SimctlDevice>, udids: set<string>): (r: seq<SimctlDevice>)
    ensures forall d :: d in r <==> d in ds && d.udid !in udids
    ensures |r| <= |ds|
  {
    Filter(ds, UdidNotIn(udids))
  }

  /** The device matches the profile's device type and, when the profile pins one, its runtime. */
  function MatchesProfile(profile: SimulatorProfile): SimctlDevice -> bool {
    (d: SimctlDevice) =>
      d.deviceTypeIdentifier == Some(profile.fullyQualifiedDeviceTypeId) &&
      (profile.fullyQualifiedRuntimeId.None? || d.runtime == profile.fullyQualifiedRuntimeId)
  }

  /** `reuseExistingSimulator`: the udid of the first device matching the profile, if any. */
  function ReuseExistingSimulator(devices: seq<SimctlDevice>, profile: SimulatorProfile): (r: Option<string>)
    ensures r.None? <==> forall d | d in devices :: !MatchesProfile(profile)(d)
    ensures r.Some? ==> exists d | d in devices :: d.udid == r.value && MatchesProfile(profile)(d)
  {
    match Find(devices, MatchesProfile(profile))
    case None => None
    case Some(d) => Some(d.udid)
  }

  /**
   * `verifySimulatorCanBeProvisioned`: a profile can be created only when its device type is listed and,
   * if it pins a runtime, that runtime is listed too.
   */
  function VerifySimulatorCanBeProvisioned(listing: SimctlListDevicesOutput, profile: SimulatorProfile): (ok: bool)
    ensures profile.fullyQualifiedDeviceTypeId !in listing.devicetypes ==> !ok
    ensures profile.fullyQualifiedRuntimeId.Some? && profile.fullyQualifiedRuntimeId.value !in listing.runtimes ==> !ok
    ensures (profile.fullyQualifiedDeviceTypeId in listing.devicetypes &&
             (profile.fullyQualifiedRuntimeId.None? || profile.fullyQualifiedRuntimeId.value in listing.runtimes)) ==> ok
  {
    if !(exists t | t in listing.devicetypes :: t == profile.fullyQualifiedDeviceTypeId) then false
    else if profile.fullyQualifiedRuntimeId.Some? &&
      !(exists r | r in listing.runtimes :: r == profile.fullyQualifiedRuntimeId.value) then false
    else true
  }

  /** The state of the profile loop: claimed udids, profiles to create, and the devices still unused. */
  datatype Claims = Claims(reused: set<string>, create: seq<SimulatorProfile>, unused: seq<SimctlDevice>)

  /** One step of the profile loop: claim a matching device among the unused ones, or ask for creation. */
  function Claim(c: Claims, profile: SimulatorProfile): Claims {
    match ReuseExistingSimulator(Without(c.unused, c.reused), profile)
    case Some(u) => Claims(c.reused + {u}, c.create, Without(c.unused, {u}))
    case None => Claims(c.reused, c.create + [profile], c.unused)
  }

  /** A step claims a udid not claimed before, or asks for the profile. */
  lemma ClaimStep(c: Claims, profile: SimulatorProfile)
    ensures |Claim(c, profile).reused| + |Claim(c, profile).create| == |c.reused| + |c.create| + 1
    ensures Claim(c, profile).create == c.create || Claim(c, profile).create == c.create + [profile]
  {
    match ReuseExistingSimulator(Without(c.unused, c.reused), profile)
    case Some(u) =>
      var d :| d in Without(c.unused, c.reused) && d.udid == u && MatchesProfile(profile)(d);
      assert u !in c.reused;
      assert |c.reused + {u}| == |c.reused| + 1;
    case None =>
  }

  function ClaimAll(unused: seq<SimctlDevice>, profiles: seq<SimulatorProfile>): Claims {
    if profiles == [] then Claims({}, [], unused)
    else Claim(ClaimAll(unused, profiles[..|profiles| - 1]), profiles[|profiles| - 1])
  }

  /** The plan and the devices left unused once it is made. */
  datatype Reconciliation = Reconciliation(plan: ProvisioningPlan, unused: seq<SimctlDevice>)

  /** The explicit simulators of `targets` found in the inventory. */
  function PlanUsed(inventory: seq<SimctlDevice>, targets: seq<AppleTarget>): set<string> {
    UsedUdids(AvailableByUdid(inventory), Partition(targets).simulators)
  }

  /** The profile loop of `plan`, run over the available devices not explicitly used. */
  function PlanClaims(inventory: seq<SimctlDevice>, targets: seq<AppleTarget>): Claims {
    ClaimAll(Without(AvailableByUdid(inventory), PlanUsed(inventory, targets)), Partition(targets).profiles)
  }

  /** `plan`, without the shutdown side effect. */
  function Reconcile(inventory: seq<SimctlDevice>, targets: seq<AppleTarget>): Reconciliation {
    var claims := PlanClaims(inventory, targets);
    var physical := set u | u in Partition(targets).physical;
    Reconciliation(ProvisioningPlan(PlanUsed(inventory, targets) + claims.reused, claims.create, physical), claims.unused)
  }

  predicate IsBooted(d: SimctlDevice) {
    d.state == Booted
  }

  /** The udids, in order, of the Booted devices among `devices`. */
  function BootedUdids(devices: seq<SimctlDevice>): (udids: seq<string>)
    ensures forall u :: u in udids <==> exists d | d in devices :: d.udid == u && IsBooted(d)
  {
    var booted := Filter(devices, IsBooted);
    var udids := seq(|booted|, i requires 0 <= i < |booted| => booted[i].udid);
    assert forall d | d in booted :: d.udid in udids by {
      forall d | d in booted ensures d.udid in udids {
        var i :| 0 <= i < |booted| && booted[i] == d;
        assert udids[i] == d.udid;
      }
    }
    udids
  }

  /** The udids, in order, of the devices `plan` shuts down. */
  function Shutdowns(r: Reconciliation, shutdownUnused: bool): (shut: seq<string>)
    ensures forall u :: u in shut <==> shutdownUnused && exists d | d in r.unused :: d.udid == u && IsBooted(d)
  {
    if shutdownUnused then BootedUdids(r.unused) else []
  }

  /** The unused devices after the profile loop are the initial ones whose udid was not claimed. */
  lemma {:induction false} ClaimAllUnused(unused: seq<SimctlDevice>, profiles: seq<SimulatorProfile>)
    ensures forall d :: d in ClaimAll(unused, profiles).unused <==> d in unused && d.udid !in ClaimAll(unused, profiles).reused
    ensures ClaimAll(unused, profiles).reused <= UdidsOf(unused)
  {
    if profiles != [] {
      ClaimAllUnused(unused, profiles[..|profiles| - 1]);
    }
  }

  /**
   * Every profile either claims a device no earlier profile claimed or is asked for, in configuration
   * order.
   */
  lemma {:induction false} ClaimAllCounts(unused: seq<SimctlDevice>, profiles: seq<SimulatorProfile>)
    ensures |ClaimAll(unused, profiles).reused| + |ClaimAll(unused, profiles).create| == |profiles|
    ensures IsSubsequence(ClaimAll(unused, profiles).create, profiles)
  {
    if profiles != [] {
      var init := profiles[..|profiles| - 1];
      var p := profiles[|profiles| - 1];
      assert profiles == init + [p];
      ClaimAllCounts(unused, init);
      var c := ClaimAll(unused, init);
      ClaimStep(c, p);
      if Claim(c, p).create == c.create {
        SubsequenceExtend(c.create, init, p);
      } else {
        SubsequenceSnoc(c.create, init, p);
      }
    }
  }

  /** A profile asked for matches none of the devices left unused: reuse is never missed. */
  lemma {:induction false} ClaimAllCreateUnmatched(unused: seq<SimctlDevice>, profiles: seq<SimulatorProfile>)
    ensures forall p, d | p in ClaimAll(unused, profiles).create && d in ClaimAll(unused, profiles).unused ::
      !MatchesProfile(p)(d)
  {
    if profiles != [] {
      var init := profiles[..|profiles| - 1];
      ClaimAllCreateUnmatched(unused, init);
      ClaimAllUnused(unused, init);
    }
  }

  /** Every claimed udid is that of an initially unused device matching one of the profiles. */
  lemma {:induction false} ClaimAllReusedMatch(unused: seq<SimctlDevice>, profiles: seq<SimulatorProfile>)
    ensures forall u | u in ClaimAll(unused, profiles).reused ::
      exists d, p | d in unused && p in profiles :: d.udid == u && MatchesProfile(p)(d)
  {
    if profiles != [] {
      var init := profiles[..|profiles| - 1];
      var p := profiles[|profiles| - 1];
      ClaimAllReusedMatch(unused, init);
      var c := ClaimAll(unused, init);
      forall u | u in ClaimAll(unused, profiles).reused
        ensures exists d, p | d in unused && p in profiles :: d.udid == u && MatchesProfile(p)(d)
      {
        if u in c.reused {
          var d, q :| d in unused && q in init && d.udid == u && MatchesProfile(q)(d);
          assert q in profiles;
        } else {
          var d := ClaimedDevice(c, p, u);
          ClaimAllUnused(unused, init);
          assert d in unused && p in profiles;
        }
      }
    }
  }

  /** The udid a step newly claims is that of an unused device matching the profile. */
  lemma ClaimedDevice(c: Claims, profile: SimulatorProfile, u: string) returns (d: SimctlDevice)
    requires u in Claim(c, profile).reused && u !in c.reused
    ensures d in c.unused && d.udid == u && MatchesProfile(profile)(d)
  {
    d :| d in Without(c.unused, c.reused) && d.udid == u && MatchesProfile(profile)(d);
  }

  /** Everything the plan connects as existing is an available entry of the inventory. */
  lemma PlanExistingAvailable(inventory: seq<SimctlDevice>, targets: seq<AppleTarget>)
    ensures Reconcile(inventory, targets).plan.existingSimulators <= AvailableUdids(inventory)
  {
    var available := AvailableByUdid(inventory);
    ClaimAllUnused(Without(available, PlanUsed(inventory, targets)), Partition(targets).profiles);
  }

  /**
   * An explicit simulator is planned exactly when the inventory has it available (an absent one is
   * skipped without error), and no profile ever claims an explicit simulator's udid.
   */
  lemma PlanExplicitSimulators(inventory: seq<SimctlDevice>, targets: seq<AppleTarget>)
    ensures forall u | Simulator(u) in targets ::
      u in Reconcile(inventory, targets).plan.existingSimulators <==> u in AvailableUdids(inventory)
    ensures forall u | Simulator(u) in targets :: u !in PlanClaims(inventory, targets).reused
  {
    PartitionMembers(targets);
    PlanExistingAvailable(inventory, targets);
    var available := AvailableByUdid(inventory);
    ClaimAllUnused(Without(available, PlanUsed(inventory, targets)), Partition(targets).profiles);
  }

  /**
   * Each configured profile either claims one distinct device or is asked for; those asked for keep their
   * configuration order and match no device left unused.
   */
  lemma PlanProfiles(inventory: seq<SimctlDevice>, targets: seq<AppleTarget>)
    ensures |PlanClaims(inventory, targets).reused| + |Reconcile(inventory, targets).plan.needsProvisioning|
      == |Partition(targets).profiles|
    ensures IsSubsequence(Reconcile(inventory, targets).plan.needsProvisioning, Partition(targets).profiles)
    ensures forall p | p in Reconcile(inventory, targets).plan.needsProvisioning :: Profile(p) in targets
    ensures forall p, d | p in Reconcile(inventory, targets).plan.needsProvisioning && d in Reconcile(inventory, targets).unused ::
      !MatchesProfile(p)(d)
  {
    var unused := Without(AvailableByUdid(inventory), PlanUsed(inventory, targets));
    var profiles := Partition(targets).profiles;
    ClaimAllCounts(unused, profiles);
    ClaimAllCreateUnmatched(unused, profiles);
    PartitionMembers(targets);
    forall p | p in Reconcile(inventory, targets).plan.needsProvisioning
      ensures Profile(p) in targets
    {
      SubsequenceMembers(ClaimAll(unused, profiles).create, profiles);
    }
  }

  /** The physical devices are the Physical targets, whatever the inventory says. */
  lemma PlanPhysical(inventory: seq<SimctlDevice>, other: seq<SimctlDevice>, targets: seq<AppleTarget>)
    ensures forall u :: u in Reconcile(inventory, targets).plan.physicalUdids <==> Physical(u) in targets
    ensures Reconcile(inventory, targets).plan.physicalUdids == Reconcile(other, targets).plan.physicalUdids
  {
    PartitionMembers(targets);
  }

  /** A Host target changes nothing in the plan. */
  lemma PlanSkipsHost(inventory: seq<SimctlDevice>, a: seq<AppleTarget>, b: seq<AppleTarget>)
    ensures Reconcile(inventory, a + [Host] + b) == Reconcile(inventory, a + b)
  {
    PartitionSkipsHost(a, b);
  }

  /** With `shutdownUnused`, exactly the Booted available devices the plan does not use are shut down. */
  lemma PlanShutdowns(inventory: seq<SimctlDevice>, targets: seq<AppleTarget>)
    ensures forall u :: u in Shutdowns(Reconcile(inventory, targets), true) <==>
      exists d | d in AvailableByUdid(inventory) :: d.udid == u && IsBooted(d) &&
        u !in Reconcile(inventory, targets).plan.existingSimulators
    ensures Shutdowns(Reconcile(inventory, targets), false) == []
  {
    var available := AvailableByUdid(inventory);
    ClaimAllUnused(Without(available, PlanUsed(inventory, targets)), Partition(targets).profiles);
  }

  /** The `forEach` over the targets that sorts them by kind. */
  method PartitionTargets(targets: seq<AppleTarget>)
    returns (simulators: seq<string>, simulatorProfiles: seq<SimulatorProfile>, physical: seq<string>)
    ensures TargetsByKind(simulators, simulatorProfiles, physical) == Partition(targets)
  {
    simulators, simulatorProfiles, physical := [], [], [];
    for i := 0 to |targets|
      invariant TargetsByKind(simulators, simulatorProfiles, physical) == Partition(targets[..i])
    {
      assert targets[..i + 1][..i] == targets[..i];
      match targets[i]
      case Simulator(udid) => simulators := simulators + [udid];
      case Physical(udid) => physical := physical + [udid];
      case Profile(profile) => simulatorProfiles := simulatorProfiles + [profile];
      case Host =>
    }
    assert targets[..|targets|] == targets;
  }

  /** The `forEach` over the explicit simulators that collects those the inventory has available. */
  method CollectUsed(simulatorDevices: seq<SimctlDevice>, simulators: seq<string>) returns (usedUdids: set<string>)
    ensures usedUdids == UsedUdids(simulatorDevices, simulators)
  {
    var availableUdids := UdidsOf(simulatorDevices);
    usedUdids := {};
    for i := 0 to |simulators|
      invariant usedUdids == UsedUdids(simulatorDevices, simulators[..i])
    {
      assert simulators[..i + 1] == simulators[..i] + [simulators[i]];
      if simulators[i] in availableUdids {
        usedUdids := usedUdids + {simulators[i]};
      }
    }
    assert simulators[..|simulators|] == simulators;
  }

  /** The `forEach` over the profiles that claims unused devices or asks for new ones. */
  method ClaimProfiles(unused: seq<SimctlDevice>, simulatorProfiles: seq<SimulatorProfile>)
    returns (reuseUdid: set<string>, createProfiles: seq<SimulatorProfile>, unusedDevices: seq<SimctlDevice>)
    ensures Claims(reuseUdid, createProfiles, unusedDevices) == ClaimAll(unused, simulatorProfiles)
  {
    reuseUdid, createProfiles, unusedDevices := {}, [], unused;
    for i := 0 to |simulatorProfiles|
      invariant Claims(reuseUdid, createProfiles, unusedDevices) == ClaimAll(unused, simulatorProfiles[..i])
    {
      assert simulatorProfiles[..i + 1][..i] == simulatorProfiles[..i];
      var profile := simulatorProfiles[i];
      match ReuseExistingSimulator(Without(unusedDevices, reuseUdid), profile)
      case Some(udid) =>
        reuseUdid := reuseUdid + {udid};
        unusedDevices := Without(unusedDevices, {udid});
      case None =>
        createProfiles := createProfiles + [profile];
    }
    assert simulatorProfiles[..|simulatorProfiles|] == simulatorProfiles;
  }

  /** The shutdown of the Booted devices among the unused ones; returns the udids shut down, in order. */
  method ShutdownBooted(unusedDevices: seq<SimctlDevice>) returns (shutdown: seq<string>)
    ensures shutdown == BootedUdids(unusedDevices)
  {
    var booted := Filter(unusedDevices, IsBooted);
    shutdown := [];
    for i := 0 to |booted|
      invariant |shutdown| == i && forall j :: 0 <= j < i ==> shutdown[j] == booted[j].udid
    {
      shutdown := shutdown + [booted[i].udid];
    }
  }

  /**
   * `plan`: sorts the targets, collects the explicit simulators, runs the profile loop, and shuts the
   * unused Booted devices down when `shutdownUnused` is set. The simctl inventory is a parameter, and the
   * shutdowns are returned, in order, as udids.
   */
  method Plan(inventory: seq<SimctlDevice>, targets: seq<AppleTarget>, shutdownUnused: bool)
    returns (plan: ProvisioningPlan, shutdown: seq<string>)
    ensures plan == Reconcile(inventory, targets).plan
    ensures shutdown == Shutdowns(Reconcile(inventory, targets), shutdownUnused)
  {
    var simulatorDevices := AvailableByUdid(inventory);
    var simulators, simulatorProfiles, physical := PartitionTargets(targets);
    var usedUdids := CollectUsed(simulatorDevices, simulators);
    var unusedDevices := Without(simulatorDevices, usedUdids);
    var reuseUdid, createProfiles, remaining := ClaimProfiles(unusedDevices, simulatorProfiles);
    var physicalUdids := set u | u in physical;
    shutdown := [];
    if shutdownUnused {
      shutdown := ShutdownBooted(remaining);
    }
    plan := ProvisioningPlan(usedUdids + reuseUdid, createProfiles, physicalUdids);
  }
}
