/** What the inspector's report means. */
module InspectorProperties {
  import opened Topology
  import opened Preparation
  import opened Inspector
  import TargetMarker

  // ---- a clean report ----

  /** Nothing uses the partition and nothing speaks against it. */
  ghost predicate Idle(c: ExistingPartition) {
    c.blockers == [] && c.mountPoints == [] && !c.activeSwap && c.holders == [] && !c.configuredBackupTarget
  }

  ghost predicate SameIdentity(e: Identity, c: Identity) {
    && e.displayPath == c.displayPath && e.majorMinor == c.majorMinor && e.sysfsPath == c.sysfsPath && e.wwn == c.wwn
    && e.serial == c.serial && e.serialShort == c.serialShort && e.sizeBytes == c.sizeBytes
  }

  /** The partition still is what was planned for: the same block device, at the same place in the table, with the
      same file system on it. */
  ghost predicate Unchanged(e: ExistingPartition, c: ExistingPartition) {
    && SameIdentity(e.identity, c.identity) && e.partitionUuid == c.partitionUuid && e.partitionNumber == c.partitionNumber
    && e.startSector == c.startSector && e.sectorCount == c.sectorCount
    && e.filesystem.kind == c.filesystem.kind && e.filesystem.version == c.filesystem.version
    && e.filesystem.volumeLabel == c.filesystem.volumeLabel && e.filesystem.uuid == c.filesystem.uuid
  }

  /** The k-th region is the first partition with the number. */
  ghost predicate IsNumbered(regions: seq<Region>, number: nat, k: int) {
    && 0 <= k < |regions| && regions[k].Existing? && regions[k].partition.partitionNumber == number
    && forall j :: 0 <= j < k && regions[j].Existing? ==> regions[j].partition.partitionNumber != number
  }

  /** The k-th region is the first partition with the id. */
  ghost predicate IsPlannedPartition(regions: seq<Region>, id: string, k: int) {
    && 0 <= k < |regions| && regions[k].Existing? && regions[k].partition.candidateId == id
    && forall j :: 0 <= j < k && regions[j].Existing? ==> regions[j].partition.candidateId != id
  }

  /** The k-th region is the first free one with the id. */
  ghost predicate IsPlannedFree(regions: seq<Region>, id: string, k: int) {
    && 0 <= k < |regions| && regions[k].Unallocated? && regions[k].free.id == id
    && forall j :: 0 <= j < k && regions[j].Unallocated? ==> regions[j].free.id != id
  }

  predicate SameExtent(f: UnallocatedRegion, g: UnallocatedRegion) {
    f.startSector == g.startSector && f.sectorCount == g.sectorCount
  }

  /** The k-th region is the first free one with the extent. */
  ghost predicate HasExtent(regions: seq<Region>, f: UnallocatedRegion, k: int) {
    && 0 <= k < |regions| && regions[k].Unallocated? && SameExtent(regions[k].free, f)
    && forall j :: 0 <= j < k && regions[j].Unallocated? ==> !SameExtent(regions[j].free, f)
  }

  ghost predicate IsPlannedDevice(devices: seq<Device>, id: string, k: int) {
    && 0 <= k < |devices| && devices[k].candidateId == id
    && forall j :: 0 <= j < k ==> devices[j].candidateId != id
  }

  ghost predicate IsCurrentDevice(devices: seq<Device>, majorMinor: string, k: int) {
    && 0 <= k < |devices| && devices[k].identity.majorMinor == majorMinor
    && forall j :: 0 <= j < k ==> devices[j].identity.majorMinor != majorMinor
  }

  lemma EachIsEmpty(code: string, details: seq<string>)
    ensures Each(code, details) == {} <==> details == []
  {
    if details != [] { assert SafetyBlocker(code, details[0]) in Each(code, details); }
  }

  lemma CodesAreEmpty(bs: seq<SafetyBlocker>)
    ensures Codes(bs) == {} <==> bs == []
  {
    if bs != [] { assert bs[0] in Codes(bs); }
  }

  lemma IfIsEmpty(c: bool, code: string, detail: string)
    ensures If(c, code, detail) == {} <==> !c
  {
    if c { assert SafetyBlocker(code, detail) in If(c, code, detail); }
  }

  lemma SumIsEmpty<T>(a: set<T>, b: set<T>)
    ensures a + b == {} <==> a == {} && b == {}
  {
    assert a <= a + b && b <= a + b;
  }

  lemma PartitionIsClean(e: ExistingPartition, c: ExistingPartition)
    ensures PartitionBlockers(e, c) == {} <==> Unchanged(e, c) && Idle(c)
  {
    var identity := If(!SamePartition(e, c), "partition-identity-changed", e.identity.displayPath);
    var signature := If(e.filesystem != c.filesystem, "partition-signature-changed", e.identity.displayPath);
    var mounted, held := Each("mounted-filesystem", c.mountPoints), Each("block-holder", c.holders);
    var swap := If(c.activeSwap, "active-swap", c.identity.displayPath);
    var configured := If(c.configuredBackupTarget, "configured-backup-target", c.identity.displayPath);
    IfIsEmpty(!SamePartition(e, c), "partition-identity-changed", e.identity.displayPath);
    IfIsEmpty(e.filesystem != c.filesystem, "partition-signature-changed", e.identity.displayPath);
    CodesAreEmpty(c.blockers);
    EachIsEmpty("mounted-filesystem", c.mountPoints);
    IfIsEmpty(c.activeSwap, "active-swap", c.identity.displayPath);
    EachIsEmpty("block-holder", c.holders);
    IfIsEmpty(c.configuredBackupTarget, "configured-backup-target", c.identity.displayPath);
    SumOfSeven(identity, signature, Codes(c.blockers), mounted, swap, held, configured);
  }

  lemma SumOfSeven<T>(a: set<T>, b: set<T>, c: set<T>, d: set<T>, e: set<T>, f: set<T>, g: set<T>)
    ensures a + b + c + d + e + f + g == {} <==> a == {} && b == {} && c == {} && d == {} && e == {} && f == {} && g == {}
  {
    SumIsEmpty(a, b);
    SumIsEmpty(a + b, c);
    SumIsEmpty(a + b + c, d);
    SumIsEmpty(a + b + c + d, e);
    SumIsEmpty(a + b + c + d + e, f);
    SumIsEmpty(a + b + c + d + e + f, g);
  }

  ghost predicate AllIdle(regions: seq<Region>) {
    forall r :: r in regions && r.Existing? ==> Idle(r.partition)
  }

  lemma {:induction false} OwnAreClean(regions: seq<Region>)
    ensures AllOwn(regions) == {} <==> AllIdle(regions)
  {
    if |regions| > 0 {
      var front, last := regions[..|regions| - 1], regions[|regions| - 1];
      OwnAreClean(front);
      SumIsEmpty(AllOwn(front), OwnBlockers(last));
      if last.Existing? { PartitionIsClean(last.partition, last.partition); }
      assert regions == front + [last];
    }
  }

  /** The current device still has the partition, at its number, unchanged and idle. */
  ghost predicate StillThere(e: ExistingPartition, current: seq<Region>) {
    exists k :: IsNumbered(current, e.partitionNumber, k) && Unchanged(e, current[k].partition) && Idle(current[k].partition)
  }

  lemma ChildIsClean(r: Region, current: seq<Region>)
    ensures ChildBlockers(r, current) == {} <==> (r.Existing? ==> StillThere(r.partition, current))
  {
    if r.Existing? {
      var k := NumberIndex(current, r.partition.partitionNumber);
      if k < |current| {
        PartitionIsClean(r.partition, current[k].partition);
        assert IsNumbered(current, r.partition.partitionNumber, k);
      } else {
        assert SafetyBlocker("block-partition-missing", r.partition.identity.displayPath) in ChildBlockers(r, current);
      }
    }
  }

  ghost predicate AllStillThere(regions: seq<Region>, current: seq<Region>) {
    forall r :: r in regions && r.Existing? ==> StillThere(r.partition, current)
  }

  lemma {:induction false} ChildrenAreClean(regions: seq<Region>, current: seq<Region>)
    ensures AllChildren(regions, current) == {} <==> AllStillThere(regions, current)
  {
    if |regions| > 0 {
      var front, last := regions[..|regions| - 1], regions[|regions| - 1];
      ChildrenAreClean(front, current);
      SumIsEmpty(AllChildren(front, current), ChildBlockers(last, current));
      ChildIsClean(last, current);
      assert regions == front + [last];
    }
  }

  ghost predicate DeviceUnchanged(e: Device, c: Device, writable: bool) {
    && SameIdentity(e.identity, c.identity)
    && e.logicalSectorSize == c.logicalSectorSize && e.physicalSectorSize == c.physicalSectorSize
    && e.table.kind == c.table.kind && e.table.identifier == c.table.identifier && (writable ==> !c.readOnly) && c.blockers == []
  }

  lemma DeviceIsClean(e: Device, c: Device, writable: bool)
    ensures DeviceBlockers(e, c, writable) == {} <==> DeviceUnchanged(e, c, writable)
  {
    var sizes := e.logicalSectorSize != c.logicalSectorSize || e.physicalSectorSize != c.physicalSectorSize;
    IfIsEmpty(e.identity != c.identity, "block-device-identity-changed", e.identity.displayPath);
    IfIsEmpty(sizes, "sector-size-changed", e.identity.displayPath);
    IfIsEmpty(e.table != c.table, "partition-table-changed", e.identity.displayPath);
    IfIsEmpty(writable && c.readOnly, "read-only-device", c.identity.displayPath);
    CodesAreEmpty(c.blockers);
    SumOfSeven(
      If(e.identity != c.identity, "block-device-identity-changed", e.identity.displayPath),
      If(sizes, "sector-size-changed", e.identity.displayPath),
      If(e.table != c.table, "partition-table-changed", e.identity.displayPath),
      If(writable && c.readOnly, "read-only-device", c.identity.displayPath),
      Codes(c.blockers), {}, {});
  }

  /** The whole device is as it was planned for, and idle. */
  ghost predicate DeviceWideSafe(expected: StorageTopology, current: StorageTopology, e: Device, c: Device) {
    expected.generation == current.generation && AllIdle(c.regions) && AllStillThere(e.regions, c.regions)
  }

  lemma DeviceWideIsClean(expected: StorageTopology, current: StorageTopology, e: Device, c: Device)
    ensures DeviceWide(expected, current, e, c) == {} <==> DeviceWideSafe(expected, current, e, c)
  {
    var generation := If(expected.generation != current.generation, "topology-generation-changed", "");
    IfIsEmpty(expected.generation != current.generation, "topology-generation-changed", "");
    OwnAreClean(c.regions);
    ChildrenAreClean(e.regions, c.regions);
    SumIsEmpty(generation, AllOwn(c.regions));
    SumIsEmpty(generation + AllOwn(c.regions), AllChildren(e.regions, c.regions));
  }

  /** The free region still has its extent, is suitable and unblocked. */
  ghost predicate FreeSafe(e: Device, c: Device, id: string) {
    exists i, k ::
      && IsPlannedFree(e.regions, id, i) && HasExtent(c.regions, e.regions[i].free, k)
      && c.regions[k].free.blockers == [] && c.regions[k].free.suitable
  }

  lemma FreeIsClean(e: Device, c: Device, id: string)
    requires HasFree(e, id)
    ensures FreeBlockers(e, c, id) == {} <==> FreeSafe(e, c, id)
  {
    var i := FreeIndex(e.regions, id);
    var k := ExtentIndex(c.regions, e.regions[i].free);
    assert IsPlannedFree(e.regions, id, i);
    if k < |c.regions| {
      assert HasExtent(c.regions, e.regions[i].free, k);
      CodesAreEmpty(c.regions[k].free.blockers);
      IfIsEmpty(!c.regions[k].free.suitable, "unallocated-region-unsuitable", "");
      SumIsEmpty(Codes(c.regions[k].free.blockers), If(!c.regions[k].free.suitable, "unallocated-region-unsuitable", ""));
    } else {
      assert SafetyBlocker("unallocated-region-changed", "") in FreeBlockers(e, c, id);
    }
  }

  /** What the plan may touch is as planned. */
  ghost predicate ScopeSafe(expected: StorageTopology, current: StorageTopology, e: Device, c: Device, p: Plan) {
    match p.scope.kind
    case WholeDevice => DeviceWideSafe(expected, current, e, c)
    case UnallocatedRegionScope =>
      p.freeRegionId.Some? && DeviceWideSafe(expected, current, e, c) && FreeSafe(e, c, p.freeRegionId.value)
    case _ =>
      && (p.scope.kind.NoScope? ==> p.mode.AdoptExistingTarget?) && p.partitionId.Some?
      && exists i :: IsPlannedPartition(e.regions, p.partitionId.value, i) && StillThere(e.regions[i].partition, c.regions)
  }

  lemma FreeScopeIsClean(expected: StorageTopology, current: StorageTopology, e: Device, c: Device, p: Plan)
    requires p.scope.kind.UnallocatedRegionScope?
    ensures ScopeBlockers(expected, current, e, c, p) == {} <==> ScopeSafe(expected, current, e, c, p)
  {
    if p.freeRegionId.None? || !HasFree(e, p.freeRegionId.value) {
      assert SafetyBlocker("planned-free-region-missing", "") in ScopeBlockers(expected, current, e, c, p);
    } else {
      DeviceWideIsClean(expected, current, e, c);
      FreeIsClean(e, c, p.freeRegionId.value);
      SumIsEmpty(DeviceWide(expected, current, e, c), FreeBlockers(e, c, p.freeRegionId.value));
    }
  }

  lemma PartitionScopeIsClean(expected: StorageTopology, current: StorageTopology, e: Device, c: Device, p: Plan)
    requires p.scope.kind.ExistingPartitionScope? || p.scope.kind.NoScope?
    ensures ScopeBlockers(expected, current, e, c, p) == {} <==> ScopeSafe(expected, current, e, c, p)
  {
    if (p.scope.kind.NoScope? && !p.mode.AdoptExistingTarget?) || p.partitionId.None? {
      assert SafetyBlocker("unsupported-destructive-scope", "") in ScopeBlockers(expected, current, e, c, p);
    } else if !HasPartition(e, p.partitionId.value) {
      assert SafetyBlocker("planned-partition-missing", "") in ScopeBlockers(expected, current, e, c, p);
    } else {
      var i := PartitionIndex(e.regions, p.partitionId.value);
      PartitionIndexIsFirst(e.regions, p.partitionId.value);
      ChildIsClean(e.regions[i], c.regions);
    }
  }

  lemma PartitionIndexIsFirst(regions: seq<Region>, id: string)
    ensures forall k :: IsPlannedPartition(regions, id, k) <==> k == PartitionIndex(regions, id) < |regions|
  {
    var i := PartitionIndex(regions, id);
    assert i < |regions| ==> IsPartition(regions[i], id);
    forall k | 0 <= k < |regions| ensures IsPartition(regions[k], id) <==> regions[k].Existing? && regions[k].partition.candidateId == id {}
  }

  lemma ScopeIsClean(expected: StorageTopology, current: StorageTopology, e: Device, c: Device, p: Plan)
    ensures ScopeBlockers(expected, current, e, c, p) == {} <==> ScopeSafe(expected, current, e, c, p)
  {
    match p.scope.kind
    case WholeDevice => DeviceWideIsClean(expected, current, e, c);
    case UnallocatedRegionScope => FreeScopeIsClean(expected, current, e, c, p);
    case _ => PartitionScopeIsClean(expected, current, e, c, p);
  }

  /** The planned device is still there, and what the plan may touch on it is as planned. */
  ghost predicate SafeOn(expected: StorageTopology, current: StorageTopology, e: Device, c: Device, p: Plan) {
    DeviceUnchanged(e, c, !p.mode.AdoptExistingTarget?) && ScopeSafe(expected, current, e, c, p)
  }

  /** The storage is still what the plan was made for, as far as the plan may touch it. */
  ghost predicate Safe(expected: StorageTopology, current: StorageTopology, p: Plan) {
    exists e, c ::
      && IsPlannedDevice(expected.devices, p.deviceId, e)
      && IsCurrentDevice(current.devices, expected.devices[e].identity.majorMinor, c)
      && SafeOn(expected, current, expected.devices[e], current.devices[c], p)
  }

  lemma ReportOnDevice(expected: StorageTopology, current: StorageTopology, p: Plan, e: nat, c: nat)
    requires e == DeviceIndex(expected.devices, p.deviceId) < |expected.devices|
    requires c == MajorIndex(current.devices, expected.devices[e].identity.majorMinor) < |current.devices|
    ensures Report(expected, current, p) == {} <==> SafeOn(expected, current, expected.devices[e], current.devices[c], p)
  {
    var parent, now := expected.devices[e], current.devices[c];
    DeviceIsClean(parent, now, !p.mode.AdoptExistingTarget?);
    ScopeIsClean(expected, current, parent, now, p);
    SumIsEmpty(DeviceBlockers(parent, now, !p.mode.AdoptExistingTarget?), ScopeBlockers(expected, current, parent, now, p));
  }

  lemma PlannedIndexIsFirst(devices: seq<Device>, id: string, k: int)
    ensures IsPlannedDevice(devices, id, k) <==> k == DeviceIndex(devices, id) < |devices|
  {}

  lemma CurrentIndexIsFirst(devices: seq<Device>, majorMinor: string, k: int)
    ensures IsCurrentDevice(devices, majorMinor, k) <==> k == MajorIndex(devices, majorMinor) < |devices|
  {}

  lemma SafeIsNotReported(expected: StorageTopology, current: StorageTopology, p: Plan)
    requires Safe(expected, current, p)
    ensures Report(expected, current, p) == {}
  {
    var e, c :|
      && IsPlannedDevice(expected.devices, p.deviceId, e)
      && IsCurrentDevice(current.devices, expected.devices[e].identity.majorMinor, c)
      && SafeOn(expected, current, expected.devices[e], current.devices[c], p);
    PlannedIndexIsFirst(expected.devices, p.deviceId, e);
    CurrentIndexIsFirst(current.devices, expected.devices[e].identity.majorMinor, c);
    ReportOnDevice(expected, current, p, e, c);
  }

  lemma NotReportedIsSafe(expected: StorageTopology, current: StorageTopology, p: Plan)
    ensures Report(expected, current, p) == {} ==> Safe(expected, current, p)
  {
    var e := DeviceIndex(expected.devices, p.deviceId);
    if e == |expected.devices| {
      assert SafetyBlocker("planned-device-missing", "") in Report(expected, current, p);
    } else {
      PlannedIndexIsFirst(expected.devices, p.deviceId, e);
      var parent := expected.devices[e];
      var c := MajorIndex(current.devices, parent.identity.majorMinor);
      if c == |current.devices| {
        assert SafetyBlocker("block-device-missing", parent.identity.displayPath) in Report(expected, current, p);
      } else {
        CurrentIndexIsFirst(current.devices, parent.identity.majorMinor, c);
        ReportOnDevice(expected, current, p, e, c);
      }
    }
  }

  /** Nothing is reported exactly when the storage is still what the plan was made for. */
  lemma NothingReportedIffSafe(expected: StorageTopology, current: StorageTopology, p: Plan)
    ensures Report(expected, current, p) == {} <==> Safe(expected, current, p)
  {
    if Safe(expected, current, p) { SafeIsNotReported(expected, current, p); }
    NotReportedIsSafe(expected, current, p);
  }

  // ---- nothing is reported of storage at rest ----

  /** Devices and partitions can be told apart by what the inspector finds them by. */
  ghost predicate ToldApart(t: StorageTopology) {
    && (forall i, j :: 0 <= i < j < |t.devices| ==>
          t.devices[i].candidateId != t.devices[j].candidateId && t.devices[i].identity.majorMinor != t.devices[j].identity.majorMinor)
    && forall d :: d in t.devices ==> RegionsToldApart(d.regions)
  }

  ghost predicate RegionsToldApart(regions: seq<Region>) {
    forall i, j :: 0 <= i < j < |regions| ==>
      && (regions[i].Existing? && regions[j].Existing? ==> regions[i].partition.partitionNumber != regions[j].partition.partitionNumber)
      && (regions[i].Unallocated? && regions[j].Unallocated? ==> !SameExtent(regions[i].free, regions[j].free))
  }

  /** Nothing uses the device, and nothing speaks against it. */
  ghost predicate AtRest(d: Device, writable: bool) {
    d.blockers == [] && (writable ==> !d.readOnly) && AllIdle(d.regions)
  }

  lemma AllAreStillThere(regions: seq<Region>)
    requires AllIdle(regions) && RegionsToldApart(regions)
    ensures AllStillThere(regions, regions)
  {
    forall r | r in regions && r.Existing? ensures StillThere(r.partition, regions) {
      var k :| 0 <= k < |regions| && regions[k] == r;
      assert IsNumbered(regions, r.partition.partitionNumber, k);
    }
  }

  lemma RestingScopeIsSafe(t: StorageTopology, d: Device, q: Request, p: Plan)
    requires RegionsToldApart(d.regions) && AllIdle(d.regions)
    requires IsAimedAt(t, d, q, p) && Selects(d, q) && Allows(d, q)
    ensures ScopeSafe(t, t, d, d, p)
  {
    AllAreStillThere(d.regions);
    match q.mode
    case EraseWholeDevice =>
    case CreatePartitionInUnallocatedSpace =>
      var i := FreeIndex(d.regions, q.selected);
      assert IsPlannedFree(d.regions, q.selected, i) && HasExtent(d.regions, d.regions[i].free, i);
    case _ =>
      PartitionIndexIsFirst(d.regions, q.selected);
      var i := PartitionIndex(d.regions, q.selected);
      assert d.regions[i] in d.regions;
  }

  /** A plan that was just built is not objected to while the storage is at rest. */
  lemma RestingStorageIsSafe(t: StorageTopology, k: nat, q: Request, p: Plan)
    requires ToldApart(t) && k < |t.devices| && IsAimedAt(t, t.devices[k], q, p) && Selects(t.devices[k], q) && Allows(t.devices[k], q)
    requires AtRest(t.devices[k], !q.mode.AdoptExistingTarget?)
    ensures Report(t, t, p) == {}
  {
    var d := t.devices[k];
    RestingScopeIsSafe(t, d, q, p);
    assert SafeOn(t, t, d, d, p);
    IsFoundAgain(t, k);
    SafeIsNotReported(t, t, p);
  }

  lemma IsFoundAgain(t: StorageTopology, k: nat)
    requires ToldApart(t) && k < |t.devices|
    ensures IsPlannedDevice(t.devices, t.devices[k].candidateId, k)
    ensures IsCurrentDevice(t.devices, t.devices[k].identity.majorMinor, k)
  {}

  // ---- built plans ----

  /** The codes for a plan that does not fit the topology it was made from. */
  predicate IsPlanningCode(code: string) {
    || code == "planned-device-missing" || code == "planned-free-region-missing" || code == "planned-partition-missing"
    || code == "unsupported-destructive-scope"
  }

  function Carries(r: Region): seq<SafetyBlocker> {
    if r.Existing? then r.partition.blockers else r.free.blockers
  }

  /** The current topology itself brought the blocker along. */
  ghost predicate IsCarried(d: Device, b: SafetyBlocker) {
    b in d.blockers || exists r :: r in d.regions && b in Carries(r)
  }

  /** Planning codes start in a way no other code does. */
  predicate StartsLikePlanning(code: string) {
    |code| >= 3 && ((code[0] == 'p' && code[1] == 'l') || (code[0] == 'u' && code[1] == 'n' && code[2] == 's'))
  }

  lemma PlanningCodesStart(code: string)
    requires IsPlanningCode(code)
    ensures StartsLikePlanning(code)
  {}

  lemma PartitionCarries(e: ExistingPartition, c: ExistingPartition, b: SafetyBlocker)
    requires b in PartitionBlockers(e, c) && StartsLikePlanning(b.code)
    ensures b in c.blockers
  {}

  lemma DeviceCarries(e: Device, c: Device, writable: bool, b: SafetyBlocker)
    requires b in DeviceBlockers(e, c, writable) && StartsLikePlanning(b.code)
    ensures b in c.blockers
  {}

  lemma ChildCarries(r: Region, c: Device, b: SafetyBlocker)
    requires b in ChildBlockers(r, c.regions) && StartsLikePlanning(b.code)
    ensures IsCarried(c, b)
  {
    var k := NumberIndex(c.regions, r.partition.partitionNumber);
    if k < |c.regions| {
      PartitionCarries(r.partition, c.regions[k].partition, b);
      assert c.regions[k] in c.regions && b in Carries(c.regions[k]);
    }
  }

  lemma {:induction false} OwnCarry(regions: seq<Region>, c: Device, b: SafetyBlocker)
    requires b in AllOwn(regions) && StartsLikePlanning(b.code) && forall r :: r in regions ==> r in c.regions
    ensures IsCarried(c, b)
  {
    var front, last := regions[..|regions| - 1], regions[|regions| - 1];
    if b in AllOwn(front) {
      OwnCarry(front, c, b);
    } else {
      PartitionCarries(last.partition, last.partition, b);
      assert last in c.regions && b in Carries(last);
    }
  }

  lemma {:induction false} ChildrenCarry(regions: seq<Region>, c: Device, b: SafetyBlocker)
    requires b in AllChildren(regions, c.regions) && StartsLikePlanning(b.code)
    ensures IsCarried(c, b)
  {
    var front, last := regions[..|regions| - 1], regions[|regions| - 1];
    if b in AllChildren(front, c.regions) {
      ChildrenCarry(front, c, b);
    } else {
      ChildCarries(last, c, b);
    }
  }

  lemma DeviceWideCarries(expected: StorageTopology, current: StorageTopology, e: Device, c: Device, b: SafetyBlocker)
    requires b in DeviceWide(expected, current, e, c) && StartsLikePlanning(b.code)
    ensures IsCarried(c, b)
  {
    if b in AllOwn(c.regions) {
      OwnCarry(c.regions, c, b);
    } else if b in AllChildren(e.regions, c.regions) {
      ChildrenCarry(e.regions, c, b);
    }
  }

  lemma FreeCarries(e: Device, c: Device, id: string, b: SafetyBlocker)
    requires HasFree(e, id) && b in FreeBlockers(e, c, id) && StartsLikePlanning(b.code)
    ensures IsCarried(c, b)
  {
    var k := ExtentIndex(c.regions, e.regions[FreeIndex(e.regions, id)].free);
    if k < |c.regions| {
      assert c.regions[k] in c.regions && b in Carries(c.regions[k]);
    }
  }

  ghost predicate DistinctDevices(t: StorageTopology) {
    forall i, j :: 0 <= i < j < |t.devices| ==> t.devices[i].candidateId != t.devices[j].candidateId
  }

  lemma AimedPlanIsSupported(t: StorageTopology, k: nat, q: Request, p: Plan)
    requires DistinctDevices(t) && k < |t.devices| && IsAimedAt(t, t.devices[k], q, p)
    ensures DeviceIndex(t.devices, p.deviceId) == k
    ensures p.scope.kind.UnallocatedRegionScope? ==> p.freeRegionId.Some? && HasFree(t.devices[k], p.freeRegionId.value)
    ensures p.scope.kind.ExistingPartitionScope? || p.scope.kind.NoScope? ==>
      p.partitionId.Some? && HasPartition(t.devices[k], p.partitionId.value) && (p.scope.kind.NoScope? ==> p.mode.AdoptExistingTarget?)
  {
    var d := t.devices[k];
    if q.mode.CreatePartitionInUnallocatedSpace? {
      var r :| r in d.regions && IsFree(r, q.selected);
    } else if !q.mode.EraseWholeDevice? {
      var r :| r in d.regions && IsPartition(r, q.selected);
    }
  }

  lemma ScopeCarries(t: StorageTopology, current: StorageTopology, k: nat, q: Request, p: Plan, c: Device, b: SafetyBlocker)
    requires DistinctDevices(t) && k < |t.devices| && IsAimedAt(t, t.devices[k], q, p)
    requires b in ScopeBlockers(t, current, t.devices[k], c, p) && StartsLikePlanning(b.code)
    ensures IsCarried(c, b)
  {
    AimedPlanIsSupported(t, k, q, p);
    var e := t.devices[k];
    match p.scope.kind
    case WholeDevice =>
      DeviceWideCarries(t, current, e, c, b);
    case UnallocatedRegionScope =>
      if b in DeviceWide(t, current, e, c) { DeviceWideCarries(t, current, e, c, b); } else { FreeCarries(e, c, p.freeRegionId.value, b); }
    case _ =>
      ChildCarries(e.regions[PartitionIndex(e.regions, p.partitionId.value)], c, b);
  }

  /** A plan built from a topology with distinct device ids always fits it: such a code can only be carried along. */
  lemma BuiltPlanFitsItsTopology(t: StorageTopology, current: StorageTopology, k: nat, q: Request, p: Plan, b: SafetyBlocker)
    requires DistinctDevices(t) && k < |t.devices| && IsAimedAt(t, t.devices[k], q, p)
    requires b in Report(t, current, p) && IsPlanningCode(b.code)
    ensures exists c :: c in current.devices && IsCarried(c, b)
  {
    PlanningCodesStart(b.code);
    AimedPlanIsSupported(t, k, q, p);
    var c := MajorIndex(current.devices, t.devices[k].identity.majorMinor);
    if c < |current.devices| {
      var now := current.devices[c];
      if b in DeviceBlockers(t.devices[k], now, !p.mode.AdoptExistingTarget?) {
        DeviceCarries(t.devices[k], now, !p.mode.AdoptExistingTarget?, b);
        assert IsCarried(now, b);
      } else {
        ScopeCarries(t, current, k, q, p, now, b);
      }
      assert now in current.devices;
    }
  }

  // ---- configured targets ----

  /** The plan looks at the k-th region of the current device. */
  ghost predicate LooksAt(e: Device, c: Device, p: Plan, k: nat) {
    && k < |c.regions| && c.regions[k].Existing?
    && match p.scope.kind
       case WholeDevice => true
       case UnallocatedRegionScope => p.freeRegionId.Some? && HasFree(e, p.freeRegionId.value)
       case _ =>
         && (p.scope.kind.NoScope? ==> p.mode.AdoptExistingTarget?) && p.partitionId.Some? && HasPartition(e, p.partitionId.value)
         && k == NumberIndex(c.regions, e.regions[PartitionIndex(e.regions, p.partitionId.value)].partition.partitionNumber)
  }

  lemma {:induction false} OwnIncludes(regions: seq<Region>, k: nat)
    requires k < |regions|
    ensures OwnBlockers(regions[k]) <= AllOwn(regions)
  {
    if k < |regions| - 1 { OwnIncludes(regions[..|regions| - 1], k); }
  }

  /** After marking, a configured target that the plan looks at is reported. */
  lemma ConfiguredTargetBlocks(targets: seq<TargetMarker.TargetIdentity>, read: StorageTopology, current: StorageTopology,
                               expected: StorageTopology, p: Plan, e: nat, c: nat, k: nat)
    requires TargetMarker.IsApplied(read, current, targets)
    requires e == DeviceIndex(expected.devices, p.deviceId) < |expected.devices|
    requires c == MajorIndex(current.devices, expected.devices[e].identity.majorMinor) < |current.devices|
    requires LooksAt(expected.devices[e], current.devices[c], p, k)
    requires TargetMarker.IsTarget(current.devices[c].regions[k].partition, targets)
    ensures TargetMarker.ConfiguredBlocker(current.devices[c].regions[k].partition) in Report(expected, current, p)
  {
    TargetMarker.MarkedTargetsAreFlagged(read, current, targets, c, k);
    FlaggedIsReported(expected, current, expected.devices[e], current.devices[c], p, k);
  }

  lemma FlaggedIsReported(expected: StorageTopology, current: StorageTopology, e: Device, c: Device, p: Plan, k: nat)
    requires LooksAt(e, c, p, k) && TargetMarker.ConfiguredBlocker(c.regions[k].partition) in c.regions[k].partition.blockers
    ensures TargetMarker.ConfiguredBlocker(c.regions[k].partition) in ScopeBlockers(expected, current, e, c, p)
  {
    OwnIncludes(c.regions, k);
    assert Codes(c.regions[k].partition.blockers) <= OwnBlockers(c.regions[k]);
    assert AllOwn(c.regions) <= DeviceWide(expected, current, e, c);
  }
}
