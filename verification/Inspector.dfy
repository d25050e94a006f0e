/** The safety inspector: what it reports when the storage is no longer what was planned for. */
module Inspector {
  import opened Core
  import opened Topology
  import opened Preparation

  ghost function Codes(bs: seq<SafetyBlocker>): set<SafetyBlocker> {
    set b | b in bs
  }

  ghost predicate Distinct(bs: seq<SafetyBlocker>) {
    forall i, j :: 0 <= i < j < |bs| ==> bs[i] != bs[j]
  }

  // ---- appending ----

  method AddBlocker(result: seq<SafetyBlocker>, b: SafetyBlocker) returns (r: seq<SafetyBlocker>)
    requires Distinct(result)
    ensures Codes(r) == Codes(result) + {b} && Distinct(r)
  {
    r := if b in result then result else result + [b];
  }

  method AddBlockers(result: seq<SafetyBlocker>, blockers: seq<SafetyBlocker>) returns (r: seq<SafetyBlocker>)
    requires Distinct(result)
    ensures Codes(r) == Codes(result) + Codes(blockers) && Distinct(r)
  {
    r := result;
    for i := 0 to |blockers|
      invariant Codes(r) == Codes(result) + Codes(blockers[..i]) && Distinct(r)
    {
      r := AddBlocker(r, blockers[i]);
      assert blockers[..i + 1] == blockers[..i] + [blockers[i]];
    }
    assert blockers[..|blockers|] == blockers;
  }

  ghost function Each(code: string, details: seq<string>): set<SafetyBlocker> {
    set d | d in details :: SafetyBlocker(code, d)
  }

  method AddEach(result: seq<SafetyBlocker>, code: string, details: seq<string>) returns (r: seq<SafetyBlocker>)
    requires Distinct(result)
    ensures Codes(r) == Codes(result) + Each(code, details) && Distinct(r)
  {
    r := result;
    for i := 0 to |details|
      invariant Codes(r) == Codes(result) + Each(code, details[..i]) && Distinct(r)
    {
      r := AddBlocker(r, SafetyBlocker(code, details[i]));
      assert details[..i + 1] == details[..i] + [details[i]];
    }
    assert details[..|details|] == details;
  }

  method AddIf(result: seq<SafetyBlocker>, c: bool, code: string, detail: string) returns (r: seq<SafetyBlocker>)
    requires Distinct(result)
    ensures Codes(r) == Codes(result) + If(c, code, detail) && Distinct(r)
  {
    r := result;
    if c { r := AddBlocker(result, SafetyBlocker(code, detail)); }
  }

  ghost function If(c: bool, code: string, detail: string): set<SafetyBlocker> {
    if c then {SafetyBlocker(code, detail)} else {}
  }

  // ---- one device, one partition ----

  /** The same device or partition still answers at the same place in the layout. */
  predicate SamePartition(e: ExistingPartition, c: ExistingPartition) {
    && e.identity == c.identity && e.partitionUuid == c.partitionUuid && e.partitionNumber == c.partitionNumber
    && e.startSector == c.startSector && e.sectorCount == c.sectorCount
  }

  ghost function DeviceBlockers(e: Device, c: Device, writable: bool): set<SafetyBlocker> {
    If(e.identity != c.identity, "block-device-identity-changed", e.identity.displayPath)
    + If(e.logicalSectorSize != c.logicalSectorSize || e.physicalSectorSize != c.physicalSectorSize, "sector-size-changed", e.identity.displayPath)
    + If(e.table != c.table, "partition-table-changed", e.identity.displayPath)
    + If(writable && c.readOnly, "read-only-device", c.identity.displayPath)
    + Codes(c.blockers)
  }

  ghost function PartitionBlockers(e: ExistingPartition, c: ExistingPartition): set<SafetyBlocker> {
    If(!SamePartition(e, c), "partition-identity-changed", e.identity.displayPath)
    + If(e.filesystem != c.filesystem, "partition-signature-changed", e.identity.displayPath)
    + Codes(c.blockers)
    + Each("mounted-filesystem", c.mountPoints)
    + If(c.activeSwap, "active-swap", c.identity.displayPath)
    + Each("block-holder", c.holders)
    + If(c.configuredBackupTarget, "configured-backup-target", c.identity.displayPath)
  }

  method InspectDevice(result: seq<SafetyBlocker>, e: Device, c: Device, writable: bool) returns (r: seq<SafetyBlocker>)
    requires Distinct(result)
    ensures Codes(r) == Codes(result) + DeviceBlockers(e, c, writable) && Distinct(r)
  {
    r := AddIf(result, e.identity != c.identity, "block-device-identity-changed", e.identity.displayPath);
    r := AddIf(r, e.logicalSectorSize != c.logicalSectorSize || e.physicalSectorSize != c.physicalSectorSize, "sector-size-changed", e.identity.displayPath);
    r := AddIf(r, e.table != c.table, "partition-table-changed", e.identity.displayPath);
    r := AddIf(r, writable && c.readOnly, "read-only-device", c.identity.displayPath);
    r := AddBlockers(r, c.blockers);
  }

  method InspectPartition(result: seq<SafetyBlocker>, e: ExistingPartition, c: ExistingPartition) returns (r: seq<SafetyBlocker>)
    requires Distinct(result)
    ensures Codes(r) == Codes(result) + PartitionBlockers(e, c) && Distinct(r)
  {
    r := AddIf(result, !SamePartition(e, c), "partition-identity-changed", e.identity.displayPath);
    r := AddIf(r, e.filesystem != c.filesystem, "partition-signature-changed", e.identity.displayPath);
    r := AddBlockers(r, c.blockers);
    r := AddEach(r, "mounted-filesystem", c.mountPoints);
    r := AddIf(r, c.activeSwap, "active-swap", c.identity.displayPath);
    r := AddEach(r, "block-holder", c.holders);
    r := AddIf(r, c.configuredBackupTarget, "configured-backup-target", c.identity.displayPath);
  }

  // ---- all partitions of a device ----

  function NumberIndex(regions: seq<Region>, number: nat): nat {
    FirstIndex(regions, (r: Region) => r.Existing? && r.partition.partitionNumber == number)
  }

  /** What a partition of the current device reports by itself. */
  ghost function OwnBlockers(r: Region): set<SafetyBlocker> {
    if r.Existing? then PartitionBlockers(r.partition, r.partition) else {}
  }

  /** What a planned partition reports against the current one with its number. */
  ghost function ChildBlockers(r: Region, current: seq<Region>): set<SafetyBlocker> {
    if r.Unallocated? then {}
    else
      var k := NumberIndex(current, r.partition.partitionNumber);
      if k == |current| then {SafetyBlocker("block-partition-missing", r.partition.identity.displayPath)}
      else PartitionBlockers(r.partition, current[k].partition)
  }

  ghost function AllOwn(regions: seq<Region>): set<SafetyBlocker> {
    if |regions| == 0 then {} else AllOwn(regions[..|regions| - 1]) + OwnBlockers(regions[|regions| - 1])
  }

  ghost function AllChildren(regions: seq<Region>, current: seq<Region>): set<SafetyBlocker> {
    if |regions| == 0 then {} else AllChildren(regions[..|regions| - 1], current) + ChildBlockers(regions[|regions| - 1], current)
  }

  method InspectOwn(result: seq<SafetyBlocker>, regions: seq<Region>) returns (r: seq<SafetyBlocker>)
    requires Distinct(result)
    ensures Codes(r) == Codes(result) + AllOwn(regions) && Distinct(r)
  {
    r := result;
    for i := 0 to |regions|
      invariant Codes(r) == Codes(result) + AllOwn(regions[..i]) && Distinct(r)
    {
      assert regions[..i + 1][..i] == regions[..i];
      if regions[i].Existing? {
        r := InspectPartition(r, regions[i].partition, regions[i].partition);
      }
    }
    assert regions[..|regions|] == regions;
  }

  method InspectChild(result: seq<SafetyBlocker>, child: ExistingPartition, current: seq<Region>) returns (r: seq<SafetyBlocker>)
    requires Distinct(result)
    ensures Codes(r) == Codes(result) + ChildBlockers(Existing(child), current) && Distinct(r)
  {
    var k := NumberIndex(current, child.partitionNumber);
    if k == |current| {
      r := AddBlocker(result, SafetyBlocker("block-partition-missing", child.identity.displayPath));
    } else {
      r := InspectPartition(result, child, current[k].partition);
    }
  }

  method InspectChildren(result: seq<SafetyBlocker>, regions: seq<Region>, current: seq<Region>) returns (r: seq<SafetyBlocker>)
    requires Distinct(result)
    ensures Codes(r) == Codes(result) + AllChildren(regions, current) && Distinct(r)
  {
    r := result;
    for i := 0 to |regions|
      invariant Codes(r) == Codes(result) + AllChildren(regions[..i], current) && Distinct(r)
    {
      assert regions[..i + 1][..i] == regions[..i];
      if regions[i].Existing? {
        r := InspectChild(r, regions[i].partition, current);
      }
    }
    assert regions[..|regions|] == regions;
  }

  // ---- the report ----

  function MajorIndex(devices: seq<Device>, majorMinor: string): nat {
    FirstIndex(devices, (d: Device) => d.identity.majorMinor == majorMinor)
  }

  function ExtentIndex(regions: seq<Region>, f: UnallocatedRegion): nat {
    FirstIndex(regions, (r: Region) => r.Unallocated? && r.free.startSector == f.startSector && r.free.sectorCount == f.sectorCount)
  }

  /** Everything on the device is in scope. */
  ghost function DeviceWide(expected: StorageTopology, current: StorageTopology, e: Device, c: Device): set<SafetyBlocker> {
    If(expected.generation != current.generation, "topology-generation-changed", "")
    + AllOwn(c.regions) + AllChildren(e.regions, c.regions)
  }

  ghost function FreeBlockers(e: Device, c: Device, id: string): set<SafetyBlocker>
    requires HasFree(e, id)
  {
    var k := ExtentIndex(c.regions, e.regions[FreeIndex(e.regions, id)].free);
    if k == |c.regions| then {SafetyBlocker("unallocated-region-changed", "")}
    else Codes(c.regions[k].free.blockers) + If(!c.regions[k].free.suitable, "unallocated-region-unsuitable", "")
  }

  ghost function ScopeBlockers(expected: StorageTopology, current: StorageTopology, e: Device, c: Device, p: Plan): set<SafetyBlocker> {
    match p.scope.kind
    case WholeDevice => DeviceWide(expected, current, e, c)
    case UnallocatedRegionScope =>
      if p.freeRegionId.None? || !HasFree(e, p.freeRegionId.value) then
        If(expected.generation != current.generation, "topology-generation-changed", "") + {SafetyBlocker("planned-free-region-missing", "")}
      else DeviceWide(expected, current, e, c) + FreeBlockers(e, c, p.freeRegionId.value)
    case _ =>
      if (p.scope.kind.NoScope? && !p.mode.AdoptExistingTarget?) || p.partitionId.None? then {SafetyBlocker("unsupported-destructive-scope", "")}
      else if !HasPartition(e, p.partitionId.value) then {SafetyBlocker("planned-partition-missing", "")}
      else ChildBlockers(e.regions[PartitionIndex(e.regions, p.partitionId.value)], c.regions)
  }

  /** All that is reported. */
  ghost function Report(expected: StorageTopology, current: StorageTopology, p: Plan): set<SafetyBlocker> {
    var e := DeviceIndex(expected.devices, p.deviceId);
    if e == |expected.devices| then {SafetyBlocker("planned-device-missing", "")}
    else
      var parent := expected.devices[e];
      var c := MajorIndex(current.devices, parent.identity.majorMinor);
      if c == |current.devices| then {SafetyBlocker("block-device-missing", parent.identity.displayPath)}
      else
        DeviceBlockers(parent, current.devices[c], !p.mode.AdoptExistingTarget?)
        + ScopeBlockers(expected, current, parent, current.devices[c], p)
  }

  method InspectRegions(result: seq<SafetyBlocker>, e: Device, c: Device) returns (r: seq<SafetyBlocker>)
    requires Distinct(result)
    ensures Codes(r) == Codes(result) + AllOwn(c.regions) + AllChildren(e.regions, c.regions) && Distinct(r)
  {
    r := InspectOwn(result, c.regions);
    r := InspectChildren(r, e.regions, c.regions);
  }

  method InspectFree(result: seq<SafetyBlocker>, e: Device, c: Device, id: string) returns (r: seq<SafetyBlocker>)
    requires Distinct(result) && HasFree(e, id)
    ensures Codes(r) == Codes(result) + FreeBlockers(e, c, id) && Distinct(r)
  {
    var k := ExtentIndex(c.regions, e.regions[FreeIndex(e.regions, id)].free);
    if k == |c.regions| {
      r := AddBlocker(result, SafetyBlocker("unallocated-region-changed", ""));
    } else {
      r := AddBlockers(result, c.regions[k].free.blockers);
      r := AddIf(r, !c.regions[k].free.suitable, "unallocated-region-unsuitable", "");
    }
  }

  method InspectFreeScope(result: seq<SafetyBlocker>, e: Device, c: Device, id: Option<string>) returns (r: seq<SafetyBlocker>)
    requires Distinct(result)
    ensures Distinct(r)
    ensures Codes(r) == Codes(result) + if id.None? || !HasFree(e, id.value) then {SafetyBlocker("planned-free-region-missing", "")}
                                        else FreeBlockers(e, c, id.value) + AllOwn(c.regions) + AllChildren(e.regions, c.regions)
  {
    if id.None? || !HasFree(e, id.value) {
      r := AddBlocker(result, SafetyBlocker("planned-free-region-missing", ""));
    } else {
      r := InspectFree(result, e, c, id.value);
      r := InspectRegions(r, e, c);
    }
  }

  method InspectScope(result: seq<SafetyBlocker>, expected: StorageTopology, current: StorageTopology, e: Device, c: Device, p: Plan)
    returns (r: seq<SafetyBlocker>)
    requires Distinct(result)
    ensures Codes(r) == Codes(result) + ScopeBlockers(expected, current, e, c, p) && Distinct(r)
  {
    match p.scope.kind
    case WholeDevice =>
      r := AddIf(result, expected.generation != current.generation, "topology-generation-changed", "");
      r := InspectRegions(r, e, c);
    case UnallocatedRegionScope =>
      r := AddIf(result, expected.generation != current.generation, "topology-generation-changed", "");
      r := InspectFreeScope(r, e, c, p.freeRegionId);
    case _ =>
      if (p.scope.kind.NoScope? && !p.mode.AdoptExistingTarget?) || p.partitionId.None? {
        r := AddBlocker(result, SafetyBlocker("unsupported-destructive-scope", ""));
      } else if !HasPartition(e, p.partitionId.value) {
        r := AddBlocker(result, SafetyBlocker("planned-partition-missing", ""));
      } else {
        r := InspectChild(result, e.regions[PartitionIndex(e.regions, p.partitionId.value)].partition, c.regions);
      }
  }

  method Inspect(expected: StorageTopology, current: StorageTopology, p: Plan) returns (r: seq<SafetyBlocker>)
    ensures Codes(r) == Report(expected, current, p) && Distinct(r)
  {
    r := [];
    var e := DeviceIndex(expected.devices, p.deviceId);
    if e == |expected.devices| {
      r := AddBlocker(r, SafetyBlocker("planned-device-missing", ""));
      return;
    }
    var parent := expected.devices[e];
    var c := MajorIndex(current.devices, parent.identity.majorMinor);
    if c == |current.devices| {
      r := AddBlocker(r, SafetyBlocker("block-device-missing", parent.identity.displayPath));
      return;
    }
    r := InspectDevice(r, parent, current.devices[c], !p.mode.AdoptExistingTarget?);
    r := InspectScope(r, expected, current, parent, current.devices[c], p);
  }
}
