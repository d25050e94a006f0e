/** Block devices, their partitions and the space between them, as they were read. */
module Topology {
  import opened Core

  datatype SafetyBlocker = SafetyBlocker(code: string, detail: string)

  datatype Identity = Identity(
    displayPath: string,
    majorMinor: string,
    sysfsPath: string,
    wwn: string,
    serial: string,
    serialShort: string,
    sizeBytes: UInt64)

  datatype TableType = NoTable | Gpt | Mbr | Unsupported

  datatype PartitionTable = PartitionTable(kind: TableType, identifier: string)

  datatype Filesystem = Filesystem(kind: string, version: string, volumeLabel: string, uuid: string)

  datatype ExistingPartition = ExistingPartition(
    candidateId: string,
    identity: Identity,
    partitionUuid: Option<string>,
    partitionLabel: Option<string>,
    partitionNumber: nat,
    startSector: UInt64,
    sectorCount: UInt64,
    filesystem: Filesystem,
    mountPoints: seq<string>,
    holders: seq<string>,
    activeSwap: bool,
    blockers: seq<SafetyBlocker>,
    configuredBackupTarget: bool,
    suitableForReformat: bool,
    suitableForAdoption: bool)

  datatype UnallocatedRegion = UnallocatedRegion(
    id: string,
    startSector: UInt64,
    sectorCount: UInt64,
    blockers: seq<SafetyBlocker>,
    suitable: bool)

  datatype Region = Existing(partition: ExistingPartition) | Unallocated(free: UnallocatedRegion)

  datatype Device = Device(
    candidateId: string,
    identity: Identity,
    sizeBytes: UInt64,
    logicalSectorSize: UInt64,
    physicalSectorSize: UInt64,
    readOnly: bool,
    table: PartitionTable,
    regions: seq<Region>,
    blockers: seq<SafetyBlocker>)

  datatype StorageTopology = StorageTopology(generation: string, devices: seq<Device>)

  /** The first position that satisfies the predicate, or the length when there is none. */
  function FirstIndex<T>(xs: seq<T>, p: T -> bool): (k: nat)
    ensures k <= |xs| && (k < |xs| ==> p(xs[k])) && forall j :: 0 <= j < k ==> !p(xs[j])
  {
    if |xs| == 0 then 0
    else
      var k := FirstIndex(xs[..|xs| - 1], p);
      if k < |xs| - 1 || p(xs[|xs| - 1]) then k else |xs|
  }

  predicate IsPartition(r: Region, id: string) {
    r.Existing? && r.partition.candidateId == id
  }

  predicate IsFree(r: Region, id: string) {
    r.Unallocated? && r.free.id == id
  }

  function DeviceIndex(devices: seq<Device>, id: string): nat {
    FirstIndex(devices, (d: Device) => d.candidateId == id)
  }

  function PartitionIndex(regions: seq<Region>, id: string): nat {
    FirstIndex(regions, (r: Region) => IsPartition(r, id))
  }

  function FreeIndex(regions: seq<Region>, id: string): nat {
    FirstIndex(regions, (r: Region) => IsFree(r, id))
  }

  function RegionId(r: Region): string {
    if r.Existing? then r.partition.candidateId else r.free.id
  }
}
