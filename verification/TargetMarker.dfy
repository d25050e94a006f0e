/** Marks the partitions that configured profiles already use as their backup target. */
module TargetMarker {
  import opened Core
  import opened Topology

  datatype TargetIdentity = TargetIdentity(partitionUuid: string, luksUuid: string)

  predicate Matches(p: ExistingPartition, t: TargetIdentity) {
    || (t.partitionUuid != "" && p.partitionUuid == Some(t.partitionUuid))
    || (t.luksUuid != "" && p.filesystem.kind == "crypto_LUKS" && p.filesystem.uuid == t.luksUuid)
  }

  /** A configured profile names the partition by its own UUID, or by the UUID of the LUKS container on it. An empty
      UUID names nothing. */
  ghost predicate IsTarget(p: ExistingPartition, targets: seq<TargetIdentity>) {
    exists t :: t in targets && IsNamed(p, t)
  }

  ghost predicate IsNamed(p: ExistingPartition, t: TargetIdentity) {
    || (p.partitionUuid.Some? && p.partitionUuid.value == t.partitionUuid && |t.partitionUuid| > 0)
    || (p.filesystem.kind == "crypto_LUKS" && p.filesystem.uuid == t.luksUuid && |t.luksUuid| > 0)
  }

  lemma MatchesIffTarget(p: ExistingPartition, targets: seq<TargetIdentity>)
    ensures MatchesAny(p, targets) <==> IsTarget(p, targets)
  {
    forall t ensures Matches(p, t) <==> IsNamed(p, t) {}
  }

  predicate MatchesAny(p: ExistingPartition, targets: seq<TargetIdentity>) {
    exists t :: t in targets && Matches(p, t)
  }

  function ConfiguredBlocker(p: ExistingPartition): SafetyBlocker {
    SafetyBlocker("configured-backup-target", p.identity.displayPath)
  }

  /** The partition is flagged and unsuitable, carries the blocker, and is otherwise as it was. */
  ghost predicate IsMarked(p: ExistingPartition, m: ExistingPartition) {
    && m == p.(blockers := m.blockers, configuredBackupTarget := true, suitableForReformat := false, suitableForAdoption := false)
    && SafetyBlocker("configured-backup-target", p.identity.displayPath) in m.blockers && p.blockers <= m.blockers
  }

  method AddConfiguredTargetBlocker(p: ExistingPartition) returns (m: ExistingPartition)
    ensures IsMarked(p, m)
  {
    m := p;
    if ConfiguredBlocker(p) !in p.blockers {
      m := m.(blockers := m.blockers + [ConfiguredBlocker(p)]);
    }
    m := m.(configuredBackupTarget := true);
    m := m.(suitableForReformat := false);
    m := m.(suitableForAdoption := false);
  }

  /** Configured targets are marked, and everything else is left alone. */
  ghost predicate RegionIsApplied(r: Region, m: Region, targets: seq<TargetIdentity>) {
    if r.Existing? && IsTarget(r.partition, targets) then m.Existing? && IsMarked(r.partition, m.partition) else m == r
  }

  ghost predicate DeviceIsApplied(d: Device, m: Device, targets: seq<TargetIdentity>) {
    && m == d.(regions := m.regions) && |m.regions| == |d.regions|
    && forall i :: 0 <= i < |d.regions| ==> RegionIsApplied(d.regions[i], m.regions[i], targets)
  }

  ghost predicate IsApplied(t: StorageTopology, m: StorageTopology, targets: seq<TargetIdentity>) {
    && m.generation == t.generation && |m.devices| == |t.devices|
    && forall i :: 0 <= i < |t.devices| ==> DeviceIsApplied(t.devices[i], m.devices[i], targets)
  }

  method ApplyToDevice(d: Device, targets: seq<TargetIdentity>) returns (m: Device)
    ensures DeviceIsApplied(d, m, targets)
  {
    m := d;
    for i := 0 to |d.regions|
      invariant m == d.(regions := m.regions) && |m.regions| == |d.regions|
      invariant forall j :: i <= j < |d.regions| ==> m.regions[j] == d.regions[j]
      invariant forall j :: 0 <= j < i ==> RegionIsApplied(d.regions[j], m.regions[j], targets)
    {
      if m.regions[i].Existing? { MatchesIffTarget(m.regions[i].partition, targets); }
      if m.regions[i].Existing? && MatchesAny(m.regions[i].partition, targets) {
        var marked := AddConfiguredTargetBlocker(m.regions[i].partition);
        m := m.(regions := m.regions[i := Existing(marked)]);
      }
    }
  }

  method Apply(t: StorageTopology, targets: seq<TargetIdentity>) returns (m: StorageTopology)
    ensures IsApplied(t, m, targets)
  {
    m := t;
    for i := 0 to |t.devices|
      invariant m.generation == t.generation && |m.devices| == |t.devices|
      invariant forall j :: i <= j < |t.devices| ==> m.devices[j] == t.devices[j]
      invariant forall j :: 0 <= j < i ==> DeviceIsApplied(t.devices[j], m.devices[j], targets)
    {
      var device := ApplyToDevice(m.devices[i], targets);
      m := m.(devices := m.devices[i := device]);
    }
  }

  /** After marking, a partition is flagged whenever it is a configured target: marking does not hide one. */
  lemma MarkedTargetsAreFlagged(t: StorageTopology, m: StorageTopology, targets: seq<TargetIdentity>, d: nat, k: nat)
    requires IsApplied(t, m, targets) && d < |m.devices| && k < |m.devices[d].regions|
    requires m.devices[d].regions[k].Existing? && IsTarget(m.devices[d].regions[k].partition, targets)
    ensures m.devices[d].regions[k].partition.configuredBackupTarget
    ensures ConfiguredBlocker(m.devices[d].regions[k].partition) in m.devices[d].regions[k].partition.blockers
  {
    var before, after := t.devices[d].regions[k], m.devices[d].regions[k];
    assert RegionIsApplied(before, after, targets);
    var target :| target in targets && IsNamed(after.partition, target);
    assert IsNamed(before.partition, target);
  }
}
