/** What a preparation plan shows the user, and what its operations reach. */
module PreparationEffect {
  import opened Core
  import opened Topology
  import opened Preparation

  // ---- the layouts ----

  /** The layout shows the region where and as it is; only the mark for erasure is added. */
  ghost predicate Shows(s: Predicted, r: Region) {
    && !s.encrypted && !s.changed && s.geometryExact
    && match r
       case Existing(p) =>
         && s.id == p.candidateId && s.kind.ExistingKind? && s.start == p.startSector && s.count == p.sectorCount
         && s.partitionNumber == Some(p.partitionNumber) && s.displayPath == p.identity.displayPath
         && s.filesystemType == p.filesystem.kind
         && (p.partitionLabel.None? ==> s.partitionLabel == "") && (p.partitionLabel.Some? ==> s.partitionLabel == p.partitionLabel.value)
       case Unallocated(f) =>
         && s.id == f.id && s.kind.UnallocatedKind? && s.start == f.startSector && s.count == f.sectorCount
         && s.partitionNumber.None? && s.displayPath == "" && s.filesystemType == "" && s.partitionLabel == ""
  }

  ghost predicate ShowsDevice(l: Layout, d: Device) {
    && l.deviceId == d.candidateId && l.sizeBytes == d.sizeBytes && l.logicalSectorSize == d.logicalSectorSize
    && l.table == d.table.kind && |l.regions| == |d.regions|
    && forall i :: 0 <= i < |d.regions| ==> Shows(l.regions[i], d.regions[i])
  }

  /** One region of the layout, and no other, is the encrypted backup partition. */
  ghost predicate HoldsTarget(regions: seq<Predicted>, k: int, start: UInt64, count: UInt64, number: Option<nat>) {
    && 0 <= k < |regions| && regions[k].kind.BackupKind? && regions[k].start == start && regions[k].count == count
    && regions[k].partitionNumber == number && regions[k].partitionLabel == "btrfs-backup"
    && regions[k].filesystemType == "btrfs" && regions[k].encrypted && regions[k].changed && !regions[k].erased
    && forall i :: 0 <= i < |regions| && i != k ==> !regions[i].kind.BackupKind? && !regions[i].changed
  }

  lemma CurrentLayoutShows(d: Device)
    ensures ShowsDevice(CurrentLayout(d), d)
  {}

  /** The layout before a plan shows the device as it is, and the one after it shows one backup partition: as
      requested, or in the place of the partition that is reformatted. An adoption shows no change. */
  lemma PlanShowsDeviceAndTarget(d: Device, q: Request, p: Plan)
    requires Selects(d, q) && Allows(d, q) && IsPredicted(d, q, p)
    ensures ShowsDevice(p.before, d)
    ensures p.after.deviceId == d.candidateId && p.after.sizeBytes == d.sizeBytes && p.after.logicalSectorSize == d.logicalSectorSize
    ensures p.after.table == if q.mode.EraseWholeDevice? then Gpt else d.table.kind
    ensures q.mode.EraseWholeDevice? || q.mode.CreatePartitionInUnallocatedSpace? ==>
      var g := q.geometry.value;
      exists k :: HoldsTarget(p.after.regions, k, g.start, g.count, Some(g.partitionNumber))
    ensures q.mode.ReformatExistingPartition? ==>
      exists k :: 0 <= k < |d.regions| && RegionId(d.regions[k]) == q.selected && RestartsAt(p, k)
    ensures q.mode.AdoptExistingTarget? ==> p.after == p.before
  {
    CurrentLayoutShows(d);
    match q.mode
    case EraseWholeDevice =>
      assert HoldsTarget(p.after.regions, 0, q.geometry.value.start, q.geometry.value.count, Some(q.geometry.value.partitionNumber));
    case ReformatExistingPartition =>
      var k := ReformatShowsTarget(d, q.selected, p);
    case CreatePartitionInUnallocatedSpace =>
      var f := d.regions[FreeIndex(d.regions, q.selected)].free;
      var pieces :| SplitsFree(d, f, q.geometry.value, p, pieces);
      var _ := SplitHoldsTarget(CurrentLayout(d).regions, LayoutIndex(CurrentLayout(d).regions, f.id), f, q.geometry.value, pieces);
    case AdoptExistingTarget =>
  }

  lemma ReformatShowsTarget(d: Device, id: string, p: Plan) returns (k: nat)
    requires Reformats(d, id, p)
    ensures ShowsDevice(p.before, d) && k < |d.regions| && RegionId(d.regions[k]) == id && RestartsAt(p, k)
  {
    CurrentLayoutShows(d);
    k := LayoutIndex(CurrentLayout(d).regions, id);
  }

  ghost predicate RestartsAt(p: Plan, k: int) {
    && 0 <= k < |p.before.regions|
    && HoldsTarget(p.after.regions, k, p.before.regions[k].start, p.before.regions[k].count, p.before.regions[k].partitionNumber)
  }

  lemma SplitHoldsTarget(regions: seq<Predicted>, j: nat, f: UnallocatedRegion, g: Geometry, pieces: seq<Predicted>) returns (k: int)
    requires j < |regions| && IsSplit(f, g, pieces)
    requires forall i :: 0 <= i < |regions| ==> !regions[i].kind.BackupKind? && !regions[i].changed
    ensures HoldsTarget(Spliced(regions, j, pieces), k, g.start, g.count, Some(g.partitionNumber))
  {
    var m :| HoldsOnce(pieces, g, m);
    k := j + m;
    var after := Spliced(regions, j, pieces);
    SplicedAt(regions, j, pieces, k);
    forall i | 0 <= i < |after| && i != k ensures !after[i].kind.BackupKind? && !after[i].changed {
      SplicedAt(regions, j, pieces, i);
    }
  }

  // ---- what is reached ----

  /** The operation writes where the region is. A LUKS format without a partition goes to the one just created, as
      do the later steps. */
  predicate Reaches(o: Operation, r: Predicted) {
    match o
    case EraseDeviceSignatures(_) => true
    case CreateGptPartitionTable(_) => true
    case ErasePartitionSignatures(id) => r.id == id
    case FormatLuks2(id) => id == Some(r.id)
    case CreateBackupPartition(_, _, g) => g.start as int < End(r) && (r.start as int) < g.start as int + g.count as int
    case _ => false
  }

  ghost predicate DistinctIds(d: Device) {
    forall i, j :: 0 <= i < j < |d.regions| ==> RegionId(d.regions[i]) != RegionId(d.regions[j])
  }

  ghost predicate IsReached(p: Plan, r: Predicted) {
    exists o :: o in p.operations && Reaches(o, r)
  }

  /** A partition of the device is marked as erased exactly when some operation reaches it, and a partition that no
      operation reaches is the same after the plan. */
  lemma ErasedIffReached(t: StorageTopology, d: Device, q: Request, p: Plan, i: nat)
    requires Selects(d, q) && Allows(d, q) && IsPredicted(d, q, p) && IsAimedAt(t, d, q, p)
    requires IsSchedule(p.operations, p.scope, q.geometry)
    requires DistinctIds(d) && Ordered(CurrentLayout(d).regions)
    requires i < |d.regions| && d.regions[i].Existing? && i < |p.before.regions|
    ensures p.before.regions[i].erased <==> IsReached(p, p.before.regions[i])
    ensures !IsReached(p, p.before.regions[i]) ==> p.before.regions[i] in p.after.regions
  {
    match q.mode
    case EraseWholeDevice => EverythingIsReached(d, q, p, i);
    case ReformatExistingPartition => SelectedIsReached(d, q, p, i);
    case CreatePartitionInUnallocatedSpace => NoPartitionIsReached(d, q, p, i);
    case AdoptExistingTarget => NothingIsReached(d, q, p, i);
  }

  lemma EverythingIsReached(d: Device, q: Request, p: Plan, i: nat)
    requires Selects(d, q) && Allows(d, q) && IsPredicted(d, q, p) && q.mode.EraseWholeDevice?
    requires p.scope.kind.WholeDevice? && IsSchedule(p.operations, p.scope, q.geometry)
    requires i < |d.regions| && d.regions[i].Existing?
    ensures p.before.regions[i].erased && IsReached(p, p.before.regions[i])
  {
    ScheduleIsComplete(p.operations, p.scope, q.geometry);
    var o :| o in p.operations && o.EraseDeviceSignatures?;
    assert Reaches(o, p.before.regions[i]);
  }

  lemma SelectedIsReached(d: Device, q: Request, p: Plan, i: nat)
    requires Selects(d, q) && Allows(d, q) && IsPredicted(d, q, p) && q.mode.ReformatExistingPartition?
    requires p.scope == Scope(ExistingPartitionScope, d.candidateId, Some(q.selected), None)
    requires IsSchedule(p.operations, p.scope, q.geometry) && DistinctIds(d) && i < |d.regions| && d.regions[i].Existing?
    ensures p.before.regions[i].erased <==> IsReached(p, p.before.regions[i])
    ensures !IsReached(p, p.before.regions[i]) ==> p.before.regions[i] in p.after.regions
  {
    var regions := CurrentLayout(d).regions;
    var k := LayoutIndex(regions, q.selected);
    assert forall j :: 0 <= j < |regions| ==> regions[j].id == RegionId(d.regions[j]);
    assert i == k <==> regions[i].id == q.selected;
    ScheduleIsComplete(p.operations, p.scope, q.geometry);
    var o :| o in p.operations && o.ErasePartitionSignatures?;
    ScopeOf(p.operations, p.scope, q.geometry, o);
    if i == k {
      assert Reaches(o, p.before.regions[i]);
    } else {
      forall x | x in p.operations ensures !Reaches(x, p.before.regions[i]) {
        ScopeOf(p.operations, p.scope, q.geometry, x);
      }
      assert p.before.regions[i] == p.after.regions[i];
    }
  }

  lemma CreationMisses(regions: seq<Predicted>, i: nat, k: nat, g: Geometry)
    requires Ordered(regions) && i < |regions| && k < |regions| && i != k
    requires regions[k].start <= g.start && g.start as int + g.count as int <= End(regions[k])
    ensures !(g.start as int < End(regions[i]) && (regions[i].start as int) < g.start as int + g.count as int)
  {
    if i < k {
      assert End(regions[i]) <= regions[k].start as int;
    } else {
      assert End(regions[k]) <= regions[i].start as int;
    }
  }

  lemma NoPartitionIsReached(d: Device, q: Request, p: Plan, i: nat)
    requires Selects(d, q) && Allows(d, q) && IsPredicted(d, q, p) && q.mode.CreatePartitionInUnallocatedSpace?
    requires p.scope == Scope(UnallocatedRegionScope, d.candidateId, None, Some(q.selected))
    requires IsSchedule(p.operations, p.scope, q.geometry) && DistinctIds(d) && Ordered(CurrentLayout(d).regions)
    requires i < |d.regions| && d.regions[i].Existing?
    ensures !p.before.regions[i].erased && !IsReached(p, p.before.regions[i]) && p.before.regions[i] in p.after.regions
  {
    var k := FreeIndex(d.regions, q.selected);
    var pieces :| SplitsFree(d, d.regions[k].free, q.geometry.value, p, pieces);
    FindsSelectedIff(d, q.selected, k);
    CreationMisses(CurrentLayout(d).regions, i, k, q.geometry.value);
    CreationReachesNone(p.operations, p.scope, q.geometry.value, CurrentLayout(d).regions[i]);
    SplitKeepsOthers(CurrentLayout(d).regions, k, pieces, i);
  }

  lemma CreationReachesNone(ops: seq<Operation>, s: Scope, g: Geometry, r: Predicted)
    requires IsSchedule(ops, s, Some(g)) && s.kind.UnallocatedRegionScope? && s.partitionId.None?
    requires !(g.start as int < End(r) && (r.start as int) < g.start as int + g.count as int)
    ensures forall o :: o in ops ==> !Reaches(o, r)
  {
    forall o | o in ops ensures !Reaches(o, r) {
      ScopeOf(ops, s, Some(g), o);
    }
  }

  lemma SplitKeepsOthers(regions: seq<Predicted>, k: nat, pieces: seq<Predicted>, i: nat)
    requires k < |regions| && i < |regions| && i != k
    ensures regions[i] in Spliced(regions, k, pieces)
  {
    var j := if i < k then i else i + |pieces| - 1;
    SplicedAt(regions, k, pieces, j);
    assert Spliced(regions, k, pieces)[j] == regions[i];
  }

  lemma NothingIsReached(d: Device, q: Request, p: Plan, i: nat)
    requires Selects(d, q) && Allows(d, q) && IsPredicted(d, q, p) && q.mode.AdoptExistingTarget?
    requires p.scope.kind.NoScope? && IsSchedule(p.operations, p.scope, q.geometry) && i < |d.regions|
    ensures !p.before.regions[i].erased && !IsReached(p, p.before.regions[i]) && p.before.regions[i] in p.after.regions
  {
    forall x | x in p.operations ensures !Reaches(x, p.before.regions[i]) {
      ScopeOf(p.operations, p.scope, q.geometry, x);
    }
    assert p.before.regions[i] == p.after.regions[i];
  }

  lemma ScopeOf(ops: seq<Operation>, s: Scope, g: Option<Geometry>, o: Operation)
    requires IsSchedule(ops, s, g) && o in ops
    ensures InScope(o, s) && (o.CreateBackupPartition? ==> Some(o.geometry) == g)
  {
    var i :| 0 <= i < |ops| && ops[i] == o;
  }
}
