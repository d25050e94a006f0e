/** Plans that prepare a device for backups: what they touch, and how the layout will look. */
module Preparation {
  import opened Core
  import opened Topology

  datatype Mode = EraseWholeDevice | ReformatExistingPartition | CreatePartitionInUnallocatedSpace | AdoptExistingTarget

  datatype PredictedKind = ExistingKind | UnallocatedKind | BackupKind

  datatype Predicted = Predicted(
    id: string,
    kind: PredictedKind,
    start: UInt64,
    count: UInt64,
    partitionNumber: Option<nat>,
    displayPath: string,
    partitionLabel: string,
    filesystemType: string,
    geometryExact: bool,
    encrypted: bool,
    changed: bool,
    erased: bool)

  datatype Layout = Layout(
    deviceId: string,
    sizeBytes: UInt64,
    logicalSectorSize: UInt64,
    table: TableType,
    regions: seq<Predicted>)

  datatype Geometry = Geometry(start: UInt64, count: UInt64, partitionNumber: nat)

  datatype Operation =
    | BackupPartitionTable(deviceId: string)
    | EraseDeviceSignatures(deviceId: string)
    | ErasePartitionSignatures(partitionId: string)
    | CreateGptPartitionTable(deviceId: string)
    | CreateBackupPartition(deviceId: string, freeRegionId: Option<string>, geometry: Geometry)
    | FormatLuks2(luksPartitionId: Option<string>)
    | OpenLuksMapping
    | FormatBtrfs
    | VerifyPreparedTarget
    | PublishProfile

  datatype ScopeKind = NoScope | WholeDevice | ExistingPartitionScope | UnallocatedRegionScope

  datatype Scope = Scope(kind: ScopeKind, deviceId: string, partitionId: Option<string>, freeRegionId: Option<string>)

  datatype Plan = Plan(
    id: string,
    generation: string,
    mode: Mode,
    deviceId: string,
    partitionId: Option<string>,
    freeRegionId: Option<string>,
    inspectionId: Option<string>,
    before: Layout,
    after: Layout,
    operations: seq<Operation>,
    warnings: seq<SafetyBlocker>,
    scope: Scope)

  // ---- layouts ----

  const BLANK := Predicted("", UnallocatedKind, 0, 0, None, "", "", "", true, false, false, false)

  function PredictedRegion(r: Region): Predicted {
    match r
    case Existing(p) =>
      BLANK.(id := p.candidateId, kind := ExistingKind, start := p.startSector, count := p.sectorCount,
             partitionNumber := Some(p.partitionNumber), displayPath := p.identity.displayPath,
             partitionLabel := if p.partitionLabel.Some? then p.partitionLabel.value else "",
             filesystemType := p.filesystem.kind)
    case Unallocated(f) =>
      BLANK.(id := f.id, kind := UnallocatedKind, start := f.startSector, count := f.sectorCount)
  }

  function PredictedRegions(regions: seq<Region>): (r: seq<Predicted>)
    ensures |r| == |regions| && forall i :: 0 <= i < |r| ==> r[i] == PredictedRegion(regions[i])
  {
    seq(|regions|, i requires 0 <= i < |regions| => PredictedRegion(regions[i]))
  }

  function CurrentLayout(d: Device): Layout {
    Layout(d.candidateId, d.sizeBytes, d.logicalSectorSize, d.table.kind, PredictedRegions(d.regions))
  }

  /** The first region of a layout with the id, whatever its kind. */
  function LayoutIndex(regions: seq<Predicted>, id: string): nat {
    FirstIndex(regions, (r: Predicted) => r.id == id)
  }

  function End(r: Predicted): int { r.start as int + r.count as int }

  /** Regions in sector order that do not overlap. */
  ghost predicate Ordered(regions: seq<Predicted>) {
    forall i, j :: 0 <= i < j < |regions| ==> End(regions[i]) <= regions[j].start as int
  }

  /** The pieces cover the sectors from start to end, without a gap or an overlap. */
  ghost predicate Tiles(pieces: seq<Predicted>, start: int, end: int) {
    && |pieces| > 0 && pieces[0].start as int == start && End(pieces[|pieces| - 1]) == end
    && forall i :: 0 <= i < |pieces| - 1 ==> End(pieces[i]) == pieces[i + 1].start as int
  }

  // ---- free space ----

  function BackupPartition(g: Geometry): Predicted {
    BLANK.(id := "planned-backup-partition", kind := BackupKind, start := g.start, count := g.count,
           partitionNumber := Some(g.partitionNumber), partitionLabel := "btrfs-backup", filesystemType := "btrfs",
           encrypted := true, changed := true)
  }

  datatype BuildError =
    | GenerationChanged
    | EmptyIdentifier
    | InspectionRequired
    | GeometryRequired
    | CandidateUnavailable
    | InvalidGeometry
    | UnsuitableRegion
    | ContradictoryPlan

  /** What the source demands of a region and a geometry, in unbounded numbers. */
  predicate FitsFree(d: Device, f: UnallocatedRegion, g: Geometry) {
    && d.table.kind == Gpt
    && f.suitable && f.blockers == [] && f.sectorCount != 0
    && g.count != 0 && g.partitionNumber != 0
    && f.startSector as int + f.sectorCount as int < 0x1_0000_0000_0000_0000
    && f.startSector <= g.start
    && g.start as int + g.count as int <= f.startSector as int + f.sectorCount as int
  }

  const MAX: UInt64 := 0xffff_ffff_ffff_ffff

  /** One to three pieces: space before, the backup partition, space after. */
  method Pieces(d: Device, f: UnallocatedRegion, g: Geometry) returns (r: Result<seq<Predicted>, BuildError>)
    ensures r.Ok? <==> FitsFree(d, f, g)
    ensures r.Ok? ==> IsSplit(f, g, r.value)
    ensures r != Err(ContradictoryPlan)
  {
    if d.table.kind != Gpt { return Err(UnsuitableRegion); }
    if !f.suitable || f.blockers != [] || f.sectorCount == 0 { return Err(UnsuitableRegion); }
    if g.count == 0 || g.partitionNumber == 0 || f.startSector > MAX - f.sectorCount || g.start > MAX - g.count {
      return Err(InvalidGeometry);
    }
    var freeEnd := f.startSector + f.sectorCount;
    var partitionEnd := g.start + g.count;
    if g.start < f.startSector || partitionEnd > freeEnd { return Err(InvalidGeometry); }
    var replacements: seq<Predicted> := [];
    if g.start > f.startSector {
      replacements := replacements + [BLANK.(id := f.id + ":before", start := f.startSector, count := g.start - f.startSector)];
    }
    ghost var at := |replacements|;
    replacements := replacements + [BackupPartition(g)];
    if partitionEnd < freeEnd {
      replacements := replacements + [BLANK.(id := f.id + ":after", start := partitionEnd, count := freeEnd - partitionEnd)];
    }
    assert HoldsOnce(replacements, g, at);
    return Ok(replacements);
  }

  ghost predicate HoldsOnce(pieces: seq<Predicted>, g: Geometry, i: int) {
    && 0 <= i < |pieces| && pieces[i] == BackupPartition(g)
    && forall j :: 0 <= j < |pieces| && j != i ==>
         pieces[j].count > 0 && pieces[j] == BLANK.(id := pieces[j].id, start := pieces[j].start, count := pieces[j].count)
  }

  /** The pieces tile the region, hold the partition once, and are otherwise free space under new names. */
  ghost predicate IsSplit(f: UnallocatedRegion, g: Geometry, pieces: seq<Predicted>) {
    && 1 <= |pieces| <= 3
    && Tiles(pieces, f.startSector as int, f.startSector as int + f.sectorCount as int)
    && (exists i :: HoldsOnce(pieces, g, i))
    && (pieces[0].kind == UnallocatedKind ==> pieces[0].id == f.id + ":before")
    && (pieces[|pieces| - 1].kind == UnallocatedKind ==> pieces[|pieces| - 1].id == f.id + ":after")
  }

  /** The layout with one region replaced. */
  function Spliced(regions: seq<Predicted>, k: nat, pieces: seq<Predicted>): seq<Predicted>
    requires k < |regions|
  {
    regions[..k] + pieces + regions[k + 1..]
  }

  /** Tiles stay between where they start and where they end. */
  lemma {:induction false} TilesStayInside(pieces: seq<Predicted>, start: int, end: int, i: nat)
    requires Tiles(pieces, start, end) && i < |pieces|
    ensures start <= pieces[i].start as int && End(pieces[i]) <= end
    decreases |pieces|
  {
    if |pieces| > 1 {
      var rest := pieces[1..];
      assert Tiles(rest, End(pieces[0]), end);
      TilesStayInside(rest, End(pieces[0]), end, if i == 0 then 0 else i - 1);
    }
  }

  lemma {:induction false} TilesAreOrdered(pieces: seq<Predicted>, start: int, end: int)
    requires Tiles(pieces, start, end)
    ensures Ordered(pieces)
    decreases |pieces|
  {
    if |pieces| > 1 {
      var rest := pieces[1..];
      assert Tiles(rest, End(pieces[0]), end);
      TilesAreOrdered(rest, End(pieces[0]), end);
      forall i, j | 0 <= i < j < |pieces| ensures End(pieces[i]) <= pieces[j].start as int {
        TilesStayInside(rest, End(pieces[0]), end, j - 1);
        if i > 0 { assert pieces[i] == rest[i - 1] && pieces[j] == rest[j - 1]; }
      }
    }
  }

  /** Replacing a region by its tiles keeps the layout in order and without overlaps. */
  lemma SplicedIsOrdered(regions: seq<Predicted>, k: nat, pieces: seq<Predicted>)
    requires k < |regions| && Ordered(regions) && Tiles(pieces, regions[k].start as int, End(regions[k]))
    ensures Ordered(Spliced(regions, k, pieces))
  {
    var s := Spliced(regions, k, pieces);
    TilesAreOrdered(pieces, regions[k].start as int, End(regions[k]));
    forall i, j | 0 <= i < j < |s| ensures End(s[i]) <= s[j].start as int {
      if k <= i < k + |pieces| { TilesStayInside(pieces, regions[k].start as int, End(regions[k]), i - k); }
      if k <= j < k + |pieces| { TilesStayInside(pieces, regions[k].start as int, End(regions[k]), j - k); }
      SplicedAt(regions, k, pieces, i);
      SplicedAt(regions, k, pieces, j);
    }
  }

  lemma SplicedAt(regions: seq<Predicted>, k: nat, pieces: seq<Predicted>, i: nat)
    requires k < |regions| && i < |Spliced(regions, k, pieces)|
    ensures i < k ==> Spliced(regions, k, pieces)[i] == regions[i]
    ensures k <= i < k + |pieces| ==> Spliced(regions, k, pieces)[i] == pieces[i - k]
    ensures k + |pieces| <= i ==> Spliced(regions, k, pieces)[i] == regions[i - |pieces| + 1]
  {}

  function Sectors(regions: seq<Predicted>): int {
    if |regions| == 0 then 0 else Sectors(regions[..|regions| - 1]) + regions[|regions| - 1].count as int
  }

  lemma {:induction false} SectorsAppend(a: seq<Predicted>, b: seq<Predicted>)
    ensures Sectors(a + b) == Sectors(a) + Sectors(b)
  {
    if |b| == 0 {
      assert a + b == a;
    } else {
      SectorsAppend(a, b[..|b| - 1]);
      assert (a + b)[..|a + b| - 1] == a + b[..|b| - 1];
    }
  }

  lemma {:induction false} TilesHoldTheirSectors(pieces: seq<Predicted>, start: int, end: int)
    requires Tiles(pieces, start, end)
    ensures Sectors(pieces) == end - start
    decreases |pieces|
  {
    if |pieces| > 1 {
      var front := pieces[..|pieces| - 1];
      assert Tiles(front, start, pieces[|pieces| - 1].start as int);
      TilesHoldTheirSectors(front, start, pieces[|pieces| - 1].start as int);
    } else {
      assert pieces[..0] == [];
    }
  }

  /** No sector appears or disappears. */
  lemma SectorsAreConserved(regions: seq<Predicted>, k: nat, pieces: seq<Predicted>)
    requires k < |regions| && Tiles(pieces, regions[k].start as int, End(regions[k]))
    ensures Sectors(Spliced(regions, k, pieces)) == Sectors(regions)
  {
    var a, b, one := regions[..k], regions[k + 1..], [regions[k]];
    assert regions == a + one + b;
    TilesHoldTheirSectors(pieces, regions[k].start as int, End(regions[k]));
    TilesHoldTheirSectors(one, regions[k].start as int, End(regions[k]));
    SameSectorsInside(a, pieces, one, b);
  }

  lemma SameSectorsInside(a: seq<Predicted>, b: seq<Predicted>, b': seq<Predicted>, c: seq<Predicted>)
    requires Sectors(b) == Sectors(b')
    ensures Sectors(a + b + c) == Sectors(a + b' + c)
  {
    SectorsOfThree(a, b, c);
    SectorsOfThree(a, b', c);
  }

  lemma SectorsOfThree(a: seq<Predicted>, b: seq<Predicted>, c: seq<Predicted>)
    ensures Sectors(a + b + c) == Sectors(a) + Sectors(b) + Sectors(c)
  {
    SectorsAppend(a, b);
    SectorsAppend(a + b, c);
  }

  // ---- scopes and validation ----

  function WholeDeviceScope(deviceId: string): Result<Scope, BuildError> {
    if deviceId == "" then Err(EmptyIdentifier) else Ok(Scope(WholeDevice, deviceId, None, None))
  }

  function PartitionScope(deviceId: string, partitionId: string, kind: ScopeKind): Result<Scope, BuildError> {
    if partitionId == "" || deviceId == "" then Err(EmptyIdentifier) else Ok(Scope(kind, deviceId, Some(partitionId), None))
  }

  function FreeRegionScope(deviceId: string, freeRegionId: string): Result<Scope, BuildError> {
    if freeRegionId == "" || deviceId == "" then Err(EmptyIdentifier)
    else Ok(Scope(UnallocatedRegionScope, deviceId, None, Some(freeRegionId)))
  }

  predicate Validates(p: Plan) {
    && p.id != "" && p.generation != "" && p.deviceId != "" && p.scope.deviceId == p.deviceId
    && match p.mode
       case EraseWholeDevice =>
         p.partitionId.None? && p.freeRegionId.None? && p.inspectionId.None? && p.scope.kind == WholeDevice
       case ReformatExistingPartition =>
         && p.partitionId.Some? && p.freeRegionId.None? && p.inspectionId.None?
         && p.scope.kind == ExistingPartitionScope && p.scope.partitionId == p.partitionId
       case CreatePartitionInUnallocatedSpace =>
         && p.partitionId.None? && p.freeRegionId.Some? && p.inspectionId.None?
         && p.scope.kind == UnallocatedRegionScope && p.scope.freeRegionId == p.freeRegionId
       case AdoptExistingTarget =>
         && p.partitionId.Some? && p.freeRegionId.None? && p.inspectionId.Some? && p.inspectionId.value != ""
         && p.scope.kind == NoScope && p.scope.partitionId == p.partitionId
  }

  /** The kind of scope a mode calls for. */
  function ScopeFor(mode: Mode): ScopeKind {
    match mode
    case EraseWholeDevice => WholeDevice
    case ReformatExistingPartition => ExistingPartitionScope
    case CreatePartitionInUnallocatedSpace => UnallocatedRegionScope
    case AdoptExistingTarget => NoScope
  }

  /** A plan names the one thing its mode is about, and nothing else. */
  ghost predicate NamesItsOwn(p: Plan) {
    && (p.partitionId.Some? <==> p.mode.ReformatExistingPartition? || p.mode.AdoptExistingTarget?)
    && (p.freeRegionId.Some? <==> p.mode.CreatePartitionInUnallocatedSpace?)
    && (p.inspectionId.Some? <==> p.mode.AdoptExistingTarget?) && p.inspectionId != Some("")
  }

  /** A plan validates exactly when it is identified, names the one thing its mode is about, and its scope agrees with
      it; every other plan is contradictory. */
  lemma ValidatesIff(p: Plan)
    ensures Validates(p) <==>
      && p.id != "" && p.generation != "" && p.deviceId != "" && NamesItsOwn(p)
      && p.scope.kind == ScopeFor(p.mode) && p.scope.deviceId == p.deviceId
      && (p.partitionId.Some? ==> p.scope.partitionId == p.partitionId)
      && (p.freeRegionId.Some? ==> p.scope.freeRegionId == p.freeRegionId)
  {}

  // ---- operations ----

  /** What an operation writes to belongs to the scope. */
  predicate InScope(o: Operation, s: Scope) {
    match o
    case BackupPartitionTable(d) => d == s.deviceId && (s.kind.WholeDevice? || s.kind.UnallocatedRegionScope?)
    case EraseDeviceSignatures(d) => d == s.deviceId && s.kind.WholeDevice?
    case CreateGptPartitionTable(d) => d == s.deviceId && s.kind.WholeDevice?
    case ErasePartitionSignatures(id) => s.kind.ExistingPartitionScope? && s.partitionId == Some(id)
    case CreateBackupPartition(d, f, _) =>
      d == s.deviceId && f == s.freeRegionId && (s.kind.WholeDevice? || (s.kind.UnallocatedRegionScope? && f.Some?))
    case FormatLuks2(id) => !s.kind.NoScope? && id == s.partitionId
    case OpenLuksMapping => !s.kind.NoScope?
    case FormatBtrfs => !s.kind.NoScope?
    case VerifyPreparedTarget => true
    case PublishProfile => true
  }

  /** The turn of an operation: whatever the plan, an operation comes after those it needs. */
  function Turn(o: Operation): nat {
    match o
    case BackupPartitionTable(_) => 0
    case EraseDeviceSignatures(_) => 1
    case CreateGptPartitionTable(_) => 2
    case CreateBackupPartition(_, _, _) => 3
    case ErasePartitionSignatures(_) => 4
    case FormatLuks2(_) => 5
    case OpenLuksMapping => 6
    case FormatBtrfs => 7
    case VerifyPreparedTarget => 8
    case PublishProfile => 9
  }

  /** The turns a scope calls for, in order. */
  function Turns(kind: ScopeKind): seq<nat> {
    match kind
    case WholeDevice => [0, 1, 2, 3, 5, 6, 7, 8, 9]
    case ExistingPartitionScope => [4, 5, 6, 7, 8, 9]
    case UnallocatedRegionScope => [0, 3, 5, 6, 7, 8, 9]
    case NoScope => [8, 9]
  }

  /** Every operation the scope calls for takes its turn, stays in the scope, and creates what was asked for. */
  ghost predicate IsSchedule(ops: seq<Operation>, s: Scope, g: Option<Geometry>) {
    && |ops| == |Turns(s.kind)|
    && forall i :: 0 <= i < |ops| ==>
         Turn(ops[i]) == Turns(s.kind)[i] && InScope(ops[i], s) && (ops[i].CreateBackupPartition? ==> Some(ops[i].geometry) == g)
  }

  predicate ChangesTable(o: Operation) {
    o.EraseDeviceSignatures? || o.CreateGptPartitionTable? || o.CreateBackupPartition?
  }

  lemma EraseSchedule(d: string, g: Geometry)
    ensures IsSchedule([BackupPartitionTable(d), EraseDeviceSignatures(d), CreateGptPartitionTable(d),
                        CreateBackupPartition(d, None, g), FormatLuks2(None), OpenLuksMapping, FormatBtrfs,
                        VerifyPreparedTarget, PublishProfile],
                       Scope(WholeDevice, d, None, None), Some(g))
  {}

  lemma CreateSchedule(d: string, f: string, g: Geometry)
    ensures IsSchedule([BackupPartitionTable(d), CreateBackupPartition(d, Some(f), g), FormatLuks2(None), OpenLuksMapping,
                        FormatBtrfs, VerifyPreparedTarget, PublishProfile],
                       Scope(UnallocatedRegionScope, d, None, Some(f)), Some(g))
  {}

  /** The operations a scope calls for, and no others. */
  lemma ScheduleIsComplete(ops: seq<Operation>, s: Scope, g: Option<Geometry>)
    requires IsSchedule(ops, s, g)
    ensures (exists o :: o in ops && o.CreateBackupPartition?) <==> s.kind.WholeDevice? || s.kind.UnallocatedRegionScope?
    ensures (exists o :: o in ops && o.ErasePartitionSignatures?) <==> s.kind.ExistingPartitionScope?
    ensures (exists o :: o in ops && o.EraseDeviceSignatures?) <==> s.kind.WholeDevice?
    ensures (exists o :: o in ops && o.CreateGptPartitionTable?) <==> s.kind.WholeDevice?
    ensures (exists o :: o in ops && o.FormatLuks2?) <==> !s.kind.NoScope?
  {
    forall o | o in ops ensures exists i :: 0 <= i < |ops| && ops[i] == o && InScope(ops[i], s) {}
    match s.kind
    case WholeDevice =>
      assert Turn(ops[1]) == 1 && ops[1] in ops && Turn(ops[2]) == 2 && ops[2] in ops;
      assert Turn(ops[3]) == 3 && ops[3] in ops && Turn(ops[4]) == 5 && ops[4] in ops;
    case ExistingPartitionScope =>
      assert Turn(ops[0]) == 4 && ops[0] in ops && Turn(ops[1]) == 5 && ops[1] in ops;
    case UnallocatedRegionScope =>
      assert Turn(ops[1]) == 3 && ops[1] in ops && Turn(ops[2]) == 5 && ops[2] in ops;
    case NoScope =>
  }

  /** No operation is repeated, and each comes after those it needs: what holds the target is emptied or created
      before it is formatted, opened before it is given a file system, and the profile is published last, of a
      target that was verified. */
  lemma ScheduleIsInOrder(ops: seq<Operation>, s: Scope, g: Option<Geometry>)
    requires IsSchedule(ops, s, g)
    ensures forall i, j :: 0 <= i < j < |ops| ==> Turn(ops[i]) < Turn(ops[j])
    ensures |ops| >= 2 && ops[|ops| - 1].PublishProfile? && ops[|ops| - 2].VerifyPreparedTarget?
  {
    TurnsIncrease(s.kind);
    forall i, j | 0 <= i < j < |ops| ensures Turn(ops[i]) < Turn(ops[j]) {
      assert Turns(s.kind)[i] < Turns(s.kind)[j];
    }
    assert Turn(ops[|ops| - 1]) == 9 && Turn(ops[|ops| - 2]) == 8;
  }

  /** The partition table is saved before anything changes it. */
  lemma TableIsSavedFirst(ops: seq<Operation>, s: Scope, g: Option<Geometry>, i: nat)
    requires IsSchedule(ops, s, g) && i < |ops| && ChangesTable(ops[i])
    ensures 0 < i && ops[0] == BackupPartitionTable(s.deviceId)
  {
    assert InScope(ops[i], s) && InScope(ops[0], s) && Turn(ops[0]) == Turns(s.kind)[0];
  }

  lemma TurnsIncrease(kind: ScopeKind)
    ensures forall i, j :: 0 <= i < j < |Turns(kind)| ==> Turns(kind)[i] < Turns(kind)[j]
  {}

  // ---- the builders ----

  datatype Request = Request(
    generation: string,
    selected: string,
    mode: Mode,
    planId: string,
    inspectionId: Option<string>,
    geometry: Option<Geometry>)

  /** The plan names the device, and the selected partition or region on it, and nothing else. */
  ghost predicate IsAimedAt(t: StorageTopology, d: Device, q: Request, p: Plan) {
    && p.id == q.planId && p.generation == t.generation && p.mode == q.mode && p.deviceId == d.candidateId
    && (q.mode.AdoptExistingTarget? <==> p.inspectionId.Some?)
    && match q.mode
       case EraseWholeDevice =>
         && d.candidateId == q.selected
         && p.partitionId.None? && p.freeRegionId.None? && p.scope == Scope(WholeDevice, d.candidateId, None, None)
       case ReformatExistingPartition =>
         && (exists r :: r in d.regions && IsPartition(r, q.selected)) && p.partitionId == Some(q.selected)
         && p.freeRegionId.None? && p.scope == Scope(ExistingPartitionScope, d.candidateId, Some(q.selected), None)
       case CreatePartitionInUnallocatedSpace =>
         && (exists r :: r in d.regions && IsFree(r, q.selected)) && p.partitionId.None?
         && p.freeRegionId == Some(q.selected) && p.scope == Scope(UnallocatedRegionScope, d.candidateId, None, Some(q.selected))
       case AdoptExistingTarget =>
         && (exists r :: r in d.regions && IsPartition(r, q.selected)) && p.partitionId == Some(q.selected)
         && p.freeRegionId.None? && p.scope == Scope(NoScope, d.candidateId, Some(q.selected), None)
  }

  /** The geometry lies on the device: its last sector ends within the bytes of the device. */
  predicate FitsDevice(d: Device, g: Geometry) {
    && g.partitionNumber != 0 && g.count != 0 && d.logicalSectorSize != 0
    && (g.start as int + g.count as int) * d.logicalSectorSize as int <= d.sizeBytes as int
  }

  lemma SectorsFit(size: nat, sector: nat, end: nat)
    requires sector > 0
    ensures end <= size / sector <==> end * sector <= size
  {
    var q := size / sector;
    assert size == sector * q + size % sector;
    if end <= q {
      assert end * sector <= q * sector;
    } else {
      assert end * sector >= (q + 1) * sector;
    }
  }

  method MarkErased(regions: seq<Predicted>) returns (marked: seq<Predicted>)
    ensures |marked| == |regions|
    ensures forall i :: 0 <= i < |regions| ==> marked[i] == regions[i].(erased := regions[i].kind.ExistingKind?)
  {
    marked := regions;
    for i := 0 to |regions|
      invariant |marked| == |regions|
      invariant forall j :: i <= j < |regions| ==> marked[j] == regions[j]
      invariant forall j :: 0 <= j < i ==> marked[j] == regions[j].(erased := regions[j].kind.ExistingKind?)
    {
      marked := marked[i := marked[i].(erased := marked[i].kind.ExistingKind?)];
    }
  }

  /** The source compares sectors, so that no product can overflow. */
  method GeometryFits(d: Device, g: Geometry) returns (fits: bool)
    ensures fits <==> FitsDevice(d, g)
  {
    var sectors := if d.logicalSectorSize == 0 then 0 else d.sizeBytes / d.logicalSectorSize;
    if d.logicalSectorSize != 0 {
      SectorsFit(d.sizeBytes as int, d.logicalSectorSize as int, g.start as int + g.count as int);
    }
    return !(g.partitionNumber == 0 || g.count == 0 || g.start >= sectors || g.count > sectors - g.start);
  }

  method EraseWholeDevicePlan(t: StorageTopology, d: Device, q: Request, g: Geometry) returns (r: Result<Plan, BuildError>)
    requires q.mode.EraseWholeDevice? && d.candidateId == q.selected && t.generation != "" && q.planId != ""
    ensures r.Ok? <==> FitsDevice(d, g) && d.candidateId != ""
    ensures r.Ok? ==> Validates(r.value) && IsAimedAt(t, d, q, r.value)
    ensures r != Err(ContradictoryPlan)
    ensures r.Ok? ==> r.value.after == Layout(d.candidateId, d.sizeBytes, d.logicalSectorSize, Gpt, [BackupPartition(g)])
    ensures r.Ok? ==> ErasesPartitions(d, r.value.before)
    ensures r.Ok? ==> IsSchedule(r.value.operations, r.value.scope, Some(g)) && Warns(d, q, r.value)
  {
    var fits := GeometryFits(d, g);
    if !fits { return Err(InvalidGeometry); }
    var before := CurrentLayout(d);
    var marked := MarkErased(before.regions);
    before := before.(regions := marked);
    var after := Layout(d.candidateId, d.sizeBytes, d.logicalSectorSize, Gpt, [BackupPartition(g)]);
    var scope := WholeDeviceScope(d.candidateId);
    if scope.Err? { return Err(scope.error); }
    var plan := Plan(
      q.planId, t.generation, EraseWholeDevice, d.candidateId, None, None, None, before, after,
      [BackupPartitionTable(d.candidateId), EraseDeviceSignatures(d.candidateId), CreateGptPartitionTable(d.candidateId),
       CreateBackupPartition(d.candidateId, None, g), FormatLuks2(None), OpenLuksMapping, FormatBtrfs,
       VerifyPreparedTarget, PublishProfile],
      [SafetyBlocker("erase-whole-device", d.identity.displayPath)] + d.blockers, scope.value);
    EraseSchedule(d.candidateId, g);
    return if Validates(plan) then Ok(plan) else Err(ContradictoryPlan);
  }

  /** Every partition is marked as erased, and only partitions are. */
  ghost predicate ErasesPartitions(d: Device, before: Layout) {
    && before == CurrentLayout(d).(regions := before.regions) && |before.regions| == |d.regions|
    && forall i :: 0 <= i < |d.regions| ==> before.regions[i] == PredictedRegion(d.regions[i]).(erased := d.regions[i].Existing?)
  }

  /** The user is warned of what will be lost and of everything that speaks against it; an adoption loses nothing. */
  ghost predicate Warns(d: Device, q: Request, p: Plan) {
    match q.mode
    case EraseWholeDevice =>
      SafetyBlocker("erase-whole-device", d.identity.displayPath) in p.warnings && forall b :: b in d.blockers ==> b in p.warnings
    case ReformatExistingPartition =>
      exists r :: r in d.regions && IsPartition(r, q.selected)
        && SafetyBlocker("erase-existing-partition", r.partition.identity.displayPath) in p.warnings
        && forall b :: b in r.partition.blockers ==> b in p.warnings
    case CreatePartitionInUnallocatedSpace => SafetyBlocker("create-partition-in-unallocated-space", d.identity.displayPath) in p.warnings
    case AdoptExistingTarget => p.warnings == []
  }

  /** What becomes of the partition that is reformatted. */
  function Reformatted(r: Predicted): Predicted {
    r.(kind := BackupKind, filesystemType := "btrfs", partitionLabel := "btrfs-backup", encrypted := true, changed := true)
  }

  lemma LayoutIndexFound(d: Device, id: string, k: nat)
    requires k < |d.regions| && RegionId(d.regions[k]) == id
    ensures LayoutIndex(CurrentLayout(d).regions, id) <= k
  {
    assert CurrentLayout(d).regions[k].id == id;
  }

  method ReformatPartitionPlan(t: StorageTopology, d: Device, k: nat, q: Request) returns (r: Result<Plan, BuildError>)
    requires q.mode.ReformatExistingPartition? && k < |d.regions| && IsPartition(d.regions[k], q.selected)
    requires t.generation != "" && q.planId != ""
    ensures r.Ok? <==> d.candidateId != "" && q.selected != ""
    ensures r.Ok? ==> Validates(r.value) && IsAimedAt(t, d, q, r.value)
    ensures r != Err(ContradictoryPlan)
    ensures r.Ok? ==> Reformats(d, q.selected, r.value)
    ensures r.Ok? ==> IsSchedule(r.value.operations, r.value.scope, q.geometry) && Warns(d, q, r.value)
  {
    LayoutIndexFound(d, q.selected, k);
    var before := CurrentLayout(d);
    var target := LayoutIndex(before.regions, q.selected);
    before := before.(regions := before.regions[target := before.regions[target].(erased := true)]);
    var after := CurrentLayout(d);
    after := after.(regions := after.regions[target := Reformatted(after.regions[target])]);
    var scope := PartitionScope(d.candidateId, q.selected, ExistingPartitionScope);
    if scope.Err? { return Err(scope.error); }
    var partition := d.regions[k].partition;
    var plan := Plan(
      q.planId, t.generation, ReformatExistingPartition, d.candidateId, Some(q.selected), None, None, before, after,
      [ErasePartitionSignatures(q.selected), FormatLuks2(Some(q.selected)), OpenLuksMapping, FormatBtrfs,
       VerifyPreparedTarget, PublishProfile],
      [SafetyBlocker("erase-existing-partition", partition.identity.displayPath)] + partition.blockers, scope.value);
    assert d.regions[k] in d.regions;
    return if Validates(plan) then Ok(plan) else Err(ContradictoryPlan);
  }

  /** The layout after the plan is the one before with a region split; which region is found by its id. */
  ghost predicate SplitsFree(d: Device, f: UnallocatedRegion, g: Geometry, p: Plan, pieces: seq<Predicted>) {
    var regions := CurrentLayout(d).regions;
    var j := LayoutIndex(regions, f.id);
    && IsSplit(f, g, pieces) && p.before == CurrentLayout(d)
    && j < |regions| && p.after == CurrentLayout(d).(regions := Spliced(regions, j, pieces))
  }

  method FreeSpacePlan(t: StorageTopology, d: Device, k: nat, q: Request, g: Geometry)
    returns (r: Result<Plan, BuildError>, ghost pieces: seq<Predicted>)
    requires q.mode.CreatePartitionInUnallocatedSpace? && k < |d.regions| && IsFree(d.regions[k], q.selected)
    requires t.generation != "" && q.planId != ""
    ensures r.Ok? <==> FitsFree(d, d.regions[k].free, g) && d.candidateId != "" && q.selected != ""
    ensures r.Ok? ==> Validates(r.value) && IsAimedAt(t, d, q, r.value)
    ensures r != Err(ContradictoryPlan)
    ensures r.Ok? ==> SplitsFree(d, d.regions[k].free, g, r.value, pieces)
    ensures r.Ok? ==> IsSchedule(r.value.operations, r.value.scope, Some(g)) && Warns(d, q, r.value)
  {
    LayoutIndexFound(d, q.selected, k);
    var split := Pieces(d, d.regions[k].free, g);
    pieces := [];
    if split.Err? { return Err(split.error), pieces; }
    pieces := split.value;
    var before := CurrentLayout(d);
    var after := before;
    var target := LayoutIndex(after.regions, q.selected);
    var erased := after.regions[..target] + after.regions[target + 1..];
    after := after.(regions := erased[..target] + split.value + erased[target..]);
    assert after.regions == Spliced(before.regions, target, pieces);
    var scope := FreeRegionScope(d.candidateId, q.selected);
    if scope.Err? { return Err(scope.error), pieces; }
    var plan := Plan(
      q.planId, t.generation, CreatePartitionInUnallocatedSpace, d.candidateId, None, Some(q.selected), None, before, after,
      [BackupPartitionTable(d.candidateId), CreateBackupPartition(d.candidateId, Some(q.selected), g), FormatLuks2(None),
       OpenLuksMapping, FormatBtrfs, VerifyPreparedTarget, PublishProfile],
      [SafetyBlocker("create-partition-in-unallocated-space", d.identity.displayPath)], scope.value);
    assert d.regions[k] in d.regions;
    CreateSchedule(d.candidateId, q.selected, g);
    r := if Validates(plan) then Ok(plan) else Err(ContradictoryPlan);
  }

  method AdoptPlan(t: StorageTopology, d: Device, k: nat, q: Request, inspectionId: string) returns (r: Result<Plan, BuildError>)
    requires q.mode.AdoptExistingTarget? && k < |d.regions| && IsPartition(d.regions[k], q.selected)
    requires t.generation != "" && q.planId != ""
    ensures r.Ok? <==> d.regions[k].partition.suitableForAdoption && inspectionId != "" && d.candidateId != "" && q.selected != ""
    ensures r.Ok? ==> Validates(r.value) && IsAimedAt(t, d, q, r.value)
    ensures r != Err(ContradictoryPlan)
    ensures r.Ok? ==> r.value.before == r.value.after == CurrentLayout(d) && r.value.inspectionId == Some(inspectionId)
    ensures r.Ok? ==> IsSchedule(r.value.operations, r.value.scope, q.geometry) && Warns(d, q, r.value)
  {
    if !d.regions[k].partition.suitableForAdoption || inspectionId == "" { return Err(InspectionRequired); }
    var layout := CurrentLayout(d);
    var scope := PartitionScope(d.candidateId, q.selected, NoScope);
    if scope.Err? { return Err(scope.error); }
    var plan := Plan(
      q.planId, t.generation, AdoptExistingTarget, d.candidateId, Some(q.selected), None, Some(inspectionId), layout, layout,
      [VerifyPreparedTarget, PublishProfile], [], scope.value);
    assert d.regions[k] in d.regions;
    return if Validates(plan) then Ok(plan) else Err(ContradictoryPlan);
  }

  // ---- choosing the builder ----

  predicate HasPartition(d: Device, id: string) { PartitionIndex(d.regions, id) < |d.regions| }

  predicate HasFree(d: Device, id: string) { FreeIndex(d.regions, id) < |d.regions| }

  /** The device the request selects: the first one with the id, or with such a partition or free region. */
  predicate Selects(d: Device, q: Request) {
    match q.mode
    case EraseWholeDevice => d.candidateId == q.selected
    case CreatePartitionInUnallocatedSpace => HasFree(d, q.selected)
    case _ => HasPartition(d, q.selected)
  }

  /** What must hold of the selected device. */
  predicate Allows(d: Device, q: Request)
    requires Selects(d, q)
  {
    && d.candidateId != "" && q.selected != ""
    && match q.mode
       case EraseWholeDevice => q.geometry.Some? && FitsDevice(d, q.geometry.value)
       case ReformatExistingPartition => true
       case CreatePartitionInUnallocatedSpace =>
         q.geometry.Some? && FitsFree(d, d.regions[FreeIndex(d.regions, q.selected)].free, q.geometry.value)
       case AdoptExistingTarget =>
         && q.inspectionId.Some? && q.inspectionId.value != ""
         && d.regions[PartitionIndex(d.regions, q.selected)].partition.suitableForAdoption
  }

  function SelectedIndex(t: StorageTopology, q: Request): nat {
    FirstIndex(t.devices, (d: Device) => Selects(d, q))
  }

  /** A plan is built exactly when the first device that is selected allows it. */
  predicate CanBuild(t: StorageTopology, q: Request) {
    && t.generation != "" && t.generation == q.generation && q.planId != ""
    && var k := SelectedIndex(t, q);
       k < |t.devices| && Allows(t.devices[k], q)
  }

  /** The layouts a plan shows, before and after. */
  ghost predicate IsPredicted(d: Device, q: Request, p: Plan)
    requires Selects(d, q) && Allows(d, q)
  {
    match q.mode
    case EraseWholeDevice =>
      && p.after == Layout(d.candidateId, d.sizeBytes, d.logicalSectorSize, Gpt, [BackupPartition(q.geometry.value)])
      && ErasesPartitions(d, p.before)
    case ReformatExistingPartition => Reformats(d, q.selected, p)
    case CreatePartitionInUnallocatedSpace =>
      exists pieces :: SplitsFree(d, d.regions[FreeIndex(d.regions, q.selected)].free, q.geometry.value, p, pieces)
    case AdoptExistingTarget => p.before == p.after == CurrentLayout(d) && p.inspectionId == q.inspectionId
  }

  /** One region changes, found by its id; all others stay. */
  ghost predicate Reformats(d: Device, id: string, p: Plan) {
    var regions := CurrentLayout(d).regions;
    var j := LayoutIndex(regions, id);
    && j < |regions|
    && p.before == CurrentLayout(d).(regions := regions[j := regions[j].(erased := true)])
    && p.after == CurrentLayout(d).(regions := regions[j := Reformatted(regions[j])])
  }

  /** The builder for the selected device. */
  method BuildFor(t: StorageTopology, d: Device, q: Request) returns (r: Result<Plan, BuildError>)
    requires Selects(d, q) && t.generation != "" && q.planId != ""
    requires (q.mode.EraseWholeDevice? || q.mode.CreatePartitionInUnallocatedSpace? ==> q.geometry.Some?)
    requires (q.mode.AdoptExistingTarget? ==> q.inspectionId.Some?)
    ensures r.Ok? <==> Allows(d, q)
    ensures r.Ok? ==> IsPredicted(d, q, r.value) && Warns(d, q, r.value)
    ensures r.Ok? ==> IsSchedule(r.value.operations, r.value.scope, q.geometry)
    ensures r.Ok? ==> Validates(r.value) && IsAimedAt(t, d, q, r.value)
    ensures r != Err(ContradictoryPlan)
  {
    match q.mode
    case EraseWholeDevice =>
      r := EraseWholeDevicePlan(t, d, q, q.geometry.value);
    case ReformatExistingPartition =>
      r := ReformatPartitionPlan(t, d, PartitionIndex(d.regions, q.selected), q);
    case CreatePartitionInUnallocatedSpace =>
      ghost var pieces;
      r, pieces := FreeSpacePlan(t, d, FreeIndex(d.regions, q.selected), q, q.geometry.value);
    case AdoptExistingTarget =>
      r := AdoptPlan(t, d, PartitionIndex(d.regions, q.selected), q, q.inspectionId.value);
  }

  /** Every plan that is built validates and names only what was selected; a built plan is never contradictory. */
  method Build(t: StorageTopology, q: Request) returns (r: Result<Plan, BuildError>)
    ensures r.Ok? <==> CanBuild(t, q)
    ensures r.Ok? ==> Validates(r.value)
    ensures r.Ok? ==> IsAimedAt(t, t.devices[SelectedIndex(t, q)], q, r.value)
    ensures r.Ok? ==> IsPredicted(t.devices[SelectedIndex(t, q)], q, r.value) && Warns(t.devices[SelectedIndex(t, q)], q, r.value)
    ensures r.Ok? ==> IsSchedule(r.value.operations, r.value.scope, q.geometry)
    ensures r != Err(ContradictoryPlan)
  {
    if t.generation == "" || t.generation != q.generation { return Err(GenerationChanged); }
    if q.planId == "" { return Err(EmptyIdentifier); }
    if q.mode.AdoptExistingTarget? && q.inspectionId.None? { return Err(InspectionRequired); }
    if (q.mode.EraseWholeDevice? || q.mode.CreatePartitionInUnallocatedSpace?) && q.geometry.None? { return Err(GeometryRequired); }
    for k := 0 to |t.devices|
      invariant forall j :: 0 <= j < k ==> !Selects(t.devices[j], q)
    {
      if Selects(t.devices[k], q) {
        r := BuildFor(t, t.devices[k], q);
        return;
      }
    }
    r := Err(CandidateUnavailable);
  }

  // ---- what the free-space plan keeps ----

  /** The source finds the region to change by its id alone. It finds the selected one exactly when no earlier region shares the id. */
  lemma FindsSelectedIff(d: Device, id: string, k: nat)
    requires k < |d.regions| && RegionId(d.regions[k]) == id
    ensures LayoutIndex(CurrentLayout(d).regions, id) == k <==> forall i :: 0 <= i < k ==> RegionId(d.regions[i]) != id
  {
    var regions := CurrentLayout(d).regions;
    LayoutIndexFound(d, id, k);
    assert forall i :: 0 <= i < |regions| ==> regions[i].id == RegionId(d.regions[i]);
  }

  /** Splitting any other region gives another layout. */
  lemma SplitsSelectedIff(d: Device, f: UnallocatedRegion, g: Geometry, k: nat, j: nat, pieces: seq<Predicted>)
    requires k < |d.regions| && d.regions[k] == Unallocated(f) && j <= k && RegionId(d.regions[j]) == f.id
    requires IsSplit(f, g, pieces)
    ensures Spliced(CurrentLayout(d).regions, j, pieces) == Spliced(CurrentLayout(d).regions, k, pieces) <==> j == k
  {
    var regions := CurrentLayout(d).regions;
    if j < k {
      SplicedAt(regions, j, pieces, j);
      SplicedAt(regions, k, pieces, j);
      assert regions[j].id == f.id && regions[j].kind != BackupKind;
      assert pieces[0] != regions[j];
    }
  }

  /** With the selected region found: every sector is accounted for, order and disjointness survive, one backup partition. */
  lemma FreeSpaceIsConserved(d: Device, f: UnallocatedRegion, g: Geometry, k: nat, p: Plan, pieces: seq<Predicted>)
    requires k < |d.regions| && d.regions[k] == Unallocated(f) && SplitsFree(d, f, g, p, pieces)
    requires LayoutIndex(CurrentLayout(d).regions, f.id) == k
    ensures Sectors(p.after.regions) == Sectors(p.before.regions)
    ensures Ordered(p.before.regions) ==> Ordered(p.after.regions)
    ensures p.after.regions == p.before.regions[..k] + pieces + p.before.regions[k + 1..]
    ensures exists i :: HoldsOnce(pieces, g, i)
  {
    var regions := p.before.regions;
    assert Tiles(pieces, regions[k].start as int, End(regions[k]));
    SectorsAreConserved(regions, k, pieces);
    if Ordered(regions) { SplicedIsOrdered(regions, k, pieces); }
  }

  /** A partition found in place of the free region is gone from the layout after the plan, and the region is not. */
  ghost predicate Swaps(d: Device, j: nat, k: nat, p: Plan) {
    var regions := CurrentLayout(d).regions;
    && j < |regions| && k < |regions| && regions[j] in p.before.regions && regions[j] !in p.after.regions
    && regions[k] in p.after.regions
  }

  lemma SharedIdLosesPartition(d: Device, f: UnallocatedRegion, g: Geometry, j: nat, k: nat, p: Plan, pieces: seq<Predicted>)
    requires j < k < |d.regions| && d.regions[k] == Unallocated(f) && d.regions[j].Existing?
    requires LayoutIndex(CurrentLayout(d).regions, f.id) == j && SplitsFree(d, f, g, p, pieces)
    requires forall i :: 0 <= i < |d.regions| && i != j ==> CurrentLayout(d).regions[i] != CurrentLayout(d).regions[j]
    ensures Swaps(d, j, k, p)
  {
    var regions, after := CurrentLayout(d).regions, p.after.regions;
    forall i | 0 <= i < |after| ensures after[i] != regions[j] {
      SplicedAt(regions, j, pieces, i);
    }
    SplicedAt(regions, j, pieces, k - 1 + |pieces|);
    assert after[k - 1 + |pieces|] == regions[k];
  }

  /** Such a plan is built: here is a device whose partition carries the id of the free region behind it. */
  lemma SharedIdSplitsPartition() returns (t: StorageTopology, q: Request)
    ensures CanBuild(t, q) && q.mode.CreatePartitionInUnallocatedSpace?
    ensures var d := t.devices[SelectedIndex(t, q)];
            forall p :: IsPredicted(d, q, p) ==> d.regions[0].Existing? && Swaps(d, 0, 1, p)
  {
    var nobody := Identity("", "", "", "", "", "", 0);
    var plain := Filesystem("", "", "", "");
    var partition := ExistingPartition("x", nobody, None, None, 1, 0, 8, plain, [], [], false, [], false, false, false);
    var f := UnallocatedRegion("x", 8, 8, [], true);
    var d := Device("d", nobody, 8192, 512, 512, false, PartitionTable(Gpt, ""), [Existing(partition), Unallocated(f)], []);
    var g := Geometry(8, 8, 2);
    t := StorageTopology("g", [d]);
    q := Request("g", "x", CreatePartitionInUnallocatedSpace, "p", None, Some(g));
    SharedIdIsSelected(t, d, q, partition, f);
    forall p | IsPredicted(d, q, p) ensures Swaps(d, 0, 1, p) {
      var pieces :| SplitsFree(d, f, g, p, pieces);
      SharedIdLosesPartition(d, f, g, 0, 1, p, pieces);
    }
  }

  lemma SharedIdIsSelected(t: StorageTopology, d: Device, q: Request, partition: ExistingPartition, f: UnallocatedRegion)
    requires d.regions == [Existing(partition), Unallocated(f)] && partition.candidateId == f.id == q.selected
    requires t.devices == [d] && q.mode.CreatePartitionInUnallocatedSpace?
    ensures FreeIndex(d.regions, f.id) == 1 && LayoutIndex(CurrentLayout(d).regions, f.id) == 0
    ensures SelectedIndex(t, q) == 0
    ensures CurrentLayout(d).regions[1] != CurrentLayout(d).regions[0]
  {
    assert IsFree(d.regions[1], f.id) && !IsFree(d.regions[0], f.id);
    assert CurrentLayout(d).regions[0].id == f.id;
    assert Selects(t.devices[0], q);
  }
}
