/** Snapshot inventory entries, the names they are found by, and the order they are ranked in. */
module Snapshots {
  import opened Core
  import opened RuntimeTime

  datatype Side = Local | Remote

  datatype SnapshotMetadata = SnapshotMetadata(isSubvolume: bool, readonly: bool, uuid: string, receivedUuid: string)

  datatype SnapshotInfo = SnapshotInfo(
    side: Side,
    sourceId: string,
    name: string,
    timestamp: TimePoint,
    sequence: nat,
    path: Path,
    readonly: bool,
    uuid: string,
    receivedUuid: string)

  predicate UuidMatches(snapshot: string, received: string) {
    snapshot != "" && received != "" && snapshot == received
  }

  // ---- ranking ----

  /** oldest_first, which is also the sort key of an inventory; newest_first is its converse. */
  predicate Older(a: SnapshotInfo, b: SnapshotInfo) {
    if a.timestamp != b.timestamp then a.timestamp < b.timestamp
    else if a.sequence != b.sequence then a.sequence < b.sequence
    else Less(PathText(a.path), PathText(b.path))
  }

  lemma OlderIsAsymmetric(a: SnapshotInfo, b: SnapshotInfo)
    requires Older(a, b)
    ensures !Older(b, a)
  {
    if Less(PathText(a.path), PathText(b.path)) && Less(PathText(b.path), PathText(a.path)) {
      LessTransitive(PathText(a.path), PathText(b.path), PathText(a.path));
      LessIrreflexive(PathText(a.path));
    }
  }

  lemma OlderIsNegativelyTransitive(a: SnapshotInfo, b: SnapshotInfo, c: SnapshotInfo)
    requires !Older(a, b) && !Older(b, c)
    ensures !Older(a, c)
  {
    var p, q, r := PathText(a.path), PathText(b.path), PathText(c.path);
    LessTotal(q, p);
    LessTotal(r, q);
    if Less(r, q) && Less(q, p) {
      LessTransitive(r, q, p);
    }
    if Less(r, p) && Less(p, r) {
      LessTransitive(r, p, r);
      LessIrreflexive(r);
    }
    LessIrreflexive(p);
  }

  /** Two snapshots rank equal only when they agree on time, sequence and path text. */
  lemma OlderIsTotal(a: SnapshotInfo, b: SnapshotInfo)
    ensures Older(a, b) || Older(b, a) ||
            (a.timestamp == b.timestamp && a.sequence == b.sequence && PathText(a.path) == PathText(b.path))
  {
    LessTotal(PathText(a.path), PathText(b.path));
  }

  predicate Before(a: SnapshotInfo, b: SnapshotInfo, newestFirst: bool) {
    if newestFirst then Older(b, a) else Older(a, b)
  }

  ghost predicate Sorted(s: seq<SnapshotInfo>, newestFirst: bool) {
    forall i, j :: 0 <= i < j < |s| ==> !Before(s[j], s[i], newestFirst)
  }

  function Insert(x: SnapshotInfo, s: seq<SnapshotInfo>, newestFirst: bool): (r: seq<SnapshotInfo>)
    ensures multiset(r) == multiset(s) + multiset{x}
  {
    if s == [] || !Before(s[0], x, newestFirst) then [x] + s
    else
      assert s == [s[0]] + s[1..];
      [s[0]] + Insert(x, s[1..], newestFirst)
  }

  /** std::sort. Snapshots that rank differently have one sorted order, whatever the algorithm. */
  function Sort(s: seq<SnapshotInfo>, newestFirst: bool): (r: seq<SnapshotInfo>)
    ensures multiset(r) == multiset(s)
  {
    if s == [] then []
    else
      assert s == s[..|s| - 1] + [s[|s| - 1]];
      Insert(s[|s| - 1], Sort(s[..|s| - 1], newestFirst), newestFirst)
  }

  lemma SortedCons(x: SnapshotInfo, s: seq<SnapshotInfo>, newestFirst: bool)
    requires Sorted(s, newestFirst)
    requires forall y :: y in s ==> !Before(y, x, newestFirst)
    ensures Sorted([x] + s, newestFirst)
  {
    var t := [x] + s;
    forall i, j | 0 <= i < j < |t| ensures !Before(t[j], t[i], newestFirst) {
      assert t[j] == s[j - 1];
      if i > 0 {
        assert t[i] == s[i - 1];
      }
    }
  }

  lemma {:induction false} InsertSorts(x: SnapshotInfo, s: seq<SnapshotInfo>, newestFirst: bool)
    requires Sorted(s, newestFirst)
    ensures Sorted(Insert(x, s, newestFirst), newestFirst)
  {
    if s != [] {
      forall y | y in s ensures !Before(y, s[0], newestFirst) {
        BeforeIsIrreflexive(s[0], newestFirst);
      }
      if !Before(s[0], x, newestFirst) {
        forall y | y in s ensures !Before(y, x, newestFirst) {
          if newestFirst {
            OlderIsNegativelyTransitive(x, s[0], y);
          } else {
            OlderIsNegativelyTransitive(y, s[0], x);
          }
        }
        SortedCons(x, s, newestFirst);
      } else {
        var rest := Insert(x, s[1..], newestFirst);
        InsertSorts(x, s[1..], newestFirst);
        forall y | y in rest ensures !Before(y, s[0], newestFirst) {
          assert y in multiset(rest);
          if y != x {
            assert y in s[1..];
          } else if newestFirst {
            OlderIsAsymmetric(x, s[0]);
          } else {
            OlderIsAsymmetric(s[0], x);
          }
        }
        SortedCons(s[0], rest, newestFirst);
      }
    }
  }

  lemma BeforeIsIrreflexive(x: SnapshotInfo, newestFirst: bool)
    ensures !Before(x, x, newestFirst)
  {
    LessIrreflexive(PathText(x.path));
  }

  lemma {:induction false} SortSorts(s: seq<SnapshotInfo>, newestFirst: bool)
    ensures Sorted(Sort(s, newestFirst), newestFirst)
  {
    if s != [] {
      SortSorts(s[..|s| - 1], newestFirst);
      InsertSorts(s[|s| - 1], Sort(s[..|s| - 1], newestFirst), newestFirst);
    }
  }

  // ---- names ----

  /** parse_snapshot_name; Undefined when the parsed time overflows the clock's range. */
  datatype NameParse = NotASnapshot | Undefined | Named(timestamp: TimePoint, sequence: nat)

  function ParseName(name: string, sourceId: string): NameParse {
    var prefix := sourceId + "-";
    if !(prefix <= name) then NotASnapshot else ParseRest(name[|prefix|..])
  }

  function ParseRest(rest: string): NameParse {
    if |rest| != 18 && |rest| != 21 then NotASnapshot
    else
      var timestamp := ParseUtc(rest[..18]);
      if timestamp.Invalid? then NotASnapshot
      else if timestamp.Overflow? then Undefined
      else if |rest| == 18 then Named(timestamp.time, 0)
      else
        var sequence := DecimalValue(rest[19..21]);
        if rest[18] != '-' || sequence.None? || sequence.value == 0 then NotASnapshot
        else Named(timestamp.time, sequence.value)
  }

  function SequenceSuffix(sequence: nat): string {
    if sequence == 0 then "" else "-" + Digits(sequence, 2)
  }

  function NameInSecond(base: string, sequence: nat): string {
    base + SequenceSuffix(sequence)
  }

  ghost function BaseName(sourceId: string, t: TimePoint): string {
    sourceId + "-" + FormatUtc(t, true)
  }

  /** The name of the snapshot of a source taken in the second of t, with a sequence number if not 0. */
  ghost function SnapshotName(sourceId: string, t: TimePoint, sequence: nat): string {
    NameInSecond(BaseName(sourceId, t), sequence)
  }

  lemma CompactLength(t: TimePoint)
    ensures |FormatUtc(t, true)| == 18
  {}

  lemma ParseComposedName(sourceId: string, stamp: string, sequence: nat)
    requires |stamp| == 18 && sequence <= 99
    ensures ParseName(NameInSecond(sourceId + "-" + stamp, sequence), sourceId) ==
            match ParseUtc(stamp)
            case Invalid => NotASnapshot
            case Overflow => Undefined
            case At(t) => Named(t, sequence)
  {
    var prefix := sourceId + "-";
    var suffix := SequenceSuffix(sequence);
    var name := NameInSecond(prefix + stamp, sequence);
    var rest := name[|prefix|..];
    assert rest == stamp + suffix;
    assert rest[..18] == stamp;
    if sequence != 0 {
      assert rest[19..21] == Digits(sequence, 2);
      assert Power10(2) == 100;
      DigitsRoundTrip(sequence, 2);
    }
  }

  /** An allocated name parses back to its source, second and sequence. */
  lemma NameParsesBack(sourceId: string, t: TimePoint, sequence: nat)
    requires sequence <= 99
    ensures ParseName(SnapshotName(sourceId, t, sequence), sourceId) ==
            if Representable(DayStart(t)) then Named(FloorSeconds(t) * NS_PER_SECOND, sequence) else Undefined
  {
    CompactLength(t);
    ParseComposedName(sourceId, FormatUtc(t, true), sequence);
    RoundTrip(t, true);
  }

  lemma SuffixPieces(digits: string)
    requires |digits| == 2 && DecimalValue(digits).Some? && DecimalValue(digits).value != 0
    ensures DecimalValue(digits).value <= 99 && SequenceSuffix(DecimalValue(digits).value) == "-" + digits
  {
    assert Power10(2) == 100;
    DecimalRoundTrip(digits);
  }

  lemma RestPieces(rest: string)
    requires ParseRest(rest).Named?
    ensures |rest| >= 18 && ParseRest(rest).sequence <= 99
    ensures rest == rest[..18] + SequenceSuffix(ParseRest(rest).sequence)
  {
    if |rest| == 18 {
      assert rest[..18] == rest;
    } else {
      SuffixPieces(rest[19..21]);
      assert rest == rest[..18] + ("-" + rest[19..21]);
    }
  }

  lemma Reassociate(a: string, b: string, c: string)
    ensures a + (b + c) == a + b + c
  {}

  /** Conversely a name that parses is the name allocated for what it parses to. */
  lemma ParsedNameIsAllocated(name: string, sourceId: string)
    requires ParseName(name, sourceId).Named?
    ensures var p := ParseName(name, sourceId);
            p.sequence <= 99 && name == SnapshotName(sourceId, p.timestamp, p.sequence)
  {
    var prefix := sourceId + "-";
    var rest := name[|prefix|..];
    assert name == prefix + rest;
    RestPieces(rest);
    PrintedFormIsUnique(rest[..18]);
    Reassociate(prefix, rest[..18], SequenceSuffix(ParseRest(rest).sequence));
  }

  /** No name belongs to two sources, whatever dashes or timestamps their identifiers contain. */
  lemma NameHasOneSource(name: string, first: string, second: string)
    requires !ParseName(name, first).NotASnapshot? && !ParseName(name, second).NotASnapshot?
    ensures first == second
  {
    assert |first| == |second|;
    assert first == name[..|first|] == second;
  }

  /** Names of one second and different sequence numbers differ. */
  lemma SequenceDistinguishesNames(base: string, i: nat, j: nat)
    requires i < j <= 99
    ensures NameInSecond(base, i) != NameInSecond(base, j)
  {
    var a, b := base + SequenceSuffix(i), base + SequenceSuffix(j);
    if i == 0 {
      assert |a| < |b|;
    } else if a == b {
      assert Digits(i, 2) == a[|a| - 2..] == b[|b| - 2..] == Digits(j, 2);
      assert Power10(2) == 100;
      DigitsRoundTrip(i, 2);
      DigitsRoundTrip(j, 2);
    }
  }

  ghost predicate NameTaken(snapshots: seq<SnapshotInfo>, name: string) {
    exists i :: 0 <= i < |snapshots| && snapshots[i].name == name
  }

  method NameExists(snapshots: seq<SnapshotInfo>, name: string) returns (found: bool)
    ensures found == NameTaken(snapshots, name)
  {
    for i := 0 to |snapshots|
      invariant forall j :: 0 <= j < i ==> snapshots[j].name != name
    {
      if snapshots[i].name == name {
        return true;
      }
    }
    return false;
  }

  /** The allocated name is the first of the 100 names of the second that no local snapshot has. */
  ghost predicate IsFirstFree(base: string, local: seq<SnapshotInfo>, r: Option<string>) {
    match r
    case None => forall k :: 0 <= k <= 99 ==> NameTaken(local, NameInSecond(base, k))
    case Some(name) =>
      exists k ::
        && 0 <= k <= 99
        && name == NameInSecond(base, k)
        && !NameTaken(local, name)
        && forall j :: 0 <= j < k ==> NameTaken(local, NameInSecond(base, j))
  }

  /** The loop over the sequence numbers; `name` gives the candidate for each. */
  method FirstFreeSequence(name: nat -> string, local: seq<SnapshotInfo>) returns (k: nat)
    ensures k <= 100 && (k < 100 ==> !NameTaken(local, name(k))) && forall j :: 0 <= j < k ==> NameTaken(local, name(j))
  {
    var taken := NameExists(local, name(0));
    if !taken { return 0; }
    k := 1;
    while k <= 99
      invariant 1 <= k <= 100
      invariant forall j :: 0 <= j < k ==> NameTaken(local, name(j))
    {
      taken := NameExists(local, name(k));
      if !taken { return; }
      k := k + 1;
    }
  }

  method FirstFreeName(base: string, local: seq<SnapshotInfo>) returns (r: Option<string>)
    ensures IsFirstFree(base, local, r)
  {
    var name := (k: nat) => NameInSecond(base, k);
    var k := FirstFreeSequence(name, local);
    if k == 100 {
      AllTaken(base, local, name);
      return None;
    }
    FreeAt(base, local, name, k);
    return Some(name(k));
  }

  lemma FreeAt(base: string, local: seq<SnapshotInfo>, name: nat -> string, k: nat)
    requires forall j :: name(j) == NameInSecond(base, j)
    requires k <= 99 && !NameTaken(local, name(k)) && forall j :: 0 <= j < k ==> NameTaken(local, name(j))
    ensures IsFirstFree(base, local, Some(name(k)))
  {
    assert forall j :: 0 <= j < k ==> NameTaken(local, NameInSecond(base, j)) by {
      forall j | 0 <= j < k ensures NameTaken(local, NameInSecond(base, j)) { assert NameTaken(local, name(j)); }
    }
  }

  lemma AllTaken(base: string, local: seq<SnapshotInfo>, name: nat -> string)
    requires forall j :: name(j) == NameInSecond(base, j)
    requires forall j :: 0 <= j < 100 ==> NameTaken(local, name(j))
    ensures IsFirstFree(base, local, None)
  {
    forall k | 0 <= k <= 99 ensures NameTaken(local, NameInSecond(base, k)) {
      assert NameTaken(local, name(k));
    }
  }

  method PlannedSnapshotName(sourceId: string, t: TimePoint, local: seq<SnapshotInfo>) returns (r: Option<string>)
    ensures IsFirstFree(BaseName(sourceId, t), local, r)
  {
    var timestampText := FormatUtcTimestamp(t, true);
    r := FirstFreeName(sourceId + "-" + timestampText, local);
  }
}
