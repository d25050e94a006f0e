/** The share of a target file system that is in use, as a whole percentage. */
module TargetStorage {
  import opened Core

  datatype FilesystemSpace = FilesystemSpace(capacity: UInt64, free: UInt64, available: UInt64) {

    predicate Valid() {
      free <= capacity && available <= free
    }

    function UsedBytes(): UInt64 {
      if Valid() then capacity - free else 0
    }
  }

  /** p is the least whole percentage that is not below used / (used + available). */
  ghost predicate IsCeiling(p: int, used: int, total: int) {
    total * (p - 1) < 100 * used <= total * p
  }

  /** The percentage a user is promised. */
  ghost predicate IsUsage(s: FilesystemSpace, p: int) {
    var used, available := s.capacity as int - s.free as int, s.available as int;
    if s.free > s.capacity || s.available > s.free || used == 0 then p == 0 else IsCeiling(p, used, used + available)
  }

  /** Splitting the total avoids the product total * p, and loses nothing. */
  lemma SplitThreshold(total: nat, p: nat)
    ensures total / 100 * p + total % 100 * p / 100 == total * p / 100
  {
    var w, r := total / 100, total % 100;
    assert total == 100 * w + r;
    assert total * p == 100 * (w * p) + r * p by { assert (100 * w + r) * p == 100 * w * p + r * p; }
  }

  lemma WithinThreshold(used: nat, total: nat, p: nat)
    ensures used <= total * p / 100 <==> 100 * used <= total * p
  {}

  lemma ThresholdFits(total: nat, p: nat)
    requires p <= 100
    ensures total / 100 * p + total % 100 * p / 100 <= total
  {
    SplitThreshold(total, p);
    assert total * p <= total * 100;
  }

  method UsagePercent(s: FilesystemSpace) returns (percent: int)
    ensures 0 <= percent <= 100
    ensures IsUsage(s, percent)
  {
    if !s.Valid() { return 0; }
    var used := s.UsedBytes();
    var total := used + s.available;
    if total == 0 || used == 0 { return 0; }
    var wholePercent, remainder := total / 100, total % 100;
    percent := 1;
    while percent <= 100
      invariant 1 <= percent <= 101
      invariant total as int * (percent - 1) < 100 * used as int
    {
      var value := percent as UInt64;
      SplitThreshold(total as int, percent);
      ThresholdFits(total as int, percent);
      WithinThreshold(used as int, total as int, percent);
      WholeFits(total as int, percent);
      var threshold := wholePercent * value + remainder * value / 100;
      if used <= threshold { return percent; }
      percent := percent + 1;
    }
    // the total itself is the threshold at 100, so the loop has returned
    assert false;
  }

  lemma WholeFits(total: nat, p: nat)
    requires p <= 100
    ensures 0 <= total / 100 * p <= total && 0 <= total % 100 * p < 10000
  {
    assert total / 100 * p <= total / 100 * 100;
    assert total % 100 * p <= 99 * p;
  }

  lemma Cancel(total: nat, x: int, y: int)
    requires total * x < total * y
    ensures x < y
  {
    assert total * (y - x) > 0;
  }

  /** The percentage is unique, so it does not depend on how it is found. */
  lemma UsageIsUnique(s: FilesystemSpace, p: int, q: int)
    requires IsUsage(s, p) && IsUsage(s, q)
    ensures p == q
  {
    if s.Valid() && s.UsedBytes() != 0 {
      var total := s.UsedBytes() as int + s.available as int;
      Cancel(total, p - 1, q);
      Cancel(total, q - 1, p);
    }
  }
}
