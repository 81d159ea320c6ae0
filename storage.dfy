/** `SystemMetricsService.GetStorageInfo`: the sizes of the ready fixed and
    removable drives, summed as unchecked `ulong`s. */
module StorageMetrics {
  import opened Wrappers
  import opened Text

  datatype DriveType = Unknown | NoRootDirectory | Removable | Fixed | Network | CDRom | Ram

  /** A drive as `DriveInfo` shows it; `None` for a size whose property
      getter throws. */
  datatype Drive = Drive(isReady: bool, driveType: DriveType, totalSize: Option<u64>, totalFreeSpace: Option<u64>)

  /** What `GetStorageInfo` returns. */
  datatype StorageInfo = StorageInfo(total: u64, free: u64, used: u64, usedPercent: real)

  /** The filter of `GetStorageInfo`: ready, and fixed or removable. */
  predicate Counted(d: Drive) {
    d.isReady && (d.driveType == Fixed || d.driveType == Removable)
  }

  function WrappingAdd(a: u64, b: u64): (r: u64)
    ensures r == (a + b) % U64_LIMIT
  {
    (a + b) % U64_LIMIT
  }

  /** One pass of the loop body: `total += TotalSize; free += TotalFreeSpace;`
      inside a `try` that swallows the failure, so a failing total adds
      nothing and a failing free space keeps the total already added. */
  function AddDrive(sums: (u64, u64), d: Drive): (r: (u64, u64))
  {
    if !Counted(d) || d.totalSize.None? then sums
    else
      var total := WrappingAdd(sums.0, d.totalSize.value);
      if d.totalFreeSpace.None? then (total, sums.1) else (total, WrappingAdd(sums.1, d.totalFreeSpace.value))
  }

  /** The sums after the loop has seen `drives`, in order. */
  function Sums(drives: seq<Drive>): (u64, u64) {
    if drives == [] then (0, 0) else AddDrive(Sums(drives[..|drives| - 1]), drives[|drives| - 1])
  }

  /** The bytes a drive contributes to the total. */
  function TotalPart(d: Drive): nat {
    if Counted(d) && d.totalSize.Some? then d.totalSize.value else 0
  }

  /** The bytes a drive contributes to the free space. */
  function FreePart(d: Drive): nat {
    if Counted(d) && d.totalSize.Some? && d.totalFreeSpace.Some? then d.totalFreeSpace.value else 0
  }

  function TotalOf(drives: seq<Drive>): nat {
    if drives == [] then 0 else TotalOf(drives[..|drives| - 1]) + TotalPart(drives[|drives| - 1])
  }

  function FreeOf(drives: seq<Drive>): nat {
    if drives == [] then 0 else FreeOf(drives[..|drives| - 1]) + FreePart(drives[|drives| - 1])
  }

  /** The sums are the exact totals over the counted drives, reduced
      modulo 2^64. */
  lemma {:induction false} SumsAreWrappedTotals(drives: seq<Drive>)
    ensures Sums(drives).0 == TotalOf(drives) % U64_LIMIT
    ensures Sums(drives).1 == FreeOf(drives) % U64_LIMIT
  {
    if drives != [] {
      var init := drives[..|drives| - 1];
      SumsAreWrappedTotals(init);
      WrapAddLeft(TotalOf(init), TotalPart(drives[|drives| - 1]));
      WrapAddLeft(FreeOf(init), FreePart(drives[|drives| - 1]));
    }
  }

  /** A drive that is not ready, or neither fixed nor removable, changes
      nothing wherever it appears. */
  lemma {:induction false} UncountedDriveIgnored(before: seq<Drive>, d: Drive, after: seq<Drive>)
    requires !Counted(d)
    ensures Sums(before + [d] + after) == Sums(before + after)
    decreases |after|
  {
    if after == [] {
      assert (before + [d] + after)[..|before| + 1 - 1] == before;
      assert before + after == before;
    } else {
      var init := after[..|after| - 1];
      UncountedDriveIgnored(before, d, init);
      assert (before + [d] + after)[..|before + [d] + after| - 1] == before + [d] + init;
      assert (before + after)[..|before + after| - 1] == before + init;
    }
  }

  /** The figures derived from the sums: used floored at 0 and the used
      share, 0 for a zero total. */
  function Summary(total: u64, free: u64): (r: StorageInfo)
    ensures r.total == total && r.free == free
    ensures total > free ==> r.used == total - free
    ensures total <= free ==> r.used == 0
    ensures r.used <= total
    ensures total == 0 ==> r.usedPercent == 0.0
    ensures 0.0 <= r.usedPercent <= 100.0
  {
    var used := if total > free then total - free else 0;
    var pct := if total > 0 then UsedShare(used, total) else 0.0;
    StorageInfo(total, free, used, pct)
  }

  /** `used / total * 100` for a used part within the total. */
  function UsedShare(used: nat, total: nat): (pct: real)
    requires used <= total && total > 0
    ensures 0.0 <= pct <= 100.0
    ensures pct == used as real / total as real * 100.0
  {
    RatioInUnitInterval(used as real, total as real);
    used as real / total as real * 100.0
  }

  /** `GetStorageInfo` as a value: `None` stands for `DriveInfo.GetDrives`
      throwing, which the outer `catch` turns into zeros. */
  function StorageOf(drives: Option<seq<Drive>>): (r: StorageInfo)
    ensures drives.None? ==> r == StorageInfo(0, 0, 0, 0.0)
  {
    match drives
    case None => StorageInfo(0, 0, 0, 0.0)
    case Some(ds) => Summary(Sums(ds).0, Sums(ds).1)
  }

  /** `GetStorageInfo`: the `foreach` over the drives. */
  method GetStorageInfo(drives: Option<seq<Drive>>) returns (info: StorageInfo)
    ensures info == StorageOf(drives)
  {
    if drives.None? {
      return StorageInfo(0, 0, 0, 0.0);
    }
    var ds := drives.value;
    var total: u64, free: u64 := 0, 0;
    for i := 0 to |ds|
      invariant (total, free) == Sums(ds[..i])
    {
      var d := ds[i];
      assert ds[..i + 1][..i] == ds[..i];
      if Counted(d) && d.totalSize.Some? {
        total := WrappingAdd(total, d.totalSize.value);
        if d.totalFreeSpace.Some? {
          free := WrappingAdd(free, d.totalFreeSpace.value);
        }
      }
    }
    assert ds[..|ds|] == ds;
    var used := if total > free then total - free else 0;
    var pct := if total > 0 then used as real / total as real * 100.0 else 0.0;
    info := StorageInfo(total, free, used, pct);
  }

  /** Without drives everything is zero. */
  lemma NoDrives()
    ensures StorageOf(Some([])) == StorageInfo(0, 0, 0, 0.0)
  {
  }

  /** One ready fixed drive of 100 bytes with 40 free: 60 used, 60 percent. */
  lemma OneFixedDrive()
    ensures StorageOf(Some([Drive(true, Fixed, Some(100), Some(40))])) == StorageInfo(100, 40, 60, 60.0)
  {
    assert [Drive(true, Fixed, Some(100), Some(40))][..0] == [];
  }
}
