/** `SystemMetricsService.GetMemoryInfo`: the container limit and usage
    when a limit is set, `/proc/meminfo` otherwise, and the garbage
    collector's figures on hosts other than Linux. */
module MemoryMetrics {
  import opened Wrappers
  import opened Text
  import opened ContainerLimits

  /** What `GetMemoryInfo` returns. */
  datatype MemoryInfo = MemoryInfo(total: u64, free: u64, usedPercent: real)

  /** `a > b ? a - b : 0UL`. */
  function SaturatingSub(a: u64, b: u64): (r: u64)
    ensures a > b ==> r == a - b
    ensures a <= b ==> r == 0
  {
    if a > b then a - b else 0
  }

  /** `used / total * 100`, 0 for a zero total. */
  function Percent(used: nat, total: nat): (pct: real)
    ensures total == 0 ==> pct == 0.0
    ensures total > 0 ==> pct == used as real / total as real * 100.0
    ensures pct >= 0.0
  {
    if total > 0 then
      NonNegativeQuotient(used as real, total as real);
      used as real / total as real * 100.0
    else 0.0
  }

  lemma NonNegativeQuotient(a: real, b: real)
    requires a >= 0.0 && b > 0.0
    ensures a / b >= 0.0
  {
    assert (a / b) * b == a;
  }

  /** A usage within the total is at most 100 percent. */
  lemma PercentAtMostHundred(used: nat, total: nat)
    requires used <= total
    ensures Percent(used, total) <= 100.0
  {
    if total > 0 {
      var q := used as real / total as real;
      assert q * total as real == used as real;
    }
  }

  /** The container branch: the limit as the total, free floored at 0 and
      the usage share not clamped (a usage above the limit reads over 100). */
  function ContainerMemory(limit: u64, used: u64): (r: MemoryInfo)
    requires limit > 0
    ensures r.total == limit
    ensures used <= limit ==> r.free + used == limit
    ensures used >= limit ==> r.free == 0
    ensures r.usedPercent == used as real / limit as real * 100.0
  {
    MemoryInfo(limit, SaturatingSub(limit, used), Percent(used, limit))
  }

  /** Over the limit the usage share is above 100 percent. */
  lemma ContainerOverLimit(limit: u64, used: u64)
    requires 0 < limit < used
    ensures ContainerMemory(limit, used).usedPercent > 100.0
  {
    RatioAboveOne(used as real, limit as real);
  }

  /** The line `FirstOrDefault(l => l.StartsWith(key, OrdinalIgnoreCase))`
      selects: its index, or `|lines|` without one. */
  function FirstWithKey(lines: seq<string>, key: string): (r: nat)
    ensures r <= |lines|
    ensures forall j :: 0 <= j < r ==> !StartsWithIgnoreCase(lines[j], key)
    ensures r < |lines| ==> StartsWithIgnoreCase(lines[r], key)
  {
    if lines == [] || StartsWithIgnoreCase(lines[0], key) then 0 else FirstWithKey(lines[1..], key) + 1
  }

  lemma {:induction false} FirstWithKeyAt(lines: seq<string>, key: string, i: nat)
    requires i < |lines| && StartsWithIgnoreCase(lines[i], key)
    requires forall j :: 0 <= j < i ==> !StartsWithIgnoreCase(lines[j], key)
    ensures FirstWithKey(lines, key) == i
  {
    if i > 0 {
      FirstWithKeyAt(lines[1..], key, i - 1);
    }
  }

  /** The number of kB one `/proc/meminfo` line states: the second piece of
      `Regex.Split(line, @"\s+")` when it parses, otherwise 0. */
  function LineKb(line: string): u64 {
    var parts := SplitOnWhiteRuns(line);
    if |parts| < 2 then 0 else ParseU64(parts[1]).GetOr(0)
  }

  /** `ReadKb(key)`: the value of the first line that starts with `key`,
      ignoring case, and 0 when no line does. */
  function ReadKb(lines: seq<string>, key: string): (kb: u64)
    ensures (forall j :: 0 <= j < |lines| ==> !StartsWithIgnoreCase(lines[j], key)) ==> kb == 0
  {
    var i := FirstWithKey(lines, key);
    if i == |lines| then 0 else LineKb(lines[i])
  }

  /** Only the first matching line counts. */
  lemma ReadKbFirstLine(lines: seq<string>, key: string, i: nat)
    requires i < |lines| && StartsWithIgnoreCase(lines[i], key)
    requires forall j :: 0 <= j < i ==> !StartsWithIgnoreCase(lines[j], key)
    ensures ReadKb(lines, key) == LineKb(lines[i])
  {
    FirstWithKeyAt(lines, key, i);
  }

  /** A `/proc/meminfo` line as the kernel writes it, the key, a run of
      white space, the digits and an optional " kB", reads as that value. */
  lemma LineKbOfField(key: string, pad: string, digits: string, unit: string)
    requires FirstWhite(key) == |key|
    requires pad != [] && forall j :: 0 <= j < |pad| ==> IsWhiteSpace(pad[j])
    requires IsDigitString(digits) && DigitsValue(digits) < U64_LIMIT
    requires unit == "" || unit == " kB"
    ensures LineKb(key + pad + digits + unit) == DigitsValue(digits)
  {
    var tail := digits + unit;
    assert key + pad + digits + unit == key + pad + tail;
    DigitsThenUnit(digits, unit);
    KeyPadSplit(key, pad, tail);
    ParseU64OfDigits(digits);
  }

  /** After the key and its padding, the second piece is the first piece of
      what follows. */
  lemma KeyPadSplit(key: string, pad: string, tail: string)
    requires FirstWhite(key) == |key|
    requires pad != [] && forall j :: 0 <= j < |pad| ==> IsWhiteSpace(pad[j])
    requires tail != [] && !IsWhiteSpace(tail[0])
    ensures |SplitOnWhiteRuns(key + pad + tail)| >= 2
    ensures SplitOnWhiteRuns(key + pad + tail)[1] == SplitOnWhiteRuns(tail)[0]
  {
    var line := key + pad + tail;
    assert forall j :: 0 <= j < |key| ==> line[j] == key[j];
    assert line[|key|] == pad[0];
    FirstWhiteAt(line, |key|);
    assert line[|key|..] == pad + tail;
    TrimPadding(pad, tail);
  }

  /** The digits are the first piece of "digits" and of "digits kB". */
  lemma DigitsThenUnit(digits: string, unit: string)
    requires IsDigitString(digits)
    requires unit == "" || unit == " kB"
    ensures digits + unit != [] && !IsWhiteSpace((digits + unit)[0])
    ensures SplitOnWhiteRuns(digits + unit)[0] == digits
  {
    var tail := digits + unit;
    DigitsHaveNoWhite(digits);
    if unit == "" {
      assert tail == digits;
    } else {
      assert forall j :: 0 <= j < |digits| ==> tail[j] == digits[j];
      FirstWhiteAt(tail, |digits|);
      assert tail[..|digits|] == digits;
    }
  }

  /** White space in front of a word is what `TrimStart` removes. */
  lemma {:induction false} TrimPadding(pad: string, tail: string)
    requires forall j :: 0 <= j < |pad| ==> IsWhiteSpace(pad[j])
    requires tail != [] && !IsWhiteSpace(tail[0])
    ensures TrimStart(pad + tail) == tail
  {
    if pad == [] {
      assert pad + tail == tail;
    } else {
      assert (pad + tail)[1..] == pad[1..] + tail;
      TrimPadding(pad[1..], tail);
    }
  }

  lemma FirstWhiteAt(s: string, i: nat)
    requires i < |s| && IsWhiteSpace(s[i])
    requires forall j :: 0 <= j < i ==> !IsWhiteSpace(s[j])
    ensures FirstWhite(s) == i
  {
    if i > 0 {
      FirstWhiteAt(s[1..], i - 1);
    }
  }

  lemma DigitsHaveNoWhite(digits: string)
    requires AllDigits(digits)
    ensures FirstWhite(digits) == |digits|
  {
    if digits != [] {
      DigitsHaveNoWhite(digits[1..]);
    }
  }

  /** kB to bytes as unchecked `ulong` arithmetic: `kb * 1024` wraps. */
  function KbToBytes(kb: u64): (bytes: u64)
    ensures kb < U64_LIMIT / 1024 ==> bytes == kb * 1024
  {
    (kb * 1024) % U64_LIMIT
  }

  /** The free figure of `/proc/meminfo`: `MemAvailable`, or `MemFree`
      when the former reads 0 (absent, unparsable or really 0). */
  function FreeKb(lines: seq<string>): (kb: u64)
    ensures ReadKb(lines, "MemAvailable:") != 0 ==> kb == ReadKb(lines, "MemAvailable:")
    ensures ReadKb(lines, "MemAvailable:") == 0 ==> kb == ReadKb(lines, "MemFree:")
  {
    var available := ReadKb(lines, "MemAvailable:");
    if available == 0 then ReadKb(lines, "MemFree:") else available
  }

  /** The host branch of `GetMemoryInfo` over the lines of `/proc/meminfo`. */
  function HostMemory(lines: seq<string>): (r: MemoryInfo)
    ensures r.total == KbToBytes(ReadKb(lines, "MemTotal:")) && r.free == KbToBytes(FreeKb(lines))
    ensures ReadKb(lines, "MemTotal:") == 0 ==> r.usedPercent == 0.0
    ensures 0 < ReadKb(lines, "MemTotal:") ==>
      r.usedPercent == (1.0 - FreeKb(lines) as real / ReadKb(lines, "MemTotal:") as real) * 100.0
  {
    var totalKb := ReadKb(lines, "MemTotal:");
    var freeKb := FreeKb(lines);
    var pct := if totalKb > 0 then (1.0 - freeKb as real / totalKb as real) * 100.0 else 0.0;
    MemoryInfo(KbToBytes(totalKb), KbToBytes(freeKb), pct)
  }

  /** When the free figure is within the total the share lies in [0, 100]. */
  lemma HostPercentBounds(lines: seq<string>)
    requires 0 < ReadKb(lines, "MemTotal:") && FreeKb(lines) <= ReadKb(lines, "MemTotal:")
    ensures 0.0 <= HostMemory(lines).usedPercent <= 100.0
  {
    RatioInUnitInterval(FreeKb(lines) as real, ReadKb(lines, "MemTotal:") as real);
  }

  /** Where `GetMemoryInfo` takes its figures from. */
  datatype MemorySource =
    | Linux(files: CgroupFiles, meminfo: Option<seq<string>>)
    | OtherHost(totalAvailable: u64, gcUsed: u64)

  /** `GetMemoryInfo`. Reading `/proc/meminfo` is not guarded: a missing
      file escapes as an error when no container limit is set. */
  function MemoryInfoOf(source: MemorySource): (r: Result<MemoryInfo>)
    ensures source.Linux? && MemoryLimit(source.files) > 0 ==>
      r == Ok(ContainerMemory(MemoryLimit(source.files), MemoryUsage(source.files)))
    ensures source.Linux? && MemoryLimit(source.files) == 0 ==>
      (r.Ok? <==> source.meminfo.Some?) && (r.Ok? ==> r.value == HostMemory(source.meminfo.value))
    ensures source.OtherHost? ==> r == Ok(MemoryInfo(source.totalAvailable,
      SaturatingSub(source.totalAvailable, source.gcUsed), Percent(source.gcUsed, source.totalAvailable)))
  {
    match source
    case OtherHost(total, used) =>
      Ok(MemoryInfo(total, SaturatingSub(total, used), Percent(used, total)))
    case Linux(files, meminfo) =>
      var limit := MemoryLimit(files);
      if limit > 0 then Ok(ContainerMemory(limit, MemoryUsage(files)))
      else
        match meminfo
        case None => Err("FileNotFoundException")
        case Some(lines) => Ok(HostMemory(lines))
  }
}
