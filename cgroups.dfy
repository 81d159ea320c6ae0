/** The container limits `SystemMetricsService` reads from the cgroup
    pseudo-files: `GetContainerCpuLimit`, `GetContainerMemoryLimit` and
    `GetContainerMemoryUsage`. Each probe runs inside one `try`: a file that
    exists but cannot be read raises, and the `catch` ends the probe with 0
    before any later file is looked at. */
module ContainerLimits {
  import opened Wrappers
  import opened Text

  /** A pseudo-file as a probe finds it: absent (`File.Exists` is false),
      present but unreadable (`File.ReadAllText` throws), or its text. */
  datatype CgroupFile = Missing | Unreadable | Readable(content: string)

  /** The cgroup v1 and v2 files the probes look at. */
  datatype CgroupFiles = CgroupFiles(
    cpuMax: CgroupFile,             // /sys/fs/cgroup/cpu.max (v2)
    cfsQuota: CgroupFile,           // /sys/fs/cgroup/cpu/cpu.cfs_quota_us (v1)
    cfsPeriod: CgroupFile,          // /sys/fs/cgroup/cpu/cpu.cfs_period_us (v1)
    cpuShares: CgroupFile,          // /sys/fs/cgroup/cpu/cpu.shares (v1)
    memoryMax: CgroupFile,          // /sys/fs/cgroup/memory.max (v2)
    memoryLimitInBytes: CgroupFile, // /sys/fs/cgroup/memory/memory.limit_in_bytes (v1)
    memoryStat: CgroupFile,         // /sys/fs/cgroup/memory/memory.stat (v1)
    memoryCurrent: CgroupFile,      // /sys/fs/cgroup/memory.current (v2)
    memoryUsageInBytes: CgroupFile) // /sys/fs/cgroup/memory/memory.usage_in_bytes (v1)

  /** A host that is not in a container. */
  const NoCgroupFiles := CgroupFiles(Missing, Missing, Missing, Missing, Missing, Missing, Missing, Missing, Missing)

  /** What one step of a probe gives: a value to return, nothing (the next
      file is tried), or an exception, which the `catch` turns into 0. */
  datatype Probe<T> = Found(value: T) | NotFound | Failed

  /** Values from 2^62 up are the kernel's "unlimited" default, not a limit. */
  const UnlimitedSentinel: nat := 0x4000_0000_0000_0000

  /** The `shares` value a cgroup has when nobody restricted it. */
  const DefaultShares: real := 1024.0

  /** A count as the kernel writes it into a pseudo-file. */
  function FileLine(n: nat): string {
    NatToString(n) + "\n"
  }

  lemma TrimFileLine(n: nat)
    ensures Trim(FileLine(n)) == NatToString(n)
    ensures ' ' !in NatToString(n)
  {
    DigitsHaveNoWhiteSpace(NatToString(n));
    TrimNewline(NatToString(n));
  }

  // ---------------------------------------------------------------------
  // CPU

  /** `quota period` from a cgroup v2 `cpu.max`: exactly two fields split
      at single spaces, the first not "max", both numbers. */
  function CpuMaxPair(content: string): (r: Option<(real, real)>)
    ensures var parts := Split(Trim(content), ' ');
      r.Some? <==> |parts| == 2 && parts[0] != "max" && ParseReal(parts[0]).Some? && ParseReal(parts[1]).Some?
    ensures var parts := Split(Trim(content), ' ');
      r.Some? ==> r.value == (ParseReal(parts[0]).value, ParseReal(parts[1]).value)
  {
    var parts := Split(Trim(content), ' ');
    if |parts| == 2 && parts[0] != "max" then
      match (ParseReal(parts[0]), ParseReal(parts[1]))
      case (Some(quota), Some(period)) => Some((quota, period))
      case _ => None
    else None
  }

  /** The `cpu.max` line the kernel writes for a quota and a period. */
  function CpuMaxLine(quota: nat, period: nat): string {
    NatToString(quota) + " " + NatToString(period) + "\n"
  }

  /** The kernel's `quota period` line reads back as the two numbers. */
  lemma CpuMaxPairOfCounts(quota: nat, period: nat)
    ensures CpuMaxPair(CpuMaxLine(quota, period)) == Some((quota as real, period as real))
  {
    var a, b := NatToString(quota), NatToString(period);
    var line := a + " " + b;
    DigitsHaveNoWhiteSpace(a);
    DigitsHaveNoWhiteSpace(b);
    assert line + "\n" == CpuMaxLine(quota, period);
    TrimNewline(line);
    SplitTwoFields(a, b, ' ');
    ParseRealOfNatToString(quota);
    ParseRealOfNatToString(period);
  }

  /** The unlimited `max period` line of `cpu.max` gives no pair. */
  lemma CpuMaxPairOfUnlimited(period: nat)
    ensures CpuMaxPair("max " + NatToString(period) + "\n") == None
  {
    var b := NatToString(period);
    DigitsHaveNoWhiteSpace(b);
    TrimNewline("max " + b);
    SplitTwoFields("max", b, ' ');
  }

  /** The division `quota / period` of the v2 branch is defined. */
  predicate CpuMaxPeriodNonZero(files: CgroupFiles) {
    files.cpuMax.Readable? && CpuMaxPair(files.cpuMax.content).Some? ==> CpuMaxPair(files.cpuMax.content).value.1 != 0.0
  }

  /** The cgroup v2 step of `GetContainerCpuLimit`. */
  function V2CpuLimit(files: CgroupFiles): (r: Probe<real>)
    requires CpuMaxPeriodNonZero(files)
    ensures r.Failed? <==> files.cpuMax.Unreadable?
    ensures r.Found? <==> files.cpuMax.Readable? && CpuMaxPair(files.cpuMax.content).Some?
    ensures r.Found? ==> r.value == CpuMaxPair(files.cpuMax.content).value.0 / CpuMaxPair(files.cpuMax.content).value.1
  {
    match files.cpuMax
    case Missing => NotFound
    case Unreadable => Failed
    case Readable(content) =>
      match CpuMaxPair(content)
      case Some((quota, period)) => Found(quota / period)
      case None => NotFound
  }

  /** The cgroup v1 step: both files exist, the quota is not the "-1"
      sentinel, both parse and the period is positive. */
  function V1CpuLimit(files: CgroupFiles): (r: Probe<real>)
    ensures r.Failed? <==> (!files.cfsQuota.Missing? && !files.cfsPeriod.Missing?
      && (files.cfsQuota.Unreadable? || files.cfsPeriod.Unreadable?))
    ensures r.Found? <==> (files.cfsQuota.Readable? && files.cfsPeriod.Readable?
      && Trim(files.cfsQuota.content) != "-1"
      && ParseReal(Trim(files.cfsQuota.content)).Some? && ParseReal(Trim(files.cfsPeriod.content)).Some?
      && ParseReal(Trim(files.cfsPeriod.content)).value > 0.0)
    ensures r.Found? ==>
      r.value == ParseReal(Trim(files.cfsQuota.content)).value / ParseReal(Trim(files.cfsPeriod.content)).value
  {
    if files.cfsQuota.Missing? || files.cfsPeriod.Missing? then NotFound
    else if files.cfsQuota.Unreadable? || files.cfsPeriod.Unreadable? then Failed
    else
      var quota, period := Trim(files.cfsQuota.content), Trim(files.cfsPeriod.content);
      if quota == "-1" then NotFound
      else
        match (ParseReal(quota), ParseReal(period))
        case (Some(q), Some(p)) => if p > 0.0 then Found(q / p) else NotFound
        case _ => NotFound
  }

  /** The shares step: `shares / 1024`, only below the default shares. */
  function SharesCpuLimit(files: CgroupFiles): (r: Probe<real>)
    ensures r.Failed? <==> files.cpuShares.Unreadable?
    ensures r.Found? <==> (files.cpuShares.Readable? && ParseReal(Trim(files.cpuShares.content)).Some?
      && ParseReal(Trim(files.cpuShares.content)).value < DefaultShares)
    ensures r.Found? ==> r.value == ParseReal(Trim(files.cpuShares.content)).value / DefaultShares
    ensures r.Found? ==> r.value < 1.0
  {
    match files.cpuShares
    case Missing => NotFound
    case Unreadable => Failed
    case Readable(content) =>
      match ParseReal(Trim(content))
      case Some(shares) => if shares < DefaultShares then Found(shares / DefaultShares) else NotFound
      case None => NotFound
  }

  /** `GetContainerCpuLimit`: fractional cores, 0 for "no limit". */
  function ContainerCpuLimit(files: CgroupFiles): (r: real)
    requires CpuMaxPeriodNonZero(files)
    ensures (|| r == 0.0
             || (V2CpuLimit(files).Found? && r == V2CpuLimit(files).value)
             || (V1CpuLimit(files).Found? && r == V1CpuLimit(files).value)
             || (SharesCpuLimit(files).Found? && r == SharesCpuLimit(files).value))
  {
    match V2CpuLimit(files)
    case Found(limit) => limit
    case Failed => 0.0
    case NotFound =>
      match V1CpuLimit(files)
      case Found(limit) => limit
      case Failed => 0.0
      case NotFound =>
        match SharesCpuLimit(files)
        case Found(limit) => limit
        case _ => 0.0
  }

  /** Without cgroup files there is no CPU limit. */
  lemma CpuLimitWithoutFiles()
    ensures ContainerCpuLimit(NoCgroupFiles) == 0.0
  {
  }

  /** The limit is the value of the first step that finds one, in the order
      v2, v1, shares; a step that raises before that gives 0, and so does
      finding nothing at all. Only the shares step can be reached with both
      others finding nothing, and its estimate is below one core. */
  lemma CpuLimitPrecedence(files: CgroupFiles)
    requires CpuMaxPeriodNonZero(files)
    ensures V2CpuLimit(files).Found? ==> ContainerCpuLimit(files) == V2CpuLimit(files).value
    ensures V2CpuLimit(files).NotFound? && V1CpuLimit(files).Found? ==> ContainerCpuLimit(files) == V1CpuLimit(files).value
    ensures V2CpuLimit(files).NotFound? && V1CpuLimit(files).NotFound? && SharesCpuLimit(files).Found? ==>
      ContainerCpuLimit(files) == SharesCpuLimit(files).value
    ensures (|| V2CpuLimit(files).Failed?
             || (V2CpuLimit(files).NotFound? && V1CpuLimit(files).Failed?)
             || (V2CpuLimit(files).NotFound? && V1CpuLimit(files).NotFound? && !SharesCpuLimit(files).Found?))
      ==> ContainerCpuLimit(files) == 0.0
    ensures V2CpuLimit(files).NotFound? && V1CpuLimit(files).NotFound? ==> ContainerCpuLimit(files) < 1.0
  {
  }

  /** A `cpu.max` of `quota period` with a positive period is the limit
      `quota / period`, whatever the v1 files say. */
  lemma CpuMaxQuotaOverPeriod(files: CgroupFiles, quota: nat, period: nat)
    requires period > 0
    requires files.cpuMax == Readable(CpuMaxLine(quota, period))
    ensures CpuMaxPeriodNonZero(files)
    ensures V2CpuLimit(files) == Found(quota as real / period as real)
    ensures ContainerCpuLimit(files) == quota as real / period as real
  {
    CpuMaxPairOfCounts(quota, period);
  }

  /** The unlimited "max period" in `cpu.max` sets no limit: the result is
      what the host would give without that file. */
  lemma CpuMaxUnlimitedFallsThrough(files: CgroupFiles, period: nat)
    requires files.cpuMax == Readable("max " + NatToString(period) + "\n")
    ensures CpuMaxPeriodNonZero(files)
    ensures ContainerCpuLimit(files) == ContainerCpuLimit(files.(cpuMax := Missing))
  {
    CpuMaxPairOfUnlimited(period);
  }

  /** Without a v2 file, v1 quota and period files holding counts give
      `quota / period`; the unlimited quota "-1" passes to the shares step. */
  lemma CfsQuotaOverPeriod(files: CgroupFiles, quota: nat, period: nat)
    requires files.cpuMax.Missing? && period > 0
    requires files.cfsQuota == Readable(FileLine(quota)) && files.cfsPeriod == Readable(FileLine(period))
    ensures ContainerCpuLimit(files) == quota as real / period as real
  {
    TrimFileLine(quota);
    TrimFileLine(period);
    ParseRealOfNatToString(quota);
    ParseRealOfNatToString(period);
    assert NatToString(quota)[0] != '-';
  }

  lemma UnlimitedQuotaFallsThrough(files: CgroupFiles)
    requires files.cpuMax.Missing? && files.cfsPeriod.Readable?
    requires files.cfsQuota.Readable? && Trim(files.cfsQuota.content) == "-1"
    ensures ContainerCpuLimit(files) == ContainerCpuLimit(files.(cfsQuota := Missing))
  {
  }

  /** `shares` counts below 1024 give `shares / 1024`; the default 1024
      and above give no limit. */
  lemma SharesEstimate(files: CgroupFiles, shares: nat)
    requires files.cpuMax.Missing? && files.cfsQuota.Missing? && files.cpuShares == Readable(FileLine(shares))
    ensures shares < 1024 ==> ContainerCpuLimit(files) == shares as real / 1024.0
    ensures shares >= 1024 ==> ContainerCpuLimit(files) == 0.0
  {
    TrimFileLine(shares);
    ParseRealOfNatToString(shares);
  }

  /** A `cpu.max` that exists but cannot be read ends the probe with 0,
      even when the v1 files would give a limit. */
  lemma UnreadableCpuMaxGivesZero(files: CgroupFiles)
    requires files.cpuMax.Unreadable?
    ensures ContainerCpuLimit(files) == 0.0
  {
  }

  // ---------------------------------------------------------------------
  // Memory

  /** The cgroup v2 step: a `memory.max` that is not "max" and parses,
      taken as is. */
  function V2MemoryLimit(files: CgroupFiles): (r: Probe<u64>)
    ensures r.Failed? <==> files.memoryMax.Unreadable?
    ensures r.Found? <==> (files.memoryMax.Readable? && Trim(files.memoryMax.content) != "max"
      && ParseU64(Trim(files.memoryMax.content)).Some?)
    ensures r.Found? ==> r.value == ParseU64(Trim(files.memoryMax.content)).value
  {
    match files.memoryMax
    case Missing => NotFound
    case Unreadable => Failed
    case Readable(text) =>
      var content := Trim(text);
      if content != "max" && ParseU64(content).Some? then Found(ParseU64(content).value) else NotFound
  }

  /** The cgroup v1 step: a `memory.limit_in_bytes` below the unlimited
      sentinel. */
  function V1MemoryLimit(files: CgroupFiles): (r: Probe<u64>)
    ensures r.Failed? <==> files.memoryLimitInBytes.Unreadable?
    ensures r.Found? <==> (files.memoryLimitInBytes.Readable? && ParseU64(Trim(files.memoryLimitInBytes.content)).Some?
      && ParseU64(Trim(files.memoryLimitInBytes.content)).value < UnlimitedSentinel)
    ensures r.Found? ==> r.value == ParseU64(Trim(files.memoryLimitInBytes.content)).value
  {
    match files.memoryLimitInBytes
    case Missing => NotFound
    case Unreadable => Failed
    case Readable(text) =>
      match ParseU64(Trim(text))
      case Some(limit) => if limit < UnlimitedSentinel then Found(limit) else NotFound
      case None => NotFound
  }

  const HierarchicalKey := "hierarchical_memory_limit "

  /** The limit a `memory.stat` line states: a line starting with
      "hierarchical_memory_limit " whose second space-separated field parses
      to a value below the sentinel. */
  function StatLineLimit(line: string): (r: Option<u64>)
    ensures r.Some? <==> (StartsWith(line, HierarchicalKey) && |Split(line, ' ')| > 1
      && ParseU64(Split(line, ' ')[1]).Some? && ParseU64(Split(line, ' ')[1]).value < UnlimitedSentinel)
    ensures r.Some? ==> r.value == ParseU64(Split(line, ' ')[1]).value
  {
    if StartsWith(line, HierarchicalKey) then
      var parts := Split(line, ' ');
      if |parts| > 1 then
        match ParseU64(parts[1])
        case Some(limit) => if limit < UnlimitedSentinel then Some(limit) else None
        case None => None
      else None
    else None
  }

  /** The line the kernel writes for a limit reads back as that limit. */
  lemma StatLineOfLimit(limit: nat)
    requires limit < UnlimitedSentinel
    ensures StatLineLimit(HierarchicalKey + NatToString(limit)) == Some(limit)
  {
    var digits := NatToString(limit);
    var line := HierarchicalKey + digits;
    DigitsHaveNoWhiteSpace(digits);
    assert line == "hierarchical_memory_limit" + [' '] + digits;
    SplitTwoFields("hierarchical_memory_limit", digits, ' ');
    assert line[..|HierarchicalKey|] == HierarchicalKey;
    ParseU64OfNatToString(limit);
  }

  /** The limit of the first line of `memory.stat` that states one. */
  function HierarchicalLimit(lines: seq<string>): (r: Option<u64>)
    ensures r.None? <==> forall i :: 0 <= i < |lines| ==> StatLineLimit(lines[i]).None?
    ensures r.Some? ==> r.value < UnlimitedSentinel
  {
    if lines == [] then None
    else if StatLineLimit(lines[0]).Some? then StatLineLimit(lines[0])
    else HierarchicalLimit(lines[1..])
  }

  /** When line `i` is the first to state a limit, that is the limit. */
  lemma {:induction false} HierarchicalLimitAt(lines: seq<string>, i: nat)
    requires i < |lines| && StatLineLimit(lines[i]).Some?
    requires forall j :: 0 <= j < i ==> StatLineLimit(lines[j]).None?
    ensures HierarchicalLimit(lines) == StatLineLimit(lines[i])
  {
    if i > 0 {
      HierarchicalLimitAt(lines[1..], i - 1);
    }
  }

  /** The `memory.stat` step. */
  function StatMemoryLimit(files: CgroupFiles): (r: Probe<u64>)
    ensures r.Failed? <==> files.memoryStat.Unreadable?
    ensures r.Found? <==> files.memoryStat.Readable? && HierarchicalLimit(Split(files.memoryStat.content, '\n')).Some?
    ensures r.Found? ==> r.value == HierarchicalLimit(Split(files.memoryStat.content, '\n')).value
  {
    match files.memoryStat
    case Missing => NotFound
    case Unreadable => Failed
    case Readable(content) =>
      match HierarchicalLimit(Split(content, '\n'))
      case Some(limit) => Found(limit)
      case None => NotFound
  }

  /** What `GetContainerMemoryLimit` returns: v2, then v1, then
      `memory.stat`, then 0 for "no limit"; an exception also gives 0. */
  function MemoryLimit(files: CgroupFiles): (r: u64)
    ensures (|| r == 0
             || (V2MemoryLimit(files).Found? && r == V2MemoryLimit(files).value)
             || (V1MemoryLimit(files).Found? && r == V1MemoryLimit(files).value)
             || (StatMemoryLimit(files).Found? && r == StatMemoryLimit(files).value))
  {
    match V2MemoryLimit(files)
    case Found(limit) => limit
    case Failed => 0
    case NotFound =>
      match V1MemoryLimit(files)
      case Found(limit) => limit
      case Failed => 0
      case NotFound =>
        match StatMemoryLimit(files)
        case Found(limit) => limit
        case _ => 0
  }

  /** `GetContainerMemoryLimit`, with its early returns. */
  method ContainerMemoryLimit(files: CgroupFiles) returns (limit: u64)
    ensures limit == MemoryLimit(files)
  {
    var v2 := ReadMemoryMax(files);
    if v2.Found? {
      return v2.value;
    } else if v2.Failed? {
      return 0;
    }
    var v1 := ReadLimitInBytes(files);
    if v1.Found? {
      return v1.value;
    } else if v1.Failed? {
      return 0;
    }
    if files.memoryStat.Readable? {
      var found := ScanMemoryStat(files.memoryStat.content);
      if found.Some? {
        return found.value;
      }
    }
    return 0;
  }

  /** The cgroup v2 step of `GetContainerMemoryLimit`. */
  method ReadMemoryMax(files: CgroupFiles) returns (limit: Probe<u64>)
    ensures limit == V2MemoryLimit(files)
  {
    limit := NotFound;
    match files.memoryMax
    case Unreadable =>
      limit := Failed;
    case Readable(text) =>
      var content := Trim(text);
      if content != "max" {
        var parsed := ParseU64(content);
        if parsed.Some? {
          limit := Found(parsed.value);
        }
      }
    case Missing =>
  }

  /** The cgroup v1 `memory.limit_in_bytes` step of `GetContainerMemoryLimit`. */
  method ReadLimitInBytes(files: CgroupFiles) returns (limit: Probe<u64>)
    ensures limit == V1MemoryLimit(files)
  {
    limit := NotFound;
    match files.memoryLimitInBytes
    case Unreadable =>
      limit := Failed;
    case Readable(text) =>
      var parsed := ParseU64(Trim(text));
      if parsed.Some? && parsed.value < UnlimitedSentinel {
        limit := Found(parsed.value);
      }
    case Missing =>
  }

  /** The `foreach` over the lines of `memory.stat`, leaving at the first
      line that states a limit below the sentinel. */
  method ScanMemoryStat(content: string) returns (found: Option<u64>)
    ensures found == HierarchicalLimit(Split(content, '\n'))
  {
    var lines := Split(content, '\n');
    for i := 0 to |lines|
      invariant HierarchicalLimit(lines[i..]) == HierarchicalLimit(lines)
    {
      assert lines[i..][1..] == lines[i + 1..];
      var limit := StatLineLimit(lines[i]);
      if limit.Some? {
        return limit;
      }
    }
    return None;
  }

  /** The limit is the value of the first step that finds one, in the order
      `memory.max`, `memory.limit_in_bytes`, `memory.stat`; a step that
      raises before that gives 0, and so does finding nothing at all. */
  lemma MemoryLimitPrecedence(files: CgroupFiles)
    ensures V2MemoryLimit(files).Found? ==> MemoryLimit(files) == V2MemoryLimit(files).value
    ensures V2MemoryLimit(files).NotFound? && V1MemoryLimit(files).Found? ==> MemoryLimit(files) == V1MemoryLimit(files).value
    ensures V2MemoryLimit(files).NotFound? && V1MemoryLimit(files).NotFound? && StatMemoryLimit(files).Found? ==>
      MemoryLimit(files) == StatMemoryLimit(files).value
    ensures (|| V2MemoryLimit(files).Failed?
             || (V2MemoryLimit(files).NotFound? && V1MemoryLimit(files).Failed?)
             || (V2MemoryLimit(files).NotFound? && V1MemoryLimit(files).NotFound? && !StatMemoryLimit(files).Found?))
      ==> MemoryLimit(files) == 0
  {
  }

  /** Without cgroup files there is no memory limit. */
  lemma MemoryLimitWithoutFiles()
    ensures MemoryLimit(NoCgroupFiles) == 0
  {
  }

  /** Only the v2 file can report a value at or above the sentinel; the v1
      files never do. */
  lemma MemoryLimitBelowSentinelWithoutV2(files: CgroupFiles)
    requires !V2MemoryLimit(files).Found?
    ensures MemoryLimit(files) < UnlimitedSentinel
  {
  }

  /** "max" in `memory.max` hands the decision to the v1 files. */
  lemma MemoryMaxUnlimitedFallsThrough(files: CgroupFiles)
    requires files.memoryMax.Readable? && Trim(files.memoryMax.content) == "max"
    ensures MemoryLimit(files) == MemoryLimit(files.(memoryMax := Missing))
  {
  }

  /** A parsable v2 value wins over everything else, even 0. */
  lemma MemoryMaxWins(files: CgroupFiles, v: u64)
    requires files.memoryMax.Readable? && Trim(files.memoryMax.content) != "max"
    requires ParseU64(Trim(files.memoryMax.content)) == Some(v)
    ensures MemoryLimit(files) == v
  {
  }

  /** Without a usable v2 value, a v1 limit below the sentinel is the
      limit, and one at or above it hands over to `memory.stat`. */
  lemma LimitInBytesUsed(files: CgroupFiles, v: nat)
    requires files.memoryMax.Missing? && files.memoryLimitInBytes == Readable(FileLine(v))
    ensures v < UnlimitedSentinel ==> MemoryLimit(files) == v
    ensures UnlimitedSentinel <= v < U64_LIMIT ==> MemoryLimit(files) == MemoryLimit(files.(memoryLimitInBytes := Missing))
  {
    TrimFileLine(v);
    if v < U64_LIMIT {
      ParseU64OfNatToString(v);
    }
  }

  /** Without the two limit files, the first stated hierarchical limit of
      `memory.stat` is the limit. */
  lemma HierarchicalLimitUsed(files: CgroupFiles, lines: seq<string>, i: nat)
    requires files.memoryMax.Missing? && files.memoryLimitInBytes.Missing?
    requires files.memoryStat.Readable? && Split(files.memoryStat.content, '\n') == lines
    requires i < |lines| && StatLineLimit(lines[i]).Some?
    requires forall j :: 0 <= j < i ==> StatLineLimit(lines[j]).None?
    ensures MemoryLimit(files) == StatLineLimit(lines[i]).value
  {
    HierarchicalLimitAt(lines, i);
  }

  /** A limit file that exists but cannot be read ends the probe with 0
      unless an earlier step already found a limit. */
  lemma UnreadableLimitFileGivesZero(files: CgroupFiles)
    requires files.memoryMax.Unreadable?
      || (!V2MemoryLimit(files).Found? && files.memoryLimitInBytes.Unreadable?)
    ensures MemoryLimit(files) == 0
  {
  }

  /** The `memory.current` step of `GetContainerMemoryUsage`. */
  function V2MemoryUsage(files: CgroupFiles): (r: Probe<u64>)
    ensures r.Failed? <==> files.memoryCurrent.Unreadable?
    ensures r.Found? <==> files.memoryCurrent.Readable? && ParseU64(Trim(files.memoryCurrent.content)).Some?
    ensures r.Found? ==> r.value == ParseU64(Trim(files.memoryCurrent.content)).value
  {
    match files.memoryCurrent
    case Missing => NotFound
    case Unreadable => Failed
    case Readable(text) =>
      match ParseU64(Trim(text))
      case Some(v) => Found(v)
      case None => NotFound
  }

  /** The `memory.usage_in_bytes` step. */
  function V1MemoryUsage(files: CgroupFiles): (r: Probe<u64>)
    ensures r.Failed? <==> files.memoryUsageInBytes.Unreadable?
    ensures r.Found? <==> files.memoryUsageInBytes.Readable? && ParseU64(Trim(files.memoryUsageInBytes.content)).Some?
    ensures r.Found? ==> r.value == ParseU64(Trim(files.memoryUsageInBytes.content)).value
  {
    match files.memoryUsageInBytes
    case Missing => NotFound
    case Unreadable => Failed
    case Readable(text) =>
      match ParseU64(Trim(text))
      case Some(v) => Found(v)
      case None => NotFound
  }

  /** `GetContainerMemoryUsage`: v2 `memory.current`, then v1
      `memory.usage_in_bytes`, then 0; an exception also gives 0. */
  function MemoryUsage(files: CgroupFiles): (r: u64)
    ensures (|| r == 0
             || (V2MemoryUsage(files).Found? && r == V2MemoryUsage(files).value)
             || (V1MemoryUsage(files).Found? && r == V1MemoryUsage(files).value))
  {
    match V2MemoryUsage(files)
    case Found(v) => v
    case Failed => 0
    case NotFound =>
      match V1MemoryUsage(files)
      case Found(v) => v
      case _ => 0
  }

  /** Stated on the files: a parsable `memory.current` is the usage; a
      missing or unparsable one hands over to a parsable
      `memory.usage_in_bytes`; every other case, an unreadable file
      included, is 0. */
  lemma MemoryUsageSources(files: CgroupFiles)
    ensures files.memoryCurrent.Readable? && ParseU64(Trim(files.memoryCurrent.content)).Some? ==>
      MemoryUsage(files) == ParseU64(Trim(files.memoryCurrent.content)).value
    ensures ((files.memoryCurrent.Missing? || (files.memoryCurrent.Readable? && ParseU64(Trim(files.memoryCurrent.content)).None?))
        && files.memoryUsageInBytes.Readable? && ParseU64(Trim(files.memoryUsageInBytes.content)).Some?) ==>
      MemoryUsage(files) == ParseU64(Trim(files.memoryUsageInBytes.content)).value
    ensures files.memoryCurrent.Unreadable? ==> MemoryUsage(files) == 0
    ensures (!(files.memoryCurrent.Readable? && ParseU64(Trim(files.memoryCurrent.content)).Some?)
        && !(files.memoryUsageInBytes.Readable? && ParseU64(Trim(files.memoryUsageInBytes.content)).Some?)) ==>
      MemoryUsage(files) == 0
  {
  }

  /** The count the kernel writes into `memory.current` is the usage. */
  lemma MemoryCurrentRead(files: CgroupFiles, v: nat)
    requires v < U64_LIMIT && files.memoryCurrent == Readable(FileLine(v))
    ensures MemoryUsage(files) == v
  {
    TrimFileLine(v);
    ParseU64OfNatToString(v);
  }
}
