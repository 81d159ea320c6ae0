/** The processor figures of `SystemMetricsService`: the `cpu ` tick line
    of `/proc/stat` (`ReadStat`), the usage between two samples
    (`GetCpuUsagePercentAsync`) and the model and core counts of
    `GetCpuInfoAsync`, with the container override. `/proc/stat` and
    `/proc/cpuinfo` are optional strings, `None` when they cannot be read;
    the cgroup files are those of `ContainerLimits`. */
module CpuMetrics {
  import opened Wrappers
  import opened Text
  import opened ContainerLimits

  // ---------------------------------------------------------------------
  // /proc/stat

  /** The idle ticks and the sum of all ticks of the aggregate `cpu ` line. */
  datatype Ticks = Ticks(idle: u64, total: u64)

  /** The exact sum of the tick counters. */
  function Sum(xs: seq<u64>): nat {
    if xs == [] then 0 else Sum(xs[..|xs| - 1]) + xs[|xs| - 1]
  }

  /** `Aggregate<ulong, ulong>(0, (acc, v) => acc + v)`: a left fold whose
      additions wrap around at 2^64, as unchecked `ulong` arithmetic does. */
  function WrappingSum(xs: seq<u64>): (r: u64)
    ensures r == Sum(xs) % U64_LIMIT
  {
    if xs == [] then 0
    else
      var acc := WrappingSum(xs[..|xs| - 1]);
      WrapAddLeft(Sum(xs[..|xs| - 1]), xs[|xs| - 1]);
      (acc + xs[|xs| - 1]) % U64_LIMIT
  }

  /** Without wrap-around (total ticks below 2^64) the fold is the sum. */
  lemma WrappingSumExact(xs: seq<u64>)
    requires Sum(xs) < U64_LIMIT
    ensures WrappingSum(xs) == Sum(xs)
  {
  }

  predicate IsCpuLine(line: string) {
    StartsWith(line, "cpu ")
  }

  /** Per-core lines (`cpu0 …`) are not the aggregate line: the label must
      be followed by a space. */
  lemma PerCoreLineIsNotCpuLine(line: string)
    requires |line| >= 4 && line[..3] == "cpu" && line[3] != ' '
    ensures !IsCpuLine(line)
  {
  }

  /** The index of the first `cpu ` line, `|lines|` without one
      (`FirstOrDefault(l => l.StartsWith("cpu "))`). */
  function FirstCpuLine(lines: seq<string>): (r: nat)
    ensures r <= |lines|
    ensures forall j :: 0 <= j < r ==> !IsCpuLine(lines[j])
    ensures r < |lines| ==> IsCpuLine(lines[r])
  {
    if lines == [] || IsCpuLine(lines[0]) then 0 else FirstCpuLine(lines[1..]) + 1
  }

  lemma {:induction false} FirstCpuLineAt(lines: seq<string>, i: nat)
    requires i < |lines| && IsCpuLine(lines[i])
    requires forall j :: 0 <= j < i ==> !IsCpuLine(lines[j])
    ensures FirstCpuLine(lines) == i
  {
    if i > 0 {
      FirstCpuLineAt(lines[1..], i - 1);
    }
  }

  /** `Select(ulong.Parse).ToArray()`: every field parsed, or `None` when
      one of them makes `ulong.Parse` throw. */
  function ParseAll(fields: seq<string>): (r: Option<seq<u64>>)
    ensures r.Some? <==> forall i :: 0 <= i < |fields| ==> ParseU64(fields[i]).Some?
    ensures r.Some? ==> |r.value| == |fields| && forall i :: 0 <= i < |fields| ==> r.value[i] == ParseU64(fields[i]).value
  {
    if fields == [] then Some([])
    else
      match (ParseU64(fields[0]), ParseAll(fields[1..]))
      case (Some(v), Some(rest)) => Some([v] + rest)
      case (None, _) => None
      case (_, None) =>
        assert forall i :: 1 <= i < |fields| ==> fields[1..][i - 1] == fields[i];
        None
  }

  /** The numbers after the label: `Split(' ', RemoveEmptyEntries).Skip(1)`. */
  function TickFields(line: string): seq<string> {
    var words := SplitRemoveEmpty(line, ' ');
    if words == [] then [] else words[1..]
  }

  /** The reading of one `cpu ` line: every field must parse and there must
      be at least four of them, because the idle count is the fourth. */
  function LineTicks(line: string): (r: Result<Ticks>)
    ensures r.Ok? <==> ParseAll(TickFields(line)).Some? && |TickFields(line)| >= 4
    ensures r.Ok? ==> (r.value.idle == ParseAll(TickFields(line)).value[3]
      && r.value.total == Sum(ParseAll(TickFields(line)).value) % U64_LIMIT)
  {
    match ParseAll(TickFields(line))
    case None => Err("FormatException")
    case Some(values) =>
      if |values| < 4 then Err("IndexOutOfRangeException")
      else Ok(Ticks(values[3], WrappingSum(values)))
  }

  /** `ReadStat`: the first `cpu ` line of `/proc/stat`, or (0, 0) when
      there is none. Nothing here catches a failure: a missing file or a bad
      line escapes as an error. */
  function ReadStat(stat: Option<string>): (r: Result<Ticks>)
    ensures stat.None? ==> r.Err?
    ensures stat.Some? && (forall j :: 0 <= j < |Split(stat.value, '\n')| ==> !IsCpuLine(Split(stat.value, '\n')[j]))
      ==> r == Ok(Ticks(0, 0))
  {
    match stat
    case None => Err("FileNotFoundException")
    case Some(text) =>
      var lines := Split(text, '\n');
      var i := FirstCpuLine(lines);
      if i == |lines| then Ok(Ticks(0, 0)) else LineTicks(lines[i])
  }

  /** The line that is read is the first `cpu ` line, wherever it is. */
  lemma ReadStatUsesFirstCpuLine(text: string, i: nat)
    requires i < |Split(text, '\n')| && IsCpuLine(Split(text, '\n')[i])
    requires forall j :: 0 <= j < i ==> !IsCpuLine(Split(text, '\n')[j])
    ensures ReadStat(Some(text)) == LineTicks(Split(text, '\n')[i])
  {
    FirstCpuLineAt(Split(text, '\n'), i);
  }

  // ---------------------------------------------------------------------
  // Usage between two samples

  /** `a - b` on `ulong`: wraps around when the counter went backwards. */
  function WrappingSub(a: u64, b: u64): (r: u64)
    ensures a >= b ==> r == a - b
    ensures a < b ==> r == a - b + U64_LIMIT
  {
    (a - b) % U64_LIMIT
  }

  /** `Math.Clamp(x, lo, hi)`. */
  function Clamp(x: real, lo: real, hi: real): (r: real)
    requires lo <= hi
    ensures lo <= r <= hi
    ensures lo <= x <= hi ==> r == x
    ensures x < lo ==> r == lo
    ensures x > hi ==> r == hi
  {
    if x < lo then lo else if x > hi then hi else x
  }

  /** The busy share of the ticks between two samples, in percent. */
  function UsageBetween(first: Ticks, second: Ticks): (pct: real)
    ensures 0.0 <= pct <= 100.0
    ensures WrappingSub(second.total, first.total) == 0 ==> pct == 0.0
  {
    var idle := WrappingSub(second.idle, first.idle);
    var total := WrappingSub(second.total, first.total);
    if total == 0 then 0.0
    else Clamp((1.0 - idle as real / total as real) * 100.0, 0.0, 100.0)
  }

  /** When the counters only grew and the idle ticks grew by no more than
      all ticks, the clamp does not bite: the usage is the busy share. */
  lemma UsageIsBusyShare(first: Ticks, second: Ticks)
    requires first.total < second.total && first.idle <= second.idle
    requires second.idle - first.idle <= second.total - first.total
    ensures UsageBetween(first, second) ==
      (1.0 - (second.idle - first.idle) as real / (second.total - first.total) as real) * 100.0
  {
    var idle, total := (second.idle - first.idle) as real, (second.total - first.total) as real;
    RatioInUnitInterval(idle, total);
  }


  /** The branch for hosts other than Linux: the process's CPU time over
      the wall-clock time of all processors, in percent. */
  function ProcessUsage(cpuUsedMs: real, processorCount: nat, elapsedMs: real): (pct: real)
    requires processorCount >= 1 && elapsedMs > 0.0
    ensures 0.0 <= pct <= 100.0
    ensures 0.0 <= cpuUsedMs <= processorCount as real * elapsedMs ==>
      pct == cpuUsedMs / (processorCount as real * elapsedMs) * 100.0
    ensures cpuUsedMs <= 0.0 ==> pct == 0.0
    ensures cpuUsedMs >= processorCount as real * elapsedMs ==> pct == 100.0
  {
    ProductPositive(processorCount as real, elapsedMs);
    PercentOfWall(cpuUsedMs, processorCount as real * elapsedMs);
    Clamp(cpuUsedMs / (processorCount as real * elapsedMs) * 100.0, 0.0, 100.0)
  }

  /** Where a share of the wall-clock time falls, in percent. */
  lemma PercentOfWall(used: real, wall: real)
    requires wall > 0.0
    ensures 0.0 <= used <= wall ==> 0.0 <= used / wall * 100.0 <= 100.0
    ensures used < 0.0 ==> used / wall * 100.0 < 0.0
    ensures used > wall ==> used / wall * 100.0 > 100.0
  {
    if 0.0 <= used <= wall {
      RatioInUnitInterval(used, wall);
    } else if used > wall {
      RatioAboveOne(used, wall);
    } else {
      NegativeRatio(used, wall);
    }
  }

  /** What `GetCpuUsagePercentAsync` samples: `/proc/stat` twice on Linux,
      the process time elsewhere. */
  datatype CpuSample =
    | ProcStat(first: Option<string>, second: Option<string>)
    | ProcessTime(cpuUsedMs: real, processorCount: nat, elapsedMs: real)

  predicate SampleWellFormed(sample: CpuSample) {
    sample.ProcessTime? ==> sample.processorCount >= 1 && sample.elapsedMs > 0.0
  }

  /** `GetCpuUsagePercentAsync`: a failing read escapes as an error. */
  function CpuUsagePercent(sample: CpuSample): (r: Result<real>)
    requires SampleWellFormed(sample)
    ensures r.Ok? ==> 0.0 <= r.value <= 100.0
    ensures sample.ProcStat? ==> (r.Ok? <==> ReadStat(sample.first).Ok? && ReadStat(sample.second).Ok?)
    ensures sample.ProcessTime? ==> r.Ok?
  {
    match sample
    case ProcessTime(used, count, elapsed) => Ok(ProcessUsage(used, count, elapsed))
    case ProcStat(first, second) =>
      match (ReadStat(first), ReadStat(second))
      case (Ok(t1), Ok(t2)) => Ok(UsageBetween(t1, t2))
      case (Err(e), _) => Err(e)
      case (_, Err(e)) => Err(e)
  }

  /** A `/proc/stat` without a `cpu ` line reads the same (0, 0) twice, so
      the usage is 0. */
  lemma UsageWithoutCpuLine(text: string)
    requires forall j :: 0 <= j < |Split(text, '\n')| ==> !IsCpuLine(Split(text, '\n')[j])
    ensures CpuUsagePercent(ProcStat(Some(text), Some(text))) == Ok(0.0)
  {
  }

  // ---------------------------------------------------------------------
  // /proc/cpuinfo

  /** The text after `key`, white space and a colon, when `line` starts
      that way: the common head of the four line patterns `^key\s*:\s*…$`. */
  function AfterColon(line: string, key: string): (r: Option<string>)
    ensures r.Some? ==> StartsWith(line, key) && |r.value| < |line|
  {
    if StartsWith(line, key) then
      var rest := TrimStart(line[|key|..]);
      if rest != [] && rest[0] == ':' then Some(rest[1..]) else None
    else None
  }

  /** `^model name\s*:\s*(.+)$`, then `Trim()` of the captured text: at
      least one character must follow the colon. */
  function ModelNameOf(line: string): Option<string> {
    match AfterColon(line, "model name")
    case Some(v) => if v != [] then Some(Trim(v)) else None
    case None => None
  }

  /** `^processor\s*:\s*(\d+)$`. */
  predicate IsProcessorLine(line: string) {
    AfterColon(line, "processor").Some? && IsDigitString(TrimStart(AfterColon(line, "processor").value))
  }

  /** The digits of `^cpu cores\s*:\s*(\d+)$`. */
  function CoresDigits(line: string): (r: Option<string>)
    ensures r.Some? ==> IsDigitString(r.value)
  {
    match AfterColon(line, "cpu cores")
    case Some(v) => if IsDigitString(TrimStart(v)) then Some(TrimStart(v)) else None
    case None => None
  }

  predicate IsMhzChar(c: char) {
    IsDigit(c) || c == '.'
  }

  /** The captured text of `^cpu MHz\s*:\s*([0-9.]+)$`. */
  function MhzText(line: string): (r: Option<string>)
    ensures r.Some? ==> r.value != [] && forall i :: 0 <= i < |r.value| ==> IsMhzChar(r.value[i])
  {
    match AfterColon(line, "cpu MHz")
    case Some(v) =>
      var t := TrimStart(v);
      if t != [] && forall i :: 0 <= i < |t| ==> IsMhzChar(t[i]) then Some(t) else None
    case None => None
  }

  /** The model name of the first line that has one. */
  function FirstModelName(lines: seq<string>): (r: Option<string>)
    ensures r.None? <==> forall i :: 0 <= i < |lines| ==> ModelNameOf(lines[i]).None?
  {
    if lines == [] then None
    else if ModelNameOf(lines[0]).Some? then ModelNameOf(lines[0])
    else FirstModelName(lines[1..])
  }

  /** When line `i` is the first with a model name, that name is chosen
      (`FirstOrDefault` over the matches in text order). */
  lemma {:induction false} FirstModelNameAt(lines: seq<string>, i: nat)
    requires i < |lines| && ModelNameOf(lines[i]).Some?
    requires forall j :: 0 <= j < i ==> ModelNameOf(lines[j]).None?
    ensures FirstModelName(lines) == ModelNameOf(lines[i])
  {
    if i > 0 {
      FirstModelNameAt(lines[1..], i - 1);
    }
  }

  /** The number of `processor` lines. */
  function ProcessorLines(lines: seq<string>): (n: nat)
    ensures n <= |lines|
    ensures n == 0 <==> forall i :: 0 <= i < |lines| ==> !IsProcessorLine(lines[i])
  {
    if lines == [] then 0
    else (if IsProcessorLine(lines[0]) then 1 else 0) + ProcessorLines(lines[1..])
  }

  /** The values `capture` gives on the lines it matches, in line order:
      what `Regex.Matches(…).Cast<Match>().Select(…)` enumerates. */
  function Captures<T>(lines: seq<string>, capture: string -> Option<T>): (r: seq<T>)
    ensures |r| <= |lines|
  {
    if lines == [] then []
    else
      match capture(lines[0])
      case Some(v) => [v] + Captures(lines[1..], capture)
      case None => Captures(lines[1..], capture)
  }

  /** `values` lists what `capture` gives on `lines` in order: line
      `at[k]` gives `values[k]`, these lines increase, and every line that
      matches is listed, at position `rank[i]`. */
  ghost predicate ListsCaptures<T>(lines: seq<string>, capture: string -> Option<T>, values: seq<T>,
                                   at: seq<nat>, rank: seq<nat>) {
    && |at| == |values| && |rank| == |lines|
    && (forall k :: 0 <= k < |at| ==> at[k] < |lines| && capture(lines[at[k]]) == Some(values[k]))
    && (forall k, l :: 0 <= k < l < |at| ==> at[k] < at[l])
    && (forall i :: 0 <= i < |lines| && capture(lines[i]).Some? ==> rank[i] < |at| && at[rank[i]] == i)
  }

  /** Every index one line further down. */
  function ShiftUp(xs: seq<nat>): (r: seq<nat>)
    ensures |r| == |xs| && forall k :: 0 <= k < |xs| ==> r[k] == xs[k] + 1
  {
    if xs == [] then [] else [xs[0] + 1] + ShiftUp(xs[1..])
  }

  /** `Captures` is the in-order list of the matching lines' values. */
  lemma {:induction false} CapturesInOrder<T>(lines: seq<string>, capture: string -> Option<T>)
    returns (at: seq<nat>, rank: seq<nat>)
    ensures ListsCaptures(lines, capture, Captures(lines, capture), at, rank)
  {
    if lines == [] {
      at, rank := [], [];
    } else {
      var at', rank' := CapturesInOrder(lines[1..], capture);
      at, rank := CapturesCons(lines, capture, at', rank');
    }
  }

  /** The step of `CapturesInOrder`: the lines of the tail move down by one. */
  lemma CapturesCons<T>(lines: seq<string>, capture: string -> Option<T>, at': seq<nat>, rank': seq<nat>)
    returns (at: seq<nat>, rank: seq<nat>)
    requires lines != []
    requires ListsCaptures(lines[1..], capture, Captures(lines[1..], capture), at', rank')
    ensures ListsCaptures(lines, capture, Captures(lines, capture), at, rank)
  {
    TailListing(lines, capture, at', rank');
    if capture(lines[0]).Some? {
      at, rank := ConsMatching(lines, capture, at', rank');
    } else {
      at, rank := ConsSkipping(lines, capture, at', rank');
    }
  }

  /** The listing of the tail, read on the whole lines. */
  lemma TailListing<T>(lines: seq<string>, capture: string -> Option<T>, at': seq<nat>, rank': seq<nat>)
    requires lines != []
    requires ListsCaptures(lines[1..], capture, Captures(lines[1..], capture), at', rank')
    ensures forall k :: 0 <= k < |at'| ==>
      ShiftUp(at')[k] < |lines| && capture(lines[ShiftUp(at')[k]]) == Some(Captures(lines[1..], capture)[k])
    ensures forall i :: 1 <= i < |lines| && capture(lines[i]).Some? ==>
      rank'[i - 1] < |at'| && ShiftUp(at')[rank'[i - 1]] == i
  {
    TailValues(lines, capture, Captures(lines[1..], capture), at');
    TailRanks(lines, capture, at', rank');
  }

  /** The lines the tail's listing names, one further down. */
  lemma TailValues<T>(lines: seq<string>, capture: string -> Option<T>, values: seq<T>, at': seq<nat>)
    requires lines != [] && |at'| == |values|
    requires forall k :: 0 <= k < |at'| ==> at'[k] < |lines| - 1 && capture(lines[1..][at'[k]]) == Some(values[k])
    ensures forall k :: 0 <= k < |at'| ==>
      ShiftUp(at')[k] < |lines| && capture(lines[ShiftUp(at')[k]]) == Some(values[k])
  {
    var shifted := ShiftUp(at');
    forall k | 0 <= k < |at'|
      ensures shifted[k] < |lines| && capture(lines[shifted[k]]) == Some(values[k])
    {
      assert lines[shifted[k]] == lines[1..][at'[k]];
    }
  }

  /** The ranks of the tail's matching lines, read on the whole lines. */
  lemma TailRanks<T>(lines: seq<string>, capture: string -> Option<T>, at': seq<nat>, rank': seq<nat>)
    requires lines != [] && |rank'| == |lines| - 1
    requires forall i :: 0 <= i < |lines| - 1 && capture(lines[1..][i]).Some? ==> rank'[i] < |at'| && at'[rank'[i]] == i
    ensures forall i :: 1 <= i < |lines| && capture(lines[i]).Some? ==>
      rank'[i - 1] < |at'| && ShiftUp(at')[rank'[i - 1]] == i
  {
    var shifted := ShiftUp(at');
    forall i | 1 <= i < |lines| && capture(lines[i]).Some?
      ensures rank'[i - 1] < |at'| && shifted[rank'[i - 1]] == i
    {
      assert lines[1..][i - 1] == lines[i];
    }
  }

  lemma ConsMatching<T>(lines: seq<string>, capture: string -> Option<T>, at': seq<nat>, rank': seq<nat>)
    returns (at: seq<nat>, rank: seq<nat>)
    requires lines != [] && capture(lines[0]).Some?
    requires ListsCaptures(lines[1..], capture, Captures(lines[1..], capture), at', rank')
    requires forall k :: 0 <= k < |at'| ==>
      ShiftUp(at')[k] < |lines| && capture(lines[ShiftUp(at')[k]]) == Some(Captures(lines[1..], capture)[k])
    requires forall i :: 1 <= i < |lines| && capture(lines[i]).Some? ==>
      rank'[i - 1] < |at'| && ShiftUp(at')[rank'[i - 1]] == i
    ensures ListsCaptures(lines, capture, Captures(lines, capture), at, rank)
  {
    var values, shifted := Captures(lines[1..], capture), ShiftUp(at');
    var v := capture(lines[0]).value;
    assert Captures(lines, capture) == [v] + values;
    PrependValue(lines, capture, v, values, shifted);
    ShiftUpIncreasing(at');
    PrependIncreasing(shifted);
    PrependRanks(lines, capture, shifted, ShiftUp(rank'), rank');
    at, rank := [0] + shifted, [0] + ShiftUp(rank');
  }

  lemma PrependValue<T>(lines: seq<string>, capture: string -> Option<T>, v: T, values: seq<T>, shifted: seq<nat>)
    requires lines != [] && capture(lines[0]) == Some(v) && |shifted| == |values|
    requires forall k :: 0 <= k < |shifted| ==> shifted[k] < |lines| && capture(lines[shifted[k]]) == Some(values[k])
    ensures var at, all := [0] + shifted, [v] + values;
      forall k :: 0 <= k < |at| ==> at[k] < |lines| && capture(lines[at[k]]) == Some(all[k])
  {
    var at, all := [0] + shifted, [v] + values;
    forall k | 0 <= k < |at|
      ensures at[k] < |lines| && capture(lines[at[k]]) == Some(all[k])
    {
      if k > 0 {
        assert at[k] == shifted[k - 1] && all[k] == values[k - 1];
      }
    }
  }

  lemma ShiftUpIncreasing(xs: seq<nat>)
    requires forall k, l :: 0 <= k < l < |xs| ==> xs[k] < xs[l]
    ensures forall k, l :: 0 <= k < l < |xs| ==> ShiftUp(xs)[k] < ShiftUp(xs)[l]
    ensures forall k :: 0 <= k < |xs| ==> ShiftUp(xs)[k] > 0
  {
  }

  lemma PrependIncreasing(shifted: seq<nat>)
    requires forall k, l :: 0 <= k < l < |shifted| ==> shifted[k] < shifted[l]
    requires forall k :: 0 <= k < |shifted| ==> shifted[k] > 0
    ensures var at := [0] + shifted; forall k, l :: 0 <= k < l < |at| ==> at[k] < at[l]
  {
    var at := [0] + shifted;
    forall k, l | 0 <= k < l < |at|
      ensures at[k] < at[l]
    {
      assert at[l] == shifted[l - 1];
      if k > 0 {
        assert at[k] == shifted[k - 1];
      }
    }
  }

  lemma PrependRanks<T>(lines: seq<string>, capture: string -> Option<T>, shifted: seq<nat>, up: seq<nat>, rank': seq<nat>)
    requires lines != [] && capture(lines[0]).Some?
    requires |rank'| == |lines| - 1 && |up| == |rank'| && forall k :: 0 <= k < |rank'| ==> up[k] == rank'[k] + 1
    requires forall i :: 1 <= i < |lines| && capture(lines[i]).Some? ==>
      rank'[i - 1] < |shifted| && shifted[rank'[i - 1]] == i
    ensures var at, rank := [0] + shifted, [0] + up;
      forall i :: 0 <= i < |lines| && capture(lines[i]).Some? ==> rank[i] < |at| && at[rank[i]] == i
  {
    var at, rank := [0] + shifted, [0] + up;
    forall i | 0 <= i < |lines| && capture(lines[i]).Some?
      ensures rank[i] < |at| && at[rank[i]] == i
    {
      if i > 0 {
        assert rank[i] == rank'[i - 1] + 1;
        assert at[rank[i]] == shifted[rank'[i - 1]];
      }
    }
  }

  lemma ConsSkipping<T>(lines: seq<string>, capture: string -> Option<T>, at': seq<nat>, rank': seq<nat>)
    returns (at: seq<nat>, rank: seq<nat>)
    requires lines != [] && capture(lines[0]).None?
    requires ListsCaptures(lines[1..], capture, Captures(lines[1..], capture), at', rank')
    requires forall k :: 0 <= k < |at'| ==>
      ShiftUp(at')[k] < |lines| && capture(lines[ShiftUp(at')[k]]) == Some(Captures(lines[1..], capture)[k])
    requires forall i :: 1 <= i < |lines| && capture(lines[i]).Some? ==>
      rank'[i - 1] < |at'| && ShiftUp(at')[rank'[i - 1]] == i
    ensures ListsCaptures(lines, capture, Captures(lines, capture), at, rank)
  {
    assert Captures(lines, capture) == Captures(lines[1..], capture);
    at, rank := ShiftUp(at'), [0] + rank';
    forall i | 0 <= i < |lines| && capture(lines[i]).Some?
      ensures rank[i] < |at| && at[rank[i]] == i
    {
      assert i > 0 && rank[i] == rank'[i - 1];
    }
  }

  /** No value is captured exactly when no line matches. */
  lemma CapturesEmpty<T>(lines: seq<string>, capture: string -> Option<T>)
    ensures Captures(lines, capture) == [] <==> forall i :: 0 <= i < |lines| ==> capture(lines[i]).None?
  {
    var at, rank := CapturesInOrder(lines, capture);
    if Captures(lines, capture) != [] {
      assert capture(lines[at[0]]).Some?;
    }
  }

  /** The number a `cpu cores` line states. */
  function CoresValue(line: string): (r: Option<nat>)
    ensures r.Some? <==> CoresDigits(line).Some?
  {
    match CoresDigits(line)
    case Some(digits) => Some(DigitsValue(digits))
    case None => None
  }

  /** `int.Parse` of the captured digits throws: the number is beyond `int`. */
  predicate CoresOverflow(line: string) {
    CoresValue(line).Some? && CoresValue(line).value > INT32_MAX
  }

  /** The `cpu cores` values in order, with `int.Parse` of each: `None`
      when one of them overflows an `int`. */
  function CoreCounts(lines: seq<string>): (r: Option<seq<i32>>)
    ensures r.Some? <==> forall i :: 0 <= i < |lines| ==> !CoresOverflow(lines[i])
    ensures r.Some? ==> r.value == Captures(lines, CoresValue)
  {
    if lines == [] then Some([])
    else
      assert forall i :: 1 <= i < |lines| ==> lines[1..][i - 1] == lines[i];
      match CoreCounts(lines[1..])
      case None => None
      case Some(rest) =>
        match CoresDigits(lines[0])
        case None => Some(rest)
        case Some(digits) =>
          ParseIntegerOfDigits(digits);
          match ParseI32(Some(digits))
          case None => None
          case Some(v) => Some([v] + rest)
  }

  /** The value `double.Parse` gives the `cpu MHz` capture of a line. */
  function MhzReading(line: string): (r: Option<real>)
    ensures r.Some? ==> MhzText(line).Some? && r.value >= 0.0
  {
    match MhzText(line)
    case Some(t) => UnsignedDecimal(t)
    case None => None
  }

  /** `double.Parse` throws on the capture: `"1.2.3"`, `"."`. */
  predicate MhzMalformed(line: string) {
    MhzText(line).Some? && UnsignedDecimal(MhzText(line).value).None?
  }

  /** The `cpu MHz` values in order, with `double.Parse` of each: `None`
      when one is not a decimal number. */
  function MhzValues(lines: seq<string>): (r: Option<seq<real>>)
    ensures r.Some? <==> forall i :: 0 <= i < |lines| ==> !MhzMalformed(lines[i])
    ensures r.Some? ==> r.value == Captures(lines, MhzReading)
    ensures r.Some? ==> forall i :: 0 <= i < |r.value| ==> r.value[i] >= 0.0
  {
    if lines == [] then Some([])
    else
      assert forall i :: 1 <= i < |lines| ==> lines[1..][i - 1] == lines[i];
      match MhzValues(lines[1..])
      case None => None
      case Some(rest) =>
        match MhzText(lines[0])
        case None => Some(rest)
        case Some(t) =>
          match UnsignedDecimal(t)
          case None => None
          case Some(v) => Some([v] + rest)
  }

  /** `Max()` of a non-empty list. */
  function MaxOf(xs: seq<i32>): (m: i32)
    requires |xs| > 0
    ensures m in xs
    ensures forall i :: 0 <= i < |xs| ==> xs[i] <= m
  {
    if |xs| == 1 then xs[0]
    else
      var rest := MaxOf(xs[1..]);
      if xs[0] >= rest then xs[0] else rest
  }

  function RealSum(xs: seq<real>): real {
    if xs == [] then 0.0 else xs[0] + RealSum(xs[1..])
  }

  lemma {:induction false} RealSumNonNegative(xs: seq<real>)
    requires forall i :: 0 <= i < |xs| ==> xs[i] >= 0.0
    ensures RealSum(xs) >= 0.0
  {
    if xs != [] {
      RealSumNonNegative(xs[1..]);
    }
  }

  /** `DefaultIfEmpty(0).Average()`: the arithmetic mean, 0 for no values. */
  function Average(xs: seq<real>): (avg: real)
    requires forall i :: 0 <= i < |xs| ==> xs[i] >= 0.0
    ensures avg >= 0.0
    ensures xs == [] ==> avg == 0.0
    ensures xs != [] ==> avg * |xs| as real == RealSum(xs)
  {
    if xs == [] then 0.0
    else
      RealSumNonNegative(xs);
      RealSum(xs) / |xs| as real
  }

  /** What `GetCpuInfoAsync` returns. */
  datatype CpuInfo = CpuInfo(model: string, physicalCores: int, logicalProcessors: int, avgMHz: real)

  const UnknownModel := "Unknown CPU"

  /** The figures `/proc/cpuinfo` gives before any container limit. The
      `cpu cores` values are parsed first, so an overflow there wins over
      a malformed `cpu MHz` value. */
  function HostCpuInfo(cpuinfo: string, processorCount: nat): (r: Result<CpuInfo>)
    requires processorCount >= 1
    ensures r.Ok? <==> CoreCounts(Split(cpuinfo, '\n')).Some? && MhzValues(Split(cpuinfo, '\n')).Some?
    ensures r.Ok? ==> r.value.logicalProcessors >= 1 && r.value.avgMHz >= 0.0
  {
    var lines := Split(cpuinfo, '\n');
    var model := FirstModelName(lines).GetOr(UnknownModel);
    var counted := ProcessorLines(lines);
    var logical := if counted <= 0 then processorCount else counted;
    match (CoreCounts(lines), MhzValues(lines))
    case (None, _) => Err("OverflowException")
    case (_, None) => Err("FormatException")
    case (Some(cores), Some(mhz)) =>
      var physical := if |cores| > 0 then MaxOf(cores) as int else if 1 > logical then 1 else logical;
      Ok(CpuInfo(model, physical, logical, Average(mhz)))
  }

  /** `/proc/cpuinfo` is rejected exactly when a `cpu cores` value
      overflows an `int` or a `cpu MHz` capture is not a number, and the
      overflow is the exception reported when both happen. */
  lemma HostCpuInfoFaults(cpuinfo: string, processorCount: nat)
    requires processorCount >= 1
    ensures var lines := Split(cpuinfo, '\n');
      HostCpuInfo(cpuinfo, processorCount).Ok? <==>
        ((forall i :: 0 <= i < |lines| ==> !CoresOverflow(lines[i]))
          && (forall i :: 0 <= i < |lines| ==> !MhzMalformed(lines[i])))
    ensures var lines := Split(cpuinfo, '\n');
      (exists i :: 0 <= i < |lines| && CoresOverflow(lines[i])) ==>
        HostCpuInfo(cpuinfo, processorCount) == Err("OverflowException")
    ensures var lines := Split(cpuinfo, '\n');
      ((forall i :: 0 <= i < |lines| ==> !CoresOverflow(lines[i]))
        && (exists i :: 0 <= i < |lines| && MhzMalformed(lines[i]))) ==>
        HostCpuInfo(cpuinfo, processorCount) == Err("FormatException")
  {
  }

  /** The host figures stated on the lines: the first model name (or
      "Unknown CPU"), the count of processor lines (or the runtime's
      processor count when there are none), the largest `cpu cores` value
      of any line when one has it (otherwise the logical count), and the
      mean of the `cpu MHz` values in line order. */
  lemma HostCpuInfoFields(cpuinfo: string, processorCount: nat)
    requires processorCount >= 1
    requires HostCpuInfo(cpuinfo, processorCount).Ok?
    ensures var lines := Split(cpuinfo, '\n');
      var info := HostCpuInfo(cpuinfo, processorCount).value;
      && info.model == FirstModelName(lines).GetOr(UnknownModel)
      && info.logicalProcessors == (if ProcessorLines(lines) > 0 then ProcessorLines(lines) else processorCount)
      && (forall i :: 0 <= i < |lines| && CoresValue(lines[i]).Some? ==> CoresValue(lines[i]).value <= info.physicalCores)
      && ((exists i :: 0 <= i < |lines| && CoresValue(lines[i]).Some?) ==>
            exists i :: 0 <= i < |lines| && CoresValue(lines[i]).Some? && CoresValue(lines[i]).value == info.physicalCores)
      && ((forall i :: 0 <= i < |lines| ==> CoresValue(lines[i]).None?) ==> info.physicalCores == info.logicalProcessors)
      && info.avgMHz == Average(Captures(lines, MhzReading))
  {
    var lines := Split(cpuinfo, '\n');
    CapturesEmpty(lines, CoresValue);
    if CoreCounts(lines).value != [] {
      MaxCoresOfLines(lines);
    }
  }

  /** The largest `cpu cores` value is that of some line and bounds every
      line's value. */
  lemma MaxCoresOfLines(lines: seq<string>)
    requires CoreCounts(lines).Some? && CoreCounts(lines).value != []
    ensures var m := MaxOf(CoreCounts(lines).value);
      && (forall i :: 0 <= i < |lines| && CoresValue(lines[i]).Some? ==> CoresValue(lines[i]).value <= m)
      && exists i :: 0 <= i < |lines| && CoresValue(lines[i]).Some? && CoresValue(lines[i]).value == m
  {
    var cores := CoreCounts(lines).value;
    var m := MaxOf(cores);
    var at, rank := CapturesInOrder(lines, CoresValue);
    forall i | 0 <= i < |lines| && CoresValue(lines[i]).Some?
      ensures CoresValue(lines[i]).value <= m
    {
      assert cores[rank[i]] <= m;
    }
    var k :| 0 <= k < |cores| && cores[k] == m;
    assert CoresValue(lines[at[k]]).value == m;
  }

  /** `Math.Ceiling`. */
  function Ceiling(x: real): (c: int)
    ensures c as real >= x && (c as real) - 1.0 < x
  {
    -((-x).Floor)
  }

  /** `(int)Math.Max(1, Math.Ceiling(limit))`: the whole cores a fractional
      limit stands for, at least one. */
  function ContainerCores(limit: real): (n: int)
    ensures n >= 1 && n as real >= limit
    ensures limit > 0.0 ==> (n as real) - 1.0 < limit || n == 1
  {
    var c := Ceiling(limit);
    if c < 1 then 1 else c
  }

  /** The annotation of the model when the limit is below the host's
      processors: one decimal below one core, none from one core up. */
  function ContainerNote(limit: real): string
    requires limit > 0.0
  {
    " (Container: " + FormatFixed(limit, if limit < 1.0 then 1 else 0) + " CPU cores)"
  }

  /** The override of `GetCpuInfoAsync` by a positive container limit. */
  function ApplyContainerLimit(info: CpuInfo, limit: real, processorCount: nat): (r: CpuInfo)
    ensures r.avgMHz == info.avgMHz
    ensures limit <= 0.0 ==> r == info
    ensures limit > 0.0 ==> r.logicalProcessors == ContainerCores(limit) && r.physicalCores == ContainerCores(limit)
    ensures limit > 0.0 && limit < processorCount as real ==> r.model == info.model + ContainerNote(limit)
    ensures limit >= processorCount as real ==> r.model == info.model
  {
    if limit > 0.0 then
      var cores := ContainerCores(limit);
      var model := if limit < processorCount as real then info.model + ContainerNote(limit) else info.model;
      CpuInfo(model, cores, cores, info.avgMHz)
    else info
  }

  /** From one core up the limit is written without decimals,
      `ToString("F0")`. */
  lemma WholeCoresNote(n: nat)
    requires n >= 1
    ensures ContainerNote(n as real) == " (Container: " + NatToString(n) + " CPU cores)"
  {
    FixedWhole(n);
  }

  lemma FixedWhole(n: nat)
    ensures FormatFixed(n as real, 0) == NatToString(n)
  {
    RoundWhole(n);
    assert n / Pow10(0) == n;
  }

  lemma RoundWhole(n: nat)
    ensures RoundScaled(n as real, 0) == n
  {
    assert Pow10(0) == 1;
    assert (n as real) * 1.0 == n as real;
  }

  /** Below one core the limit is written with one decimal, `ToString("F1")`:
      a tenth-count t reads "0.t". */
  lemma TenthsOfCoreNote(t: nat)
    requires 1 <= t <= 9
    ensures ContainerNote(t as real / 10.0) == " (Container: 0." + NatToString(t) + " CPU cores)"
  {
    var x, d := t as real / 10.0, NatToString(t);
    TenthsBelowOne(t);
    assert ContainerNote(x) == " (Container: " + FormatFixed(x, 1) + " CPU cores)";
    FixedTenths(t);
    assert " (Container: " + ("0." + d) == " (Container: 0." + d;
  }

  lemma TenthsBelowOne(t: nat)
    requires 1 <= t <= 9
    ensures 0.0 < t as real / 10.0 < 1.0
  {
    var q := t as real / 10.0;
    assert q * 10.0 == t as real;
  }

  lemma FixedTenths(t: nat)
    requires t <= 9
    ensures FormatFixed(t as real / 10.0, 1) == "0." + NatToString(t)
  {
    RoundTenths(t);
    WholeOfTenths(t);
    FractionOfTenths(t);
  }

  lemma WholeOfTenths(t: nat)
    requires t <= 9
    ensures WholeDigits(t, 1) == "0"
  {
    assert t / Pow10(1) == 0;
    assert NatToString(0) == [DigitChar(0)];
  }

  lemma FractionOfTenths(t: nat)
    requires t <= 9
    ensures FractionDigits(t, 1) == NatToString(t)
  {
    assert t % Pow10(1) == t;
    assert PadDigits(t, 1) == PadDigits(t / 10, 0) + [DigitChar(t % 10)];
  }

  lemma RoundTenths(t: nat)
    ensures RoundScaled(t as real / 10.0, 1) == t
  {
    assert Pow10(1) == 10;
    assert (t as real / 10.0) * 10.0 == t as real;
  }

  /** A limit of half a core reads "(Container: 0.5 CPU cores)" and leaves
      one core. */
  lemma HalfCoreNote()
    ensures ContainerNote(0.5) == " (Container: 0.5 CPU cores)"
    ensures ContainerCores(0.5) == 1
  {
    TenthsOfCoreNote(5);
    assert 5 as real / 10.0 == 0.5;
  }

  /** The container CPU limit is defined and fits the `int` cast of the
      override: a zero period in `cpu.max` (a division by zero) and a limit
      beyond `int` are outside the model. */
  predicate CpuLimitRepresentable(files: CgroupFiles) {
    CpuMaxPeriodNonZero(files) && ContainerCpuLimit(files) <= INT32_MAX as real
  }

  /** `GetCpuInfoAsync` on Linux. */
  function LinuxCpuInfo(cpuinfo: Option<string>, files: CgroupFiles, processorCount: nat): (r: Result<CpuInfo>)
    requires processorCount >= 1 && CpuLimitRepresentable(files)
    ensures cpuinfo.None? ==> r.Err?
    ensures cpuinfo.Some? && HostCpuInfo(cpuinfo.value, processorCount).Err? ==> r == HostCpuInfo(cpuinfo.value, processorCount)
    ensures cpuinfo.Some? && HostCpuInfo(cpuinfo.value, processorCount).Ok? ==>
      r == Ok(ApplyContainerLimit(HostCpuInfo(cpuinfo.value, processorCount).value, ContainerCpuLimit(files), processorCount))
    ensures r.Ok? ==> r.value.logicalProcessors >= 1
  {
    match cpuinfo
    case None => Err("FileNotFoundException")
    case Some(text) =>
      match HostCpuInfo(text, processorCount)
      case Err(e) => Err(e)
      case Ok(info) => Ok(ApplyContainerLimit(info, ContainerCpuLimit(files), processorCount))
  }

  /** `GetCpuInfoAsync` elsewhere: only the runtime's processor count. */
  function OtherCpuInfo(processorCount: nat): (r: CpuInfo)
    ensures r.physicalCores == processorCount && r.logicalProcessors == processorCount && r.avgMHz == 0.0
    ensures r.model == "CPU " + NatToString(processorCount) + " logical cores"
  {
    CpuInfo("CPU " + NatToString(processorCount) + " logical cores", processorCount, processorCount, 0.0)
  }

  /** Without cgroup files the host figures are reported untouched. */
  lemma NoContainerKeepsHostFigures(text: string, processorCount: nat)
    requires processorCount >= 1
    ensures LinuxCpuInfo(Some(text), NoCgroupFiles, processorCount) == HostCpuInfo(text, processorCount)
  {
    CpuLimitWithoutFiles();
  }

  /** A `cpu.max` whose quota equals its period (one core, as in
      "100000 100000") reports one logical and one physical core. */
  lemma OneCoreContainer(text: string, files: CgroupFiles, processorCount: nat, period: nat)
    requires processorCount >= 1 && period > 0
    requires files.cpuMax == Readable(CpuMaxLine(period, period))
    requires HostCpuInfo(text, processorCount).Ok?
    ensures CpuLimitRepresentable(files)
    ensures LinuxCpuInfo(Some(text), files, processorCount).Ok?
    ensures LinuxCpuInfo(Some(text), files, processorCount).value.logicalProcessors == 1
    ensures LinuxCpuInfo(Some(text), files, processorCount).value.physicalCores == 1
  {
    CpuMaxQuotaOverPeriod(files, period, period);
    SelfRatio(period as real);
    var host := HostCpuInfo(text, processorCount).value;
    assert ContainerCores(1.0) == 1;
    assert LinuxCpuInfo(Some(text), files, processorCount) == Ok(ApplyContainerLimit(host, 1.0, processorCount));
  }

  lemma SelfRatio(x: real)
    requires x != 0.0
    ensures x / x == 1.0
  {
  }
}
