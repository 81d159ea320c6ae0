# API gateway system metrics, health and configuration — a Dafny model

This project models the core of an ASP.NET Core API gateway that sits in
front of a text-generation service. The core covers five areas:

- **System metrics** (`SystemMetricsService`):
  - the human-readable byte formatter;
  - the CPU usage sampler, from two `/proc/stat` readings or from the process CPU time;
  - the `/proc/cpuinfo` aggregation and its override by the container CPU limit;
  - the memory figures, from the container cgroup files or from `/proc/meminfo`;
  - the storage totals over the drives;
  - the summary record that ties them together.
- **The system controller** (`SystemController`):
  - the classification of the downstream health check;
  - the `/health` report with its `overall` verdict;
  - the services entry that `Root` adds to the summary.
- **Configuration** (`ConfigurationExtensions`):
  - the `.env` loader and the choice of `.env.<environment>` over `.env`;
  - the option values derived from the environment, with their defaults.
- **Endpoint settings** (`ServiceEndpointsService`): the settings object filled from the environment once, when the service is built.
- **The response filter** (`UnifiedResponseFilter`): it wraps successful object results in the `ApiResponse` envelope, then calls the rest of the pipeline.

The model is written in the source's own form:

- **Pure Dafny functions** model the code made of expressions: the `/proc` and cgroup parsers, the controller, and the option defaults.
- **Methods with loop invariants** model the loops of `FormatBytesHuman`, `GetStorageInfo`, `memory.stat` scanning, `LoadEnvFile` and `LoadEnvironmentVariables`. Each method is proved equal to a specification function, and the properties are proved about that function.
- **Classes** model the objects the source updates in place:
  - the process environment that the loader writes;
  - the `ServiceEndpointsConfig` whose fields it overwrites;
  - the filter's result context.

What the program reads from its environment becomes a parameter:

- the contents of `/proc/stat`, `/proc/cpuinfo` and `/proc/meminfo`;
- each cgroup file: missing, existing but unreadable (its read throws), or its contents;
- the drives;
- `Environment.ProcessorCount`;
- the process environment;
- the `.env` files that exist and their lines;
- the outcome of the downstream HTTP request;
- the current time.

Each file holds one module:

| file | module | source |
|---|---|---|
| wrappers.dfy | `Wrappers` | `Option`/`Result` |
| text.dfy | `Text` | the .NET string and number primitives the core relies on (`Trim`, `Split`, `IndexOf`, `ulong.TryParse`, `int.Parse`, `double.TryParse`, `"0.##"`/`F1` formatting) |
| bytes.dfy | `ByteFormat` | `FormatBytesHuman` |
| cgroups.dfy | `ContainerLimits` | `GetContainerCpuLimit`, `GetContainerMemoryLimit`, `GetContainerMemoryUsage` |
| cpu.dfy | `CpuMetrics` | `GetCpuUsagePercentAsync` with `ReadStat`, `GetCpuInfoAsync` |
| memory.dfy | `MemoryMetrics` | `GetMemoryInfo` with `ReadKb` |
| storage.dfy | `StorageMetrics` | `GetStorageInfo` |
| models.dfy | `GatewayModels` | the DTO records |
| summary.dfy | `SystemSummary` | `GetSystemSummaryAsync` |
| health.dfy | `SystemController` | `Root`, `Health`, `CheckTextGenerateServiceHealth` |
| envfile.dfy | `EnvConfiguration` | `LoadEnvFile`, `LoadEnvironmentVariables`, `AddAppConfiguration` |
| endpoints.dfy | `ServiceEndpoints` | `ServiceEndpointsConfig`, `ServiceEndpointsService` |
| response_filter.dfy | `ResponseFilter` | `UnifiedResponseFilter` |

Integers keep the source's widths where they matter:

- `ulong` sums and differences wrap modulo 2^64;
- `kb * 1024` wraps;
- `int.Parse` and `int.TryParse` accept only 32-bit values;
- `double` values are exact reals.

## Model

| member | source | states |
|---|---|---|
| ByteFormat.UnitOrder | Services/SystemMetricsService.cs:52-59 | the unit index is the one whose power of 1024 the byte count reaches and the next does not, capped at PB |
| ByteFormat.UnitOrderUnique | Services/SystemMetricsService.cs:55-59 | only one unit index satisfies that condition |
| ByteFormat.UnitOrderMonotone | Services/SystemMetricsService.cs:55-59 | more bytes never give a smaller unit |
| ByteFormat.MagnitudeBounds | Services/SystemMetricsService.cs:55-59 | the number shown is below 1024 unless the unit is PB and at least 1 unless it is B |
| ByteFormat.ScaleBytes | Services/SystemMetricsService.cs:53-59 | the division loop ends with the unit index and the scaled length, and that length is bytes / 1024^order |
| ByteFormat.StopIsUnit | Services/SystemMetricsService.cs:53-59 | where the division loop stops is the one unit the count belongs to, with a number of at least 1 above bytes |
| ByteFormat.FormatBytesHuman | Services/SystemMetricsService.cs:50-61 | the text is the `0.##`-formatted magnitude, a space and the unit |
| ByteFormat.HumanBytesExamples | Services/SystemMetricsService.cs:50-61 | 0 gives "0 B", 1024 gives "1 KB", 1536 gives "1.5 KB" |
| CpuMetrics.WrappingSum | Services/SystemMetricsService.cs:85 | the unchecked `ulong` fold is the exact sum modulo 2^64 |
| CpuMetrics.WrappingSumExact | Services/SystemMetricsService.cs:85 | without overflow the fold is the exact sum |
| CpuMetrics.PerCoreLineIsNotCpuLine | Services/SystemMetricsService.cs:81 | a per-core line such as `cpu0 …` is not the aggregate line |
| CpuMetrics.FirstCpuLine | Services/SystemMetricsService.cs:81 | the index found is that of the first line starting with "cpu ", or the line count when there is none |
| CpuMetrics.FirstCpuLineAt | Services/SystemMetricsService.cs:81 | the first line starting with "cpu " is the one chosen |
| CpuMetrics.ParseAll | Services/SystemMetricsService.cs:83 | the fields parse exactly when each does, and the values are the parsed fields in order |
| CpuMetrics.LineTicks | Services/SystemMetricsService.cs:83-86 | a line reads only when every field parses and there are at least four; idle is the fourth field and total the wrapped sum |
| CpuMetrics.ReadStat | Services/SystemMetricsService.cs:78-87 | an unreadable file is an error; a file without a "cpu " line reads as (0, 0) |
| CpuMetrics.ReadStatUsesFirstCpuLine | Services/SystemMetricsService.cs:80-86 | the reading is the one of the first "cpu " line |
| CpuMetrics.WrappingSub | Services/SystemMetricsService.cs:92-93 | `ulong` subtraction wraps around when the second reading is smaller |
| CpuMetrics.Clamp | Services/SystemMetricsService.cs:75 | `Math.Clamp` stays within the bounds, keeps a value already inside them, and gives the nearer bound otherwise |
| CpuMetrics.UsageBetween | Services/SystemMetricsService.cs:89-96 | the usage is within [0, 100] and is 0 when the total did not move |
| CpuMetrics.UsageIsBusyShare | Services/SystemMetricsService.cs:92-96 | for counters that only grow, the usage is the busy share of the elapsed ticks, times 100 |
| CpuMetrics.ProcessUsage | Services/SystemMetricsService.cs:67-75 | the process-time usage is within [0, 100]; for a CPU time within the wall-clock time of all processors it is that share times 100, and it is 0 or 100 beyond either end |
| CpuMetrics.CpuUsagePercent | Services/SystemMetricsService.cs:63-97 | a result is within [0, 100]; on Linux it exists exactly when both readings succeed; elsewhere it always exists |
| CpuMetrics.UsageWithoutCpuLine | Services/SystemMetricsService.cs:82-94 | two readings of a file without a "cpu " line give 0 |
| CpuMetrics.AfterColon | Services/SystemMetricsService.cs:104-118 | the text after `key\s*:\s*` exists only for lines starting with the key |
| CpuMetrics.CoresDigits | Services/SystemMetricsService.cs:112 | `cpu cores` matches capture only digits |
| CpuMetrics.MhzText | Services/SystemMetricsService.cs:118 | `cpu MHz` matches capture a non-empty run of digits and dots |
| CpuMetrics.FirstModelName | Services/SystemMetricsService.cs:104-107 | there is no model name exactly when no line matches `model name` |
| CpuMetrics.FirstModelNameAt | Services/SystemMetricsService.cs:104-107 | when line i is the first to match `model name`, its text is the model |
| CpuMetrics.ProcessorLines | Services/SystemMetricsService.cs:109 | the count is 0 exactly when no line is a `processor : N` line |
| CpuMetrics.CapturesInOrder | Services/SystemMetricsService.cs:112-122 | the values the `Regex.Matches` loops collect are, in order, exactly the captures of the matching lines: each value comes from a matching line, the lines are increasing, and every matching line is listed |
| CpuMetrics.CapturesEmpty | Services/SystemMetricsService.cs:112-122 | nothing is collected exactly when no line matches |
| CpuMetrics.CoresValue | Services/SystemMetricsService.cs:112-114 | a `cpu cores` value exists exactly when the line matches |
| CpuMetrics.MhzReading | Services/SystemMetricsService.cs:118-120 | a `cpu MHz` value exists only for matching lines and is non-negative |
| CpuMetrics.CoreCounts | Services/SystemMetricsService.cs:112-115 | the counts exist exactly when no `cpu cores` value overflows an `int`, and are then the values of the matching lines in order |
| CpuMetrics.MhzValues | Services/SystemMetricsService.cs:118-120 | the frequencies exist exactly when every `cpu MHz` text is a decimal number, and are then the values of the matching lines in order, all non-negative |
| CpuMetrics.MaxOf | Services/SystemMetricsService.cs:116 | the maximum is an element of the list and no element exceeds it |
| CpuMetrics.Average | Services/SystemMetricsService.cs:121-122 | the average is non-negative, 0 for no values, and otherwise times the count equals the sum |
| CpuMetrics.HostCpuInfo | Services/SystemMetricsService.cs:103-122 | a reading succeeds exactly when the core counts and the frequencies parse; it then has at least one logical processor and a non-negative frequency |
| CpuMetrics.HostCpuInfoFaults | Services/SystemMetricsService.cs:103-122 | the reading succeeds exactly when no `cpu cores` value overflows and every `cpu MHz` text parses; an overflow is an `OverflowException`, and otherwise a malformed frequency is a `FormatException` |
| CpuMetrics.HostCpuInfoFields | Services/SystemMetricsService.cs:104-122 | the model is the first `model name` or "Unknown CPU"; logical processors are the `processor` count or `ProcessorCount`; physical cores bound every `cpu cores` value and equal one of them, or the logical count when there is none; the frequency is the mean of the `cpu MHz` values |
| CpuMetrics.MaxCoresOfLines | Services/SystemMetricsService.cs:112-116 | the largest collected `cpu cores` value is that of some line and bounds every line's value |
| CpuMetrics.Ceiling | Services/SystemMetricsService.cs:129-130 | the ceiling is the least integer not below the value |
| CpuMetrics.ContainerCores | Services/SystemMetricsService.cs:129-130 | the container core count is at least 1 and covers the limit |
| CpuMetrics.ApplyContainerLimit | Services/SystemMetricsService.cs:124-144 | no limit keeps the host figures; a limit sets both core counts to its ceiling; the model gets the container note only when the limit is below `ProcessorCount` |
| CpuMetrics.HalfCoreNote | Services/SystemMetricsService.cs:135-137 | a 0.5 limit reads " (Container: 0.5 CPU cores)" with one core |
| CpuMetrics.TenthsOfCoreNote | Services/SystemMetricsService.cs:135-137 | a limit of t tenths of a core, below one core, is written with one decimal as "0.t" |
| CpuMetrics.WholeCoresNote | Services/SystemMetricsService.cs:139-142 | a whole limit of n cores, from one up, is written without decimals as n |
| CpuMetrics.LinuxCpuInfo | Services/SystemMetricsService.cs:101-147 | an unreadable `/proc/cpuinfo` is an error; a failing host reading is returned as is; otherwise the result is the host figures with the container CPU limit applied |
| CpuMetrics.OtherCpuInfo | Services/SystemMetricsService.cs:150 | off Linux both counts are `ProcessorCount`, the frequency is 0 and the model is "CPU N logical cores" |
| CpuMetrics.NoContainerKeepsHostFigures | Services/SystemMetricsService.cs:125-126 | without cgroup files the host figures are returned unchanged |
| CpuMetrics.OneCoreContainer | Services/SystemMetricsService.cs:125-130 | a `cpu.max` whose quota equals its period gives one logical and one physical core |
| ContainerLimits.CpuMaxPair | Services/SystemMetricsService.cs:325-332 | a pair is read exactly when the trimmed text splits into two fields, the first not "max", both numbers; it is then those two numbers |
| ContainerLimits.CpuMaxPairOfCounts | Services/SystemMetricsService.cs:325-332 | the kernel's `quota period` line reads back as those two numbers |
| ContainerLimits.V2CpuLimit | Services/SystemMetricsService.cs:323-333 | the v2 step raises exactly when `cpu.max` cannot be read; it finds a limit exactly when a pair is read, and the limit is then quota over period |
| ContainerLimits.V1CpuLimit | Services/SystemMetricsService.cs:337-347 | the v1 step raises exactly when both files exist and one cannot be read; it finds a limit exactly when both are read, the quota is not "-1", both parse and the period is positive, and the limit is then quota over period |
| ContainerLimits.SharesCpuLimit | Services/SystemMetricsService.cs:351-362 | the shares step raises exactly when `cpu.shares` cannot be read; it finds a limit exactly when the shares parse and are below 1024, and the limit is then shares over 1024, below one core |
| ContainerLimits.ContainerCpuLimit | Services/SystemMetricsService.cs:318-371 | the CPU limit is 0 or the limit one of the three steps found |
| ContainerLimits.CpuLimitWithoutFiles | Services/SystemMetricsService.cs:370 | without cgroup files the CPU limit is 0 |
| ContainerLimits.CpuLimitPrecedence | Services/SystemMetricsService.cs:318-371 | the first step that finds a limit decides, in the order v2, v1, shares; a step that raises before that gives 0, and so does finding nothing; below v2 and v1 the limit is under one core |
| ContainerLimits.CpuMaxQuotaOverPeriod | Services/SystemMetricsService.cs:323-333 | a `cpu.max` of `quota period` with a positive period gives the limit quota over period, whatever the v1 files hold |
| ContainerLimits.CpuMaxUnlimitedFallsThrough | Services/SystemMetricsService.cs:327 | a `cpu.max` of "max period" is ignored, as if the file were absent |
| ContainerLimits.CfsQuotaOverPeriod | Services/SystemMetricsService.cs:337-347 | without `cpu.max`, v1 quota and period counts give quota over period |
| ContainerLimits.UnlimitedQuotaFallsThrough | Services/SystemMetricsService.cs:342 | a v1 quota of "-1" is ignored, as if the file were absent |
| ContainerLimits.SharesEstimate | Services/SystemMetricsService.cs:351-362 | with only `cpu.shares`, a count below 1024 gives count over 1024 and 1024 or more gives 0 |
| ContainerLimits.UnreadableCpuMaxGivesZero | Services/SystemMetricsService.cs:365-370 | a `cpu.max` that exists but cannot be read ends the probe with 0, whatever the v1 files hold |
| ContainerLimits.V2MemoryLimit | Services/SystemMetricsService.cs:234-241 | the v2 step raises exactly when `memory.max` cannot be read; it finds a limit exactly when the trimmed text is not "max" and parses, and the limit is that number |
| ContainerLimits.V1MemoryLimit | Services/SystemMetricsService.cs:244-255 | the v1 step raises exactly when `memory.limit_in_bytes` cannot be read; it finds a limit exactly when the text parses to a value below 2^62, and the limit is that value |
| ContainerLimits.StatLineLimit | Services/SystemMetricsService.cs:264-273 | a `memory.stat` line gives a limit exactly when it starts with "hierarchical_memory_limit " and its second field parses to a value below 2^62; the limit is then that value |
| ContainerLimits.StatLineOfLimit | Services/SystemMetricsService.cs:264-273 | a "hierarchical_memory_limit N" line with N below 2^62 gives N |
| ContainerLimits.HierarchicalLimit | Services/SystemMetricsService.cs:258-276 | `memory.stat` gives nothing exactly when no line carries a usable limit; a limit found is below 2^62 |
| ContainerLimits.HierarchicalLimitAt | Services/SystemMetricsService.cs:262-272 | the first usable line decides |
| ContainerLimits.StatMemoryLimit | Services/SystemMetricsService.cs:258-276 | the `memory.stat` step raises exactly when the file cannot be read, and otherwise finds the first stated limit |
| ContainerLimits.ScanMemoryStat | Services/SystemMetricsService.cs:258-276 | the scanning loop returns the first usable line's limit |
| ContainerLimits.ReadMemoryMax | Services/SystemMetricsService.cs:234-241 | the v2 step reads the v2 limit |
| ContainerLimits.ReadLimitInBytes | Services/SystemMetricsService.cs:244-255 | the v1 step reads the v1 limit |
| ContainerLimits.ContainerMemoryLimit | Services/SystemMetricsService.cs:229-284 | the early returns give v2, then v1, then `memory.stat`, then 0 |
| ContainerLimits.MemoryLimit | Services/SystemMetricsService.cs:229-284 | the memory limit is 0 or the limit one of the three steps found |
| ContainerLimits.MemoryLimitPrecedence | Services/SystemMetricsService.cs:229-284 | the first step that finds a limit decides, in the order `memory.max`, `memory.limit_in_bytes`, `memory.stat`; a step that raises before that gives 0, and so does finding nothing |
| ContainerLimits.MemoryLimitWithoutFiles | Services/SystemMetricsService.cs:283 | without cgroup files the memory limit is 0 |
| ContainerLimits.MemoryLimitBelowSentinelWithoutV2 | Services/SystemMetricsService.cs:250-269 | without a v2 limit every limit found is below 2^62 |
| ContainerLimits.MemoryMaxUnlimitedFallsThrough | Services/SystemMetricsService.cs:237 | a `memory.max` of "max" is ignored, as if the file were absent |
| ContainerLimits.MemoryMaxWins | Services/SystemMetricsService.cs:236-240 | a numeric `memory.max` is the limit, whatever the other files hold |
| ContainerLimits.LimitInBytesUsed | Services/SystemMetricsService.cs:244-255 | without `memory.max`, a v1 count below 2^62 is the limit and a larger one hands over to `memory.stat` |
| ContainerLimits.HierarchicalLimitUsed | Services/SystemMetricsService.cs:258-276 | without the two limit files, the first limit `memory.stat` states is the limit |
| ContainerLimits.UnreadableLimitFileGivesZero | Services/SystemMetricsService.cs:278-283 | a limit file that exists but cannot be read gives 0 unless an earlier step found a limit |
| ContainerLimits.V2MemoryUsage | Services/SystemMetricsService.cs:291-298 | the `memory.current` step raises exactly when the file cannot be read, and finds its parsed value |
| ContainerLimits.V1MemoryUsage | Services/SystemMetricsService.cs:301-308 | the `memory.usage_in_bytes` step raises exactly when the file cannot be read, and finds its parsed value |
| ContainerLimits.MemoryUsage | Services/SystemMetricsService.cs:286-316 | the usage is 0 or the value one of the two steps found |
| ContainerLimits.MemoryUsageSources | Services/SystemMetricsService.cs:286-316 | a parsable `memory.current` is the usage; a missing or unparsable one hands over to a parsable `memory.usage_in_bytes`; an unreadable `memory.current` gives 0, and so does neither file parsing |
| ContainerLimits.MemoryCurrentRead | Services/SystemMetricsService.cs:291-298 | the count the kernel writes into `memory.current` is the usage |
| MemoryMetrics.SaturatingSub | Services/SystemMetricsService.cs:164 | free memory is the difference, floored at 0 |
| MemoryMetrics.Percent | Services/SystemMetricsService.cs:196 | the share is used over total times 100 for a non-zero total, and 0 for a zero total |
| MemoryMetrics.PercentAtMostHundred | Services/SystemMetricsService.cs:196 | a used part within the total is at most 100 percent |
| MemoryMetrics.ContainerMemory | Services/SystemMetricsService.cs:159-167 | the container total is the limit; free plus used equals the limit when usage is within it, and free is 0 otherwise |
| MemoryMetrics.ContainerOverLimit | Services/SystemMetricsService.cs:165 | usage above the limit is reported above 100 percent |
| MemoryMetrics.FirstWithKey | Services/SystemMetricsService.cs:175 | the line chosen is the first starting with the key, ignoring case |
| MemoryMetrics.FirstWithKeyAt | Services/SystemMetricsService.cs:175 | that first matching line is the one picked |
| MemoryMetrics.ReadKb | Services/SystemMetricsService.cs:173-181 | a key on no line reads as 0 |
| MemoryMetrics.ReadKbFirstLine | Services/SystemMetricsService.cs:175-180 | the value is read from the first matching line |
| MemoryMetrics.LineKbOfField | Services/SystemMetricsService.cs:177-179 | a kernel line "Key:", a run of white space, digits and an optional " kB" reads as the number the digits spell |
| MemoryMetrics.KbToBytes | Services/SystemMetricsService.cs:187 | the kB count times 1024, exact when it does not overflow |
| MemoryMetrics.FreeKb | Services/SystemMetricsService.cs:184-185 | `MemAvailable` unless it reads 0, then `MemFree` |
| MemoryMetrics.HostMemory | Services/SystemMetricsService.cs:183-187 | total and free are the kB figures in bytes; the used share is 1 minus free over total, times 100, or 0 without a total |
| MemoryMetrics.HostPercentBounds | Services/SystemMetricsService.cs:186 | with free within total the host share is within [0, 100] |
| MemoryMetrics.MemoryInfoOf | Services/SystemMetricsService.cs:154-199 | a container limit gives the container figures; otherwise `/proc/meminfo`, whose absence is an error; off Linux the GC figures |
| StorageMetrics.WrappingAdd | Services/SystemMetricsService.cs:212-213 | `ulong +=` wraps modulo 2^64 |
| StorageMetrics.SumsAreWrappedTotals | Services/SystemMetricsService.cs:205-216 | the sums are the exact totals over ready fixed and removable drives, modulo 2^64; a failing free-space getter keeps the total already added |
| StorageMetrics.UncountedDriveIgnored | Services/SystemMetricsService.cs:206 | a drive not ready, or neither fixed nor removable, changes nothing wherever it is |
| StorageMetrics.Summary | Services/SystemMetricsService.cs:218-221 | used is total minus free floored at 0, never above total; the share is within [0, 100] and 0 for a zero total |
| StorageMetrics.UsedShare | Services/SystemMetricsService.cs:219 | the used share of a non-zero total is within [0, 100] |
| StorageMetrics.StorageOf | Services/SystemMetricsService.cs:223-226 | a failing drive enumeration gives all zeros |
| StorageMetrics.GetStorageInfo | Services/SystemMetricsService.cs:201-227 | the drive loop computes the storage figures of the drives |
| StorageMetrics.OneFixedDrive | Services/SystemMetricsService.cs:205-221 | one ready fixed drive of 100 bytes with 40 free gives 60 used, 60 percent |
| SystemSummary.SummaryOf | Services/SystemMetricsService.cs:21-47 | the summary is named "api-gateway" and carries the OS and time; it copies the model and core counts; the GHz figure, the usage and both used shares are rounded to 2 decimals with ties to even; every byte count goes through the byte formatter |
| Text.RoundEvenCount | Services/SystemMetricsService.cs:31 | `Math.Round(x, d)` picks a multiple of 10^-d within half a step of x, and the even one on a tie |
| Text.RoundHalfEven | Services/SystemMetricsService.cs:31 | the rounded value is that multiple of 10^-d |
| Text.RoundHalfEvenOfMultiple | Services/SystemMetricsService.cs:31 | a value with at most d decimals is unchanged |
| Text.RoundHalfEvenTies | Services/SystemMetricsService.cs:31 | 0.125 rounds to 0.12 and 0.135 to 0.14 |
| SystemSummary.Summary | Services/SystemMetricsService.cs:10-48 | the summary exists exactly when the CPU, usage and memory probes succeed, and is then built from their figures and the storage figures |
| SystemController.Entry | Controllers/SystemController.cs:125-168 | every entry shows its time as the milliseconds followed by "ms" |
| SystemController.CheckHealth | Controllers/SystemController.cs:110-170 | a returned entry is stamped with the current time, and its time text matches its millisecond count |
| SystemController.UnknownEntry | Controllers/SystemController.cs:53-59 | the fallback entry is "unknown", 0 ms, "0ms", with the exception message |
| SystemController.Classification | Controllers/SystemController.cs:116-169 | healthy exactly for a 2xx response with a JSON body; unhealthy exactly for a non-2xx response; unreachable exactly for a transport failure; timeout exactly for a cancellation; unknown otherwise |
| SystemController.ClassifiedDetails | Controllers/SystemController.cs:125-168 | each entry carries the document, the status code and reason, the transport message, or "Request timeout" with the message, and the stopwatch reading |
| SystemController.ResponseTimeConsistent | Controllers/SystemController.cs:129-164 | every entry, thrown or not, shows its time as its millisecond count with "ms" |
| SystemController.Health | Controllers/SystemController.cs:68-108 | the gateway is always "healthy"; the downstream entry is the check's; a check that threw gives "degraded" |
| SystemController.OverallFollowsService | Controllers/SystemController.cs:82-103 | `overall` is "healthy" exactly when the downstream status is, and "degraded" otherwise |
| SystemController.Root | Controllers/SystemController.cs:35-64 | the summary is returned with its services set to the single "text-generate" entry and nothing else changed |
| SystemController.RootHasOneService | Controllers/SystemController.cs:43-60 | whatever the outcome, the services map has exactly the one key |
| EnvConfiguration.SetVariable | Configuration/ConfigurationExtensions.cs:82 | setting is refused for an empty name, one starting with U+0000 or one holding `=`; an empty value deletes the variable |
| EnvConfiguration.Unquote | Configuration/ConfigurationExtensions.cs:74-77 | one pair of surrounding quotes is removed; a lone `"` throws; any other value is kept |
| EnvConfiguration.ParseLine | Configuration/ConfigurationExtensions.cs:63-77 | blank and `#` lines, lines without `=` and lines starting with `=` assign nothing; an assigned name never holds `=` |
| EnvConfiguration.LoadFile | Configuration/ConfigurationExtensions.cs:56-90 | a file that cannot be read changes nothing; every variable that holds a non-empty value keeps it |
| EnvConfiguration.KeepsSetVariables | Configuration/ConfigurationExtensions.cs:79-83 | after any lines, every variable that held a non-empty value still holds it |
| EnvConfiguration.NoOverwrite | Configuration/ConfigurationExtensions.cs:79-83 | a variable that already holds a non-empty value keeps it |
| EnvConfiguration.OnlyNamedVariablesChange | Configuration/ConfigurationExtensions.cs:61-84 | variables no line names stay as they were |
| EnvConfiguration.FaultStops | Configuration/ConfigurationExtensions.cs:58-89 | a line that throws ends the file: nothing after it is applied, and what came before stays |
| EnvConfiguration.FirstValueWins | Configuration/ConfigurationExtensions.cs:61-84 | with duplicate names the first line that gives an unset variable a value decides it |
| EnvConfiguration.FirstLineWins | Configuration/ConfigurationExtensions.cs:61-84 | the same on the lines of a file |
| EnvConfiguration.QuotedAssignment | Configuration/ConfigurationExtensions.cs:63-77 | `name="value"` assigns exactly the value between the quotes, spaces, `=` and quotes included |
| EnvConfiguration.PlainAssignment | Configuration/ConfigurationExtensions.cs:67-71 | `name=value` assigns the value, later `=` signs included |
| EnvConfiguration.LoneQuoteThrows | Configuration/ConfigurationExtensions.cs:74-76 | a value that is a single `"` makes the line throw |
| EnvConfiguration.CommentIgnored | Configuration/ConfigurationExtensions.cs:64-65 | a line starting with `#` assigns nothing |
| EnvConfiguration.ProcessEnvironment.LoadEnvFile | Configuration/ConfigurationExtensions.cs:56-90 | the loop leaves the environment the lines give, stopping at the first line that throws; an unreadable file changes nothing |
| EnvConfiguration.Candidates | Configuration/ConfigurationExtensions.cs:38-46 | the candidates are `.env.<environment>` lower-cased, defaulting to "development", then `.env` |
| EnvConfiguration.ChosenFile | Configuration/ConfigurationExtensions.cs:48-53 | the file loaded is an existing candidate, the environment-specific one when it exists, and none only when neither exists |
| EnvConfiguration.SpecificFileShadowsDefault | Configuration/ConfigurationExtensions.cs:48-53 | when the environment-specific file exists, `.env` is never read |
| EnvConfiguration.ProcessEnvironment.LoadEnvironmentVariables | Configuration/ConfigurationExtensions.cs:36-54 | exactly the first existing candidate is loaded, then the loop breaks |
| EnvConfiguration.IntParse | Configuration/ConfigurationExtensions.cs:16-17 | `int.Parse` succeeds exactly on a 32-bit integer text and yields its value |
| EnvConfiguration.TextGenerateOptions | Configuration/ConfigurationExtensions.cs:13-18 | the options exist exactly when timeout and retry count parse; the base URL is the variable or "http://127.0.0.1:8000"; timeout and retry count are `int.Parse` of their variable or of "30" and "3" |
| EnvConfiguration.UnsetIntegerDefaults | Configuration/ConfigurationExtensions.cs:16-17 | in any environment, an unset timeout is 30 and an unset retry count is 3; with the timeout unset, the options exist exactly when the retry count parses |
| EnvConfiguration.HealthCheckOptions | Configuration/ConfigurationExtensions.cs:20-26 | each health-check option is its variable or its default |
| EnvConfiguration.LoadBalancingOptions | Configuration/ConfigurationExtensions.cs:28-31 | the policy is its variable or "RoundRobin" |
| EnvConfiguration.DefaultOptions | Configuration/ConfigurationExtensions.cs:13-31 | an empty environment gives the defaults: 30 s timeout, 3 retries, "00:00:30", "00:00:05", "/api/system/server-info", "00:00:10", "RoundRobin" |
| EnvConfiguration.NonNumericTimeoutThrows | Configuration/ConfigurationExtensions.cs:16 | a non-numeric timeout makes the options throw |
| ServiceEndpoints.TryParseOr | Services/ServiceEndpointsService.cs:49-53 | the parsed value when `int.TryParse` succeeds, otherwise the current one |
| ServiceEndpoints.FromEnvironment | Services/ServiceEndpointsService.cs:40-83 | timeout and retry count are replaced only by text that parses |
| ServiceEndpoints.ServiceEndpointsConfig.constructor | Services/ServiceEndpointsService.cs:5-24 | a new config holds every property initialiser |
| ServiceEndpoints.LoadFromEnvironment | Services/ServiceEndpointsService.cs:40-83 | a fresh config whose fields are the settings the environment gives |
| ServiceEndpoints.LoadServiceFields | Services/ServiceEndpointsService.cs:45-56 | the URL, timeout, retry count and health path are overwritten from their variables and nothing else changes |
| ServiceEndpoints.LoadPolicyFields | Services/ServiceEndpointsService.cs:58-80 | the health-check, load-balancing and CORS fields are overwritten from their variables and nothing else changes |
| ServiceEndpoints.ServiceEndpointsService.constructor | Services/ServiceEndpointsService.cs:31-36 | the service holds a freshly loaded config |
| ServiceEndpoints.ServiceEndpointsService.GetConfig | Services/ServiceEndpointsService.cs:38 | the stored object itself is handed out |
| ServiceEndpoints.DefaultsWithoutVariables | Services/ServiceEndpointsService.cs:7-83 | without variables every field keeps its default |
| ServiceEndpoints.BaseUrlPrecedence | Services/ServiceEndpointsService.cs:45-47 | `TEXT_GENERATE_SERVICE_URL`, then `TEXT_GENERATE_BASE_URL`, then the default |
| ServiceEndpoints.UnparsableTimeoutKeepsDefault | Services/ServiceEndpointsService.cs:49-50 | a non-numeric timeout is ignored, keeping 120 |
| ServiceEndpoints.NumericTimeoutTaken | Services/ServiceEndpointsService.cs:49-50 | a decimal timeout is taken as written |
| ServiceEndpoints.AgreementWithAppOptions | Services/ServiceEndpointsService.cs:45-47 | the base URL agrees with the options unless the service URL is set; the default timeout (120 against 30) and interval differ |
| ResponseFilter.Wrap | Filters/UnifiedResponseFilter.cs:12-35 | the result after the filter never needs wrapping again, and it is an object result exactly when the original was |
| ResponseFilter.WrapIdempotent | Filters/UnifiedResponseFilter.cs:17-23 | wrapping a wrapped result changes nothing |
| ResponseFilter.WrapKeepsValue | Filters/UnifiedResponseFilter.cs:25-35 | object results stay object results; the envelope's data is the original value and the effective status code is kept |
| ResponseFilter.WrapDecision | Filters/UnifiedResponseFilter.cs:12-23 | a result changes exactly when it is an object result with an unset or 2xx status whose value is not already an envelope |
| ResponseFilter.ResultExecutingContext.Next | Filters/UnifiedResponseFilter.cs:39 | the rest of the pipeline executes the current result |
| ResponseFilter.OnResultExecution | Filters/UnifiedResponseFilter.cs:9-40 | the context's result becomes the wrapped result, and then `next` runs once, on it |
| ResponseFilter.ServerErrorUntouched | Filters/UnifiedResponseFilter.cs:15 | a 500 result passes through unchanged |
| ResponseFilter.OkResultWrapped | Filters/UnifiedResponseFilter.cs:25-35 | `Ok(x)` becomes a plain 200 object result holding status "ok", message "Thành công", the time and `x` |

## Left out

- I/O is replaced by parameters: file reads, `File.Exists`, `DriveInfo.GetDrives`, `Environment.ProcessorCount`, the GC memory figures, the HTTP call and the clock.
- Concurrency: the two `Task.Delay(500)` waits and `Task.WhenAll` are not modelled. The summary runs its probes one after another.
- Cancellation of the delays is not modelled: cancelling them makes `GetCpuUsagePercentAsync` throw.
- Floating point: `double` is modelled as exact reals. IEEE rounding, values above 2^53 and infinities are not captured.
- `double.TryParse` is modelled as plain decimal text with an optional sign. Exponents, thousands separators and culture-specific decimal separators are not accepted.
- `int.Parse`, `int.TryParse` and `ulong.TryParse` are modelled with the invariant culture. Leading/trailing white space and a sign are allowed.
- The `{len:0.##}` format of `FormatBytesHuman` and the `F1`/`F0` formats of the container note use the current culture's decimal separator in .NET. The model always writes '.'.
- Regular expressions in `GetCpuInfoAsync` and `ReadKb` are modelled per line. Two things are not captured: a `\s*` that crosses a line break, and Unicode digits matched by `\d`.
- `ContainerLimits.ContainerCpuLimit`: requires the v2 `cpu.max` period to be non-zero. A zero period makes the source divide by zero and yield infinity or NaN, which exact reals do not have.
- `CpuMetrics.LinuxCpuInfo`: requires the container limit to fit in an `int`. The source's `(int)` cast of a larger `Math.Ceiling` is not modelled.
- Case-insensitive comparison (`StringComparison.OrdinalIgnoreCase`, `ToLower`) is modelled on ASCII letters only.
- `StartsWith("#")`, `StartsWith("\"")` and `EndsWith("\"")` in `LoadEnvFile`, and `StartsWith("cpu ")` and `StartsWith("hierarchical_memory_limit ")` in `SystemMetricsService`, are culture-sensitive in .NET and are modelled as ordinal comparisons.
- Line splitting: `File.ReadAllLines` line splitting is not modelled. The lines of a `.env` file and of `/proc/meminfo` are given.
- `DriveInfo` exceptions are modelled only from the size getters.
- The `SystemController` constructor is not modelled. It sets the `HttpClient` base address and timeout from configuration, through `GetValue<int>` with its binder-specific conversions.
- `JsonSerializer.Deserialize`: the document is taken as given, and a malformed body is the exception it raises.
- `LogConfiguration`, the console messages and the logger calls are not modelled: they only write logs.
- Not part of this model: `TextGenerateController`, `DynamicProxyConfigProvider`, the middleware classes, and `Program.cs`'s service registration.
- `TEXT_GENERATE_RETRY_COUNT` is only read and logged. Nothing in the core retries a request, so the model has no retry behaviour.
- `AddAppConfiguration` runs its option lambdas lazily: the error from `int.Parse` surfaces when the options are first resolved. The model gives it as the result of computing the options.
- ResponseFilter: only the filter's view of the result is modelled (its kind, status code and value). Content types, formatters and declared types are not carried.
