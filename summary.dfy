/** `SystemMetricsService.GetSystemSummaryAsync`: the figures of the other
    modules put into the summary record. The probes run one after another
    here; a failure of any of them escapes. */
module SystemSummary {
  import opened Wrappers
  import opened Text
  import opened GatewayModels
  import ByteFormat
  import CpuMetrics
  import MemoryMetrics
  import StorageMetrics

  /** The summary built from already computed figures. */
  function SummaryOf(os: string, now: Instant, cpu: CpuMetrics.CpuInfo, usage: real,
                     memory: MemoryMetrics.MemoryInfo, storage: StorageMetrics.StorageInfo): (r: SystemSummaryDto)
    ensures r.name == "api-gateway" && r.os == os && r.time == now && r.services.None?
    ensures r.cpu.model == cpu.model && r.cpu.physicalCores == cpu.physicalCores
      && r.cpu.logicalProcessors == cpu.logicalProcessors
    ensures r.cpu.averageGHz == RoundHalfEven(cpu.avgMHz / 1000.0, 2) && r.cpu.usagePercent == RoundHalfEven(usage, 2)
    ensures r.memory.usedPercent == RoundHalfEven(memory.usedPercent, 2)
    ensures r.storage.usedPercent == RoundHalfEven(storage.usedPercent, 2)
    ensures r.memory.total == ByteFormat.HumanBytes(memory.total) && r.memory.free == ByteFormat.HumanBytes(memory.free)
    ensures r.storage.total == ByteFormat.HumanBytes(storage.total) && r.storage.free == ByteFormat.HumanBytes(storage.free)
      && r.storage.used == ByteFormat.HumanBytes(storage.used)
  {
    SystemSummaryDto(
      "api-gateway", now, os,
      CpuInfoDto(cpu.model, cpu.physicalCores, cpu.logicalProcessors, RoundHalfEven(cpu.avgMHz / 1000.0, 2), RoundHalfEven(usage, 2)),
      MemoryInfoDto(ByteFormat.HumanBytes(memory.total), ByteFormat.HumanBytes(memory.free), RoundHalfEven(memory.usedPercent, 2)),
      StorageInfoDto(ByteFormat.HumanBytes(storage.total), ByteFormat.HumanBytes(storage.free),
        ByteFormat.HumanBytes(storage.used), RoundHalfEven(storage.usedPercent, 2)),
      None)
  }

  /** `GetSystemSummaryAsync`: the summary, or the first error among the
      CPU model, the CPU usage and the memory figures. Storage never fails. */
  function Summary(os: string, now: Instant, cpu: Result<CpuMetrics.CpuInfo>, usage: Result<real>,
                   memory: Result<MemoryMetrics.MemoryInfo>, drives: Option<seq<StorageMetrics.Drive>>): (r: Result<SystemSummaryDto>)
    ensures r.Ok? <==> cpu.Ok? && usage.Ok? && memory.Ok?
    ensures r.Ok? ==> r.value == SummaryOf(os, now, cpu.value, usage.value, memory.value, StorageMetrics.StorageOf(drives))
  {
    match (cpu, usage, memory)
    case (Ok(c), Ok(u), Ok(m)) => Ok(SummaryOf(os, now, c, u, m, StorageMetrics.StorageOf(drives)))
    case (Err(e), _, _) => Err(e)
    case (_, Err(e), _) => Err(e)
    case (_, _, Err(e)) => Err(e)
  }
}
