/** The records the gateway returns: the system summary with its CPU,
    memory and storage parts, and the health entry of the downstream
    text-generation service. Times are opaque instants supplied by the
    caller (`DateTimeOffset.UtcNow` in the source). */
module GatewayModels {
  import opened Wrappers

  type Instant = int

  datatype CpuInfoDto = CpuInfoDto(model: string, physicalCores: int, logicalProcessors: int, averageGHz: real, usagePercent: real)

  datatype MemoryInfoDto = MemoryInfoDto(total: string, free: string, usedPercent: real)

  datatype StorageInfoDto = StorageInfoDto(total: string, free: string, used: string, usedPercent: real)

  /** What sets each health entry apart besides its status and timing. */
  datatype HealthDetail =
    | ServerInfo(serverInfo: string)                  // the downstream JSON document
    | StatusInfo(statusCode: int, reason: Option<string>)
    | ErrorInfo(error: string)
    | TimeoutInfo(error: string, details: string)

  /** The anonymous object `CheckTextGenerateServiceHealth` returns, and
      the "unknown" object its callers build when it throws. */
  datatype ServiceHealth = ServiceHealth(
    status: string,
    responseTimeMs: nat,
    responseTime: string,
    lastChecked: Instant,
    detail: HealthDetail)

  datatype SystemSummaryDto = SystemSummaryDto(
    name: string,
    time: Instant,
    os: string,
    cpu: CpuInfoDto,
    memory: MemoryInfoDto,
    storage: StorageInfoDto,
    services: Option<map<string, ServiceHealth>>)
}
