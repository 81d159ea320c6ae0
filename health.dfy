/** `SystemController`: the health classification of the downstream
    text-generation service (`CheckTextGenerateServiceHealth`), the
    `/health` report and the services entry `Root` adds to the summary.
    The single GET the check issues is modelled by its outcome. */
module SystemController {
  import opened Wrappers
  import opened Text
  import opened GatewayModels

  /** The text of a successful response, as `JsonSerializer.Deserialize`
      sees it. */
  datatype Body = Json(document: string) | MalformedJson(message: string)

  /** How the one `GetAsync("/api/system/server-info")` ended, with the
      stopwatch reading at that point. */
  datatype HttpOutcome =
    | Response(statusCode: int, reason: Option<string>, body: Body, elapsedMs: nat)
    | TransportFailure(message: string, elapsedMs: nat)   // HttpRequestException
    | Canceled(message: string, elapsedMs: nat)           // TaskCanceledException
    | OtherFailure(message: string)                       // any other exception

  const Healthy := "healthy"
  const Unhealthy := "unhealthy"
  const Unreachable := "unreachable"
  const TimedOut := "timeout"
  const UnknownStatus := "unknown"

  /** `HttpResponseMessage.IsSuccessStatusCode`. */
  predicate IsSuccess(statusCode: int) {
    200 <= statusCode <= 299
  }

  /** `$"{ms}ms"`. */
  function Millis(ms: nat): string {
    NatToString(ms) + "ms"
  }

  function Entry(status: string, ms: nat, now: Instant, detail: HealthDetail): (h: ServiceHealth)
    ensures h.status == status && h.responseTimeMs == ms && h.responseTime == Millis(ms)
    ensures h.lastChecked == now && h.detail == detail
  {
    ServiceHealth(status, ms, Millis(ms), now, detail)
  }

  /** `CheckTextGenerateServiceHealth`: an entry per outcome, or the
      message of the exception it lets through (a failing JSON parse of a
      successful body, or any exception other than the two it catches). */
  function CheckHealth(outcome: HttpOutcome, now: Instant): (r: Result<ServiceHealth>)
    ensures r.Ok? ==> r.value.responseTime == Millis(r.value.responseTimeMs) && r.value.lastChecked == now
  {
    match outcome
    case Response(code, reason, body, ms) =>
      if IsSuccess(code) then
        match body
        case Json(document) => Ok(Entry(Healthy, ms, now, ServerInfo(document)))
        case MalformedJson(message) => Err(message)
      else Ok(Entry(Unhealthy, ms, now, StatusInfo(code, reason)))
    case TransportFailure(message, ms) => Ok(Entry(Unreachable, ms, now, ErrorInfo(message)))
    case Canceled(message, ms) => Ok(Entry(TimedOut, ms, now, TimeoutInfo("Request timeout", message)))
    case OtherFailure(message) => Err(message)
  }

  /** The object the callers put in place of a check that threw. */
  function UnknownEntry(message: string, now: Instant): (h: ServiceHealth)
    ensures h.status == UnknownStatus && h.responseTimeMs == 0 && h.responseTime == "0ms"
    ensures h.detail == ErrorInfo(message) && h.lastChecked == now
  {
    assert NatToString(0) == "0";
    Entry(UnknownStatus, 0, now, ErrorInfo(message))
  }

  /** The entry a caller ends up with, whether the check returned or threw. */
  function ServiceEntry(outcome: HttpOutcome, now: Instant): ServiceHealth {
    match CheckHealth(outcome, now)
    case Ok(h) => h
    case Err(message) => UnknownEntry(message, now)
  }

  /** Each outcome gets exactly one status, decided by its kind and, for a
      response, by the status code and the body. */
  lemma Classification(outcome: HttpOutcome, now: Instant)
    ensures var s := ServiceEntry(outcome, now).status;
      && (s == Healthy <==> outcome.Response? && IsSuccess(outcome.statusCode) && outcome.body.Json?)
      && (s == Unhealthy <==> outcome.Response? && !IsSuccess(outcome.statusCode))
      && (s == Unreachable <==> outcome.TransportFailure?)
      && (s == TimedOut <==> outcome.Canceled?)
      && (s == UnknownStatus <==> outcome.OtherFailure? || (outcome.Response? && IsSuccess(outcome.statusCode) && outcome.body.MalformedJson?))
  {
  }

  /** What each classified entry carries: the document, the status code and
      reason, the transport message, or "Request timeout" with the message,
      and in every case the stopwatch reading. */
  lemma ClassifiedDetails(outcome: HttpOutcome, now: Instant)
    ensures outcome.Response? && IsSuccess(outcome.statusCode) && outcome.body.Json? ==>
      ServiceEntry(outcome, now).detail == ServerInfo(outcome.body.document)
    ensures outcome.Response? && !IsSuccess(outcome.statusCode) ==>
      ServiceEntry(outcome, now).detail == StatusInfo(outcome.statusCode, outcome.reason)
    ensures outcome.TransportFailure? ==> ServiceEntry(outcome, now).detail == ErrorInfo(outcome.message)
    ensures outcome.Canceled? ==> ServiceEntry(outcome, now).detail == TimeoutInfo("Request timeout", outcome.message)
    ensures !outcome.OtherFailure? && CheckHealth(outcome, now).Ok? ==>
      ServiceEntry(outcome, now).responseTimeMs == outcome.elapsedMs
  {
  }

  /** Every entry, thrown or not, shows its time as the milliseconds and "ms". */
  lemma ResponseTimeConsistent(outcome: HttpOutcome, now: Instant)
    ensures ServiceEntry(outcome, now).responseTime == Millis(ServiceEntry(outcome, now).responseTimeMs)
  {
    assert Millis(0) == "0ms" by {
      assert NatToString(0) == "0";
    }
  }

  /** The gateway part of `/health`. */
  datatype GatewayHealth = GatewayHealth(value: string, time: Instant)

  /** The `/health` body. */
  datatype HealthReport = HealthReport(gateway: GatewayHealth, textGenerate: ServiceHealth, overall: string)

  /** `Health`: the gateway is always healthy; the overall verdict follows
      the downstream status, "degraded" also when the check threw. */
  function Health(outcome: HttpOutcome, now: Instant): (r: HealthReport)
    ensures r.gateway == GatewayHealth(Healthy, now)
    ensures r.textGenerate == ServiceEntry(outcome, now)
    ensures CheckHealth(outcome, now).Err? ==> r.overall == "degraded"
  {
    var gateway := GatewayHealth(Healthy, now);
    match CheckHealth(outcome, now)
    case Ok(h) => HealthReport(gateway, h, if h.status == Healthy then Healthy else "degraded")
    case Err(message) => HealthReport(gateway, UnknownEntry(message, now), "degraded")
  }

  /** `overall` is "healthy" exactly when the downstream status is, and
      "degraded" otherwise. */
  lemma OverallFollowsService(outcome: HttpOutcome, now: Instant)
    ensures Health(outcome, now).overall == Healthy <==> Health(outcome, now).textGenerate.status == Healthy
    ensures Health(outcome, now).overall == Healthy || Health(outcome, now).overall == "degraded"
  {
  }

  const ServiceKey := "text-generate"

  /** `Root`: the summary with its `Services` set to the one entry. */
  function Root(data: SystemSummaryDto, outcome: HttpOutcome, now: Instant): (r: SystemSummaryDto)
    ensures r.services == Some(map[ServiceKey := ServiceEntry(outcome, now)])
    ensures r == data.(services := r.services)
  {
    data.(services := Some(map[ServiceKey := ServiceEntry(outcome, now)]))
  }

  /** Whatever the outcome, the services map has the one key. */
  lemma RootHasOneService(data: SystemSummaryDto, outcome: HttpOutcome, now: Instant)
    ensures Root(data, outcome, now).services.Some?
    ensures Root(data, outcome, now).services.value.Keys == {ServiceKey}
  {
  }
}
