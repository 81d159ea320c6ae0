/** `UnifiedResponseFilter`: before a result is written, a successful
    object result is put inside the `ApiResponse` envelope, unless its value
    already is one; then the rest of the pipeline runs. */
module ResponseFilter {
  import opened Wrappers
  import opened GatewayModels

  /** A value an object result carries, as far as the filter looks at it:
      null, an `ApiResponse<T>` of any `T`, or anything else. */
  datatype Value =
    | Null
    | Envelope(status: string, message: string, time: Instant, data: Value)
    | Other(description: string)

  /** `context.Result`: an `ObjectResult` (or one of its subclasses, named
      by `kind`) with its optional status code, or any other result. */
  datatype ActionResult =
    | ObjectResult(kind: string, statusCode: Option<int>, value: Value)
    | OtherResult(description: string)

  const OkStatus := "ok"
  const SuccessMessage := "Thành công"

  /** The status code the filter tests: an unset code counts as 200. */
  function EffectiveStatus(r: ActionResult): int
    requires r.ObjectResult?
  {
    r.statusCode.GetOr(200)
  }

  /** Does the filter replace this result? */
  predicate ShouldWrap(r: ActionResult) {
    r.ObjectResult? && 200 <= EffectiveStatus(r) < 300 && !r.value.Envelope?
  }

  /** The result after the filter, `now` standing for `DateTimeOffset.UtcNow`:
      a plain `ObjectResult` with the explicit status code and the envelope
      around the original value. */
  function Wrap(r: ActionResult, now: Instant): (w: ActionResult)
    ensures !ShouldWrap(w)
    ensures w.ObjectResult? <==> r.ObjectResult?
  {
    if ShouldWrap(r) then
      ObjectResult("ObjectResult", Some(EffectiveStatus(r)), Envelope(OkStatus, SuccessMessage, now, r.value))
    else r
  }

  /** Running the filter twice changes nothing the first run did not. */
  lemma WrapIdempotent(r: ActionResult, first: Instant, second: Instant)
    ensures Wrap(Wrap(r, first), second) == Wrap(r, first)
  {
  }

  /** The envelope's data is the original value and the status code is
      kept: unwrapping gives back what the action returned. */
  lemma WrapKeepsValue(r: ActionResult, now: Instant)
    ensures Wrap(r, now).ObjectResult? <==> r.ObjectResult?
    ensures ShouldWrap(r) ==> Wrap(r, now).value.Envelope? && Wrap(r, now).value.data == r.value
    ensures r.ObjectResult? ==> EffectiveStatus(Wrap(r, now)) == EffectiveStatus(r)
  {
  }

  /** A result is wrapped exactly when it is an object result with an
      unset or 2xx status code whose value is not an envelope yet; in
      particular, null values are wrapped and 4xx/5xx results are not. */
  lemma WrapDecision(r: ActionResult, now: Instant)
    ensures Wrap(r, now) != r <==> (r.ObjectResult? && (r.statusCode.None? || 200 <= r.statusCode.value < 300)
      && !r.value.Envelope?)
  {
  }

  /** The context the filter receives: the result to be written, and the
      results the rest of the pipeline (`next`) has executed so far. */
  class ResultExecutingContext {
    var result: ActionResult
    var executed: seq<ActionResult>

    constructor (initial: ActionResult)
      ensures result == initial && executed == []
    {
      result := initial;
      executed := [];
    }

    /** `next()`: the rest of the pipeline executes the current result. */
    method Next()
      modifies this
      ensures result == old(result)
      ensures executed == old(executed) + [result]
    {
      executed := executed + [result];
    }
  }

  /** `OnResultExecutionAsync`: the result may be replaced, then `next`
      runs exactly once, on the replaced result. */
  method OnResultExecution(context: ResultExecutingContext, now: Instant)
    modifies context
    ensures context.result == Wrap(old(context.result), now)
    ensures context.executed == old(context.executed) + [context.result]
  {
    var current := context.result;
    if current.ObjectResult? {
      var statusCode := current.statusCode.GetOr(200);
      if statusCode >= 200 && statusCode < 300 {
        var isAlreadyWrapped := current.value.Envelope?;
        if !isAlreadyWrapped {
          var wrapped := Envelope(OkStatus, SuccessMessage, now, current.value);
          context.result := ObjectResult("ObjectResult", Some(statusCode), wrapped);
        }
      }
    }
    context.Next();
  }

  /** An error result passes through untouched: a 500 with a body. */
  lemma ServerErrorUntouched(now: Instant)
    ensures Wrap(ObjectResult("ObjectResult", Some(500), Other("ApiError")), now)
      == ObjectResult("ObjectResult", Some(500), Other("ApiError"))
  {
  }

  /** `Ok(x)` becomes a 200 envelope around `x`. */
  lemma OkResultWrapped(x: Value, now: Instant)
    requires !x.Envelope?
    ensures Wrap(ObjectResult("OkObjectResult", Some(200), x), now)
      == ObjectResult("ObjectResult", Some(200), Envelope("ok", "Thành công", now, x))
  {
  }
}
