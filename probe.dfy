/** One probe of the monitored endpoint and the record it leaves in the
    metrics list (monitor_uol.py, the body of the monitoring loop).
    The HTTP call, the clock and the timestamp formatting are outside the
    model: a probe's outcome and its timestamp are inputs. */
module Probe {

  datatype Option<T> = None | Some(value: T)

  /** The "status" field of a record: "success" or "failure". */
  datatype Status = Success | Failure

  /** What one GET of the endpoint produced: a response with its status code
      and its measured response time in milliseconds, or any
      `requests.RequestException` raised by the request. */
  datatype ProbeOutcome = Response(code: int, elapsedMs: nat) | TransportError

  /** One entry of the metrics list. The timestamp is an opaque string;
      `statusCode` and `responseTimeMs` stand for the JSON fields that are
      null after a transport exception. */
  datatype Record = Record(timestamp: string, status: Status,
                           statusCode: Option<int>, responseTimeMs: Option<nat>)

  /** The only status code that counts as a successful probe. */
  const HealthyCode: int := 200

  /** The invariant every record of the list keeps: it is a success exactly
      when it carries the healthy code, and it carries a status code exactly
      when it carries a response time. */
  predicate Consistent(r: Record) {
    && (r.status == Success <==> r.statusCode == Some(HealthyCode))
    && (r.statusCode.Some? <==> r.responseTimeMs.Some?)
  }

  /** The record appended for one probe outcome. */
  function Classify(stamp: string, outcome: ProbeOutcome): (r: Record)
    ensures Consistent(r)
    ensures r.timestamp == stamp
    ensures r.status == Success <==> outcome.Response? && outcome.code == HealthyCode
    ensures outcome.Response? ==>
              r.statusCode == Some(outcome.code) && r.responseTimeMs == Some(outcome.elapsedMs)
    ensures outcome.TransportError? ==>
              r.status == Failure && r.statusCode == None && r.responseTimeMs == None
  {
    match outcome
    case Response(code, elapsedMs) =>
      Record(stamp, if code == HealthyCode then Success else Failure, Some(code), Some(elapsedMs))
    case TransportError =>
      Record(stamp, Failure, None, None)
  }

  /** The probe outcome a consistent record was built from. */
  function Outcome(r: Record): (outcome: ProbeOutcome)
    requires Consistent(r)
    ensures outcome.TransportError? <==> r.statusCode.None?
  {
    if r.statusCode.Some? then Response(r.statusCode.value, r.responseTimeMs.value)
    else TransportError
  }

  /** A record loses nothing about the outcome it was built from. */
  lemma ClassifyInjective(stamp: string, outcome: ProbeOutcome)
    ensures Outcome(Classify(stamp, outcome)) == outcome
  {
  }

  /** Every consistent record is the one its own outcome produces. */
  lemma ConsistentIsClassified(r: Record)
    requires Consistent(r)
    ensures Classify(r.timestamp, Outcome(r)) == r
  {
  }
}
