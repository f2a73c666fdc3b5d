/**
 The POST /format pipeline as one atomic transition: the metrics middleware
 (`FormatMetricsMiddleware`) buffers the body, runs the handler, then records
 the request. Each critical section of the original is one step here, and a
 sequence of requests is handled one after another.
 */
module Service {
  import opened Formatters
  import opened Handler
  import opened Metrics

  /** The middleware's read of the request body. */
  datatype BodyRead = Buffered(body: Bytes) | ReadFailed

  /** One POST /format request: the raw `type` parameter (empty when absent),
      the middleware's body read, whether the handler's own re-read of the
      buffered body fails, and the time from the middleware's start (before its
      body read) to the handler's return, in nanoseconds. */
  datatype Request = Request(typeParam: string, read: BodyRead, handlerReadFails: bool, elapsed: nat)

  /** The response sent and the metrics record after the request. */
  datatype Outcome = Outcome(response: Response, metrics: Metrics)

  /** The handler's answer to a request whose body was buffered. */
  function HandlerAnswer(req: Request, libs: Libraries): HandlerResult
    requires req.read.Buffered?
  {
    Handle(req.typeParam, req.read.body, req.handlerReadFails, libs)
  }

  /** One request through the metrics middleware and the handler. */
  function Step(m: Metrics, req: Request, libs: Libraries): (o: Outcome)
    // an unreadable body is refused before the handler and before any counting
    ensures req.read.ReadFailed? ==>
      o.response == ErrorResponse(ReadFailureMessage, StatusBadRequest) && o.metrics == m
    // otherwise the handler answers, and the request is counted once whatever the answer
    ensures req.read.Buffered? ==>
      && o.response == HandlerAnswer(req, libs).response
      && o.metrics.requestCount == m.requestCount + 1
      && o.metrics.totalDuration == m.totalDuration + req.elapsed
      && o.metrics.maxPayloadSize == Max(m.maxPayloadSize, |req.read.body|)
      && o.metrics.errorCount == m.errorCount + (if o.response.status == StatusOK then 0 else 1)
  {
    match req.read
    case ReadFailed =>
      Outcome(ErrorResponse(ReadFailureMessage, StatusBadRequest), m)
    case Buffered(body) =>
      var h := Handle(req.typeParam, body, req.handlerReadFails, libs);
      var afterHandler := if h.errorRecorded then RecordError(m) else m;
      Outcome(h.response, RecordRequest(afterHandler, req.elapsed, |body|))
  }

  /** The metrics record after handling `reqs` in order, starting from `m`. */
  function Run(m: Metrics, reqs: seq<Request>, libs: Libraries): Metrics
    decreases |reqs|
  {
    if reqs == [] then m else Run(Step(m, reqs[0], libs).metrics, reqs[1..], libs)
  }

  // Reference definitions over a trace, independent of the metrics record.

  /** The payload size a request contributes: its body length, if it was read. */
  function Size(req: Request): nat {
    if req.read.Buffered? then |req.read.body| else 0
  }

  /** How many requests got past the middleware's body read. */
  function Served(reqs: seq<Request>): nat {
    if reqs == [] then 0
    else (if reqs[0].read.Buffered? then 1 else 0) + Served(reqs[1..])
  }

  /** How many of those were answered with something other than 200. */
  function Failures(reqs: seq<Request>, libs: Libraries): nat {
    if reqs == [] then 0
    else
      var failed := reqs[0].read.Buffered? && HandlerAnswer(reqs[0], libs).response.status != StatusOK;
      (if failed then 1 else 0) + Failures(reqs[1..], libs)
  }

  /** The elapsed time of the requests that got past the read. */
  function Elapsed(reqs: seq<Request>): nat {
    if reqs == [] then 0
    else (if reqs[0].read.Buffered? then reqs[0].elapsed else 0) + Elapsed(reqs[1..])
  }

  /** The largest body among the requests that got past the read; 0 if none did. */
  function LargestBody(reqs: seq<Request>): nat {
    if reqs == [] then 0 else Max(Size(reqs[0]), LargestBody(reqs[1..]))
  }

  /** Each field of the record after a trace is its start value moved by exactly
      the trace's contribution: one request per served request, one error per
      non-200 answer, the elapsed time of served requests, and the largest body. */
  lemma {:induction false} RunAccounting(m: Metrics, reqs: seq<Request>, libs: Libraries)
    ensures Run(m, reqs, libs).requestCount == m.requestCount + Served(reqs)
    ensures Run(m, reqs, libs).errorCount == m.errorCount + Failures(reqs, libs)
    ensures Run(m, reqs, libs).totalDuration == m.totalDuration + Elapsed(reqs)
    ensures Run(m, reqs, libs).maxPayloadSize == Max(m.maxPayloadSize, LargestBody(reqs))
    decreases |reqs|
  {
    if reqs != [] {
      RunAccounting(Step(m, reqs[0], libs).metrics, reqs[1..], libs);
    }
  }

  /** No trace answers more requests with an error than it serves. */
  lemma {:induction false} FailuresAtMostServed(reqs: seq<Request>, libs: Libraries)
    ensures Failures(reqs, libs) <= Served(reqs)
    decreases |reqs|
  {
    if reqs != [] {
      FailuresAtMostServed(reqs[1..], libs);
    }
  }

  /** Handling requests keeps the error count at or below the request count. */
  lemma {:induction false} RunKeepsErrorsBelowRequests(m: Metrics, reqs: seq<Request>, libs: Libraries)
    requires m.errorCount <= m.requestCount
    ensures Run(m, reqs, libs).errorCount <= Run(m, reqs, libs).requestCount
    decreases |reqs|
  {
    if reqs != [] {
      RunKeepsErrorsBelowRequests(Step(m, reqs[0], libs).metrics, reqs[1..], libs);
    }
  }

  /** From the initial record, the errors reported never exceed the requests. */
  lemma ErrorsNeverExceedRequests(reqs: seq<Request>, libs: Libraries)
    ensures Run(Zero, reqs, libs).errorCount <= Run(Zero, reqs, libs).requestCount
  {
    RunKeepsErrorsBelowRequests(Zero, reqs, libs);
  }

  /** No field of the record ever goes down. */
  lemma RunNeverDecreases(m: Metrics, reqs: seq<Request>, libs: Libraries)
    ensures var m' := Run(m, reqs, libs);
      && m'.requestCount >= m.requestCount && m'.errorCount >= m.errorCount
      && m'.totalDuration >= m.totalDuration && m'.maxPayloadSize >= m.maxPayloadSize
  {
    RunAccounting(m, reqs, libs);
  }

  /** LargestBody is the largest size among the served requests: an upper bound
      of every one of them, and attained by one of them when positive. */
  lemma {:induction false} LargestBodyIsLargest(reqs: seq<Request>)
    ensures forall i :: 0 <= i < |reqs| ==> Size(reqs[i]) <= LargestBody(reqs)
    ensures LargestBody(reqs) > 0 ==>
      exists i :: 0 <= i < |reqs| && reqs[i].read.Buffered? && Size(reqs[i]) == LargestBody(reqs)
    decreases |reqs|
  {
    if reqs != [] {
      LargestBodyIsLargest(reqs[1..]);
      forall i | 1 <= i < |reqs|
        ensures Size(reqs[i]) <= LargestBody(reqs)
      {
        assert reqs[i] == reqs[1..][i - 1];
      }
      if LargestBody(reqs) > 0 && LargestBody(reqs) != Size(reqs[0]) {
        var j :| 0 <= j < |reqs[1..]| && reqs[1..][j].read.Buffered? && Size(reqs[1..][j]) == LargestBody(reqs[1..]);
        assert reqs[j + 1] == reqs[1..][j];
      }
    }
  }

  /** From the initial record, the reported maximum payload is the largest body
      of all requests counted so far. */
  lemma MaxPayloadIsLargestBody(reqs: seq<Request>, libs: Libraries)
    ensures Run(Zero, reqs, libs).maxPayloadSize == LargestBody(reqs)
    ensures forall i :: 0 <= i < |reqs| ==> Size(reqs[i]) <= Run(Zero, reqs, libs).maxPayloadSize
  {
    RunAccounting(Zero, reqs, libs);
    LargestBodyIsLargest(reqs);
  }
}
