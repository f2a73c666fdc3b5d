# Request accounting of the document-formatting service

The service has one endpoint, `POST /format?type=json|xml|html`. It re-serialises the
request body with the formatter that the `type` parameter names. A second endpoint,
`GET /metrics`, reports usage figures for `/format`. This project models the logic
between those two endpoints:

- the usage record `FormatAPIMetrics`: request count, error count, total duration and
  largest payload, with its two updates and the snapshot `/metrics` serves;
- the `/format` pipeline. The metrics middleware buffers the body, times the request and
  counts it. The handler lower-cases `type`, rejects a missing or unknown type,
  runs the chosen formatter and maps its result to 200, 400 or 500.

The model is functional. The record is an immutable `Metrics` value. Each request is one
atomic `Service.Step` from `(record, request)` to `(response, record')`, and a sequence of
requests is folded by `Service.Run`. Durations are natural numbers of nanoseconds, and the
elapsed time of each request is an input. Each formatter's library routines are one opaque
function in `Formatters.Libraries`. That function returns either the serialised bytes or
the stage that failed and the library's message. The wrapper code around those routines is
modelled exactly: the error-message prefixes and the newline appended to XML output.

Files: `metrics.dfy` (module `Metrics`), `formatters.dfy` (`Formatters`), `handler.dfy`
(`Handler`), `service.dfy` (`Service`).

Error responses go through Go's `http.Error`. It writes the message followed by a newline,
as `text/plain; charset=utf-8`. `Handler.ErrorResponse` models that behaviour.

Two points about the code:
- The handler checks that the type is supported only after it has read the body. If the
  body re-read fails, an unsupported type therefore gets "Failed to read request body", not
  the invalid-type message. The model keeps this order.
- `/metrics` takes the average on nanoseconds and only then converts it to milliseconds.
  For natural numbers this equals the reported total in milliseconds divided by the count,
  because `(t / c) / 10^6 == (t / 10^6) / c`. `Metrics.AverageMsFromTotalMs` proves it.

## Model

| member | source | states |
|---|---|---|
| Metrics.RecordRequest | main.go:69-75 | a recorded request adds exactly one request and its duration, leaves the error count alone, and raises the maximum payload to the new size only when it is exceeded |
| Metrics.RecordError | main.go:131-133 | recording an error moves the error count by exactly one and no other field |
| Metrics.Milliseconds | main.go:203-204 | a duration is reported as the whole number of milliseconds it contains, truncated |
| Metrics.AverageDuration | main.go:193-196 | the average is zero while no request was counted, otherwise the truncated quotient of total nanoseconds by count |
| Metrics.Report | main.go:198-206 | the snapshot carries the counts and maximum payload unchanged, the total truncated to milliseconds, a zero average before any request, and an average never above the total |
| Metrics.InitialReportIsZero | main.go:29 | the snapshot of the initial record is all zeros |
| Metrics.AverageMsFromTotalMs | main.go:193-204 | the average in milliseconds (computed on nanoseconds, then truncated) equals the reported total milliseconds divided by the count |
| Formatters.Format | main.go:80-122 | a formatter succeeds exactly when its library serialises the input; a parse or serialise failure gives the wrapped message naming that stage and format |
| Formatters.FormattedIsSerialised | main.go:86-121 | JSON and HTML output is the library's serialisation unchanged |
| Formatters.XmlEndsWithNewline | main.go:101-106 | successful XML output is the marshalled bytes plus exactly one trailing newline |
| Formatters.FormatUsesOnlyItsLibrary | main.go:80-122 | a formatter's result depends only on its own library's answer for the input |
| Formatters.FailureMessageShape | main.go:82-120 | every formatter error starts with "failed to " and ends with the library's message |
| Handler.ErrorResponse | main.go:130 | an error response carries the status, plain-text content type, and the message followed by one newline |
| Handler.Lower | main.go:127 | lower-casing keeps the length, lowers every character in place and leaves no upper-case letter |
| Handler.Handle | main.go:125-186 | non-200 iff an error is recorded; 400 exactly for a missing type, a failed body read or an unsupported type, and then no formatter runs; otherwise the named formatter runs and gives 200 with its bytes or 500 with "Formatting failed: " and its message |
| Handler.LowerIsWordIffCaseVariant | main.go:127 | a spelling lower-cases to a lower-case word exactly when it differs from that word only in letter case |
| Handler.SupportedSpellings | main.go:154-160 | the JSON, XML and HTML formatters are selected by exactly the case variants of "json", "xml" and "html" |
| Handler.LowerIdempotent | main.go:127 | lower-casing an already lower-cased type changes nothing |
| Handler.CaseInsensitive | main.go:127-168 | two type spellings that lower-case alike get identical handling |
| Handler.RejectionIgnoresFormatters | main.go:128-168 | a 400 answer is the same whatever the formatters would do: none of them ran |
| Service.Step | main.go:49-77 | a failed body read gives 400 and changes no metric; otherwise the handler answers, one request and its duration are counted, the maximum becomes max(old, body length), and one error is counted exactly when the answer is not 200 |
| Service.RunAccounting | main.go:64-75 | after a sequence of requests, each counter equals its start value plus the served requests, non-200 answers, elapsed time and largest body of that sequence |
| Service.FailuresAtMostServed | main.go:131-176 | in any sequence of requests, no more answers are errors than there are requests that reached the handler |
| Service.RunKeepsErrorsBelowRequests | main.go:69-75 | handling requests keeps the error count at or below the request count |
| Service.ErrorsNeverExceedRequests | main.go:29 | from the initial record, the error count never exceeds the request count |
| Service.RunNeverDecreases | main.go:69-75 | no counter of the record ever decreases |
| Service.LargestBodyIsLargest | main.go:73-75 | the largest-body figure bounds every served request's size and is attained by one of them when positive |
| Service.MaxPayloadIsLargestBody | main.go:61-75 | from the initial record, the reported maximum payload equals the largest body among the requests counted |

## Left out

- The library parsers and serialisers (`encoding/json`, `encoding/xml`, `golang.org/x/net/html`) are not modelled. They are opaque functions, so nothing is proved about the shape of formatted output beyond the XML newline.
- Concurrency: the mutex and interleavings are left out. Each locked block is one atomic step, and the handler's error increment and the middleware's request increment happen in the same `Service.Step`. A concurrent `/metrics` read between the two could see errors > requests; the model cannot express that.
- Time: `time.Now` and `time.Since` are replaced by the `elapsed` input of each request. It is in nanoseconds and covers the middleware's body read and the handler.
- Metrics.RecordRequest: does not model `int64` overflow of the counters or of the total duration, because the fields are unbounded naturals.
- Handler.Lower: lowers only the ASCII letters `A`-`Z`. Go's `strings.ToLower` also lowers other Unicode letters, and the model keeps those unchanged. No non-ASCII letter lowers to a letter of "json", "xml" or "html", so dispatch is unaffected.
- The `X-Content-Type-Options: nosniff` header that `http.Error` adds is not modelled. Only the status, content type and body of a response are.
- The `/metrics` response is modelled as a `Snapshot` value, not as its JSON text.
- The handler's own body read cannot fail after the middleware has buffered the body. It is an input flag (`handlerReadFails`) with no I/O.
- `Logger`, the routing of `/format` and `/metrics`, the `PORT` default of 8030, server start-up and every `log.Printf` line have no effect on responses or metrics. They are not modelled.
