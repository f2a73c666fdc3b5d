/**
 The usage record of the /format endpoint (the `FormatAPIMetrics` struct) and the
 snapshot that the /metrics endpoint reports from it.

 Durations are natural numbers of nanoseconds; the Go `int64` width is not modelled.
 Every operation here is one critical section of the original, so it is a single
 pure step from one record to the next.
 */
module Metrics {

  /** Request count, error count, total duration (ns) and largest payload (bytes). */
  datatype Metrics = Metrics(
    requestCount: nat,
    errorCount: nat,
    totalDuration: nat,
    maxPayloadSize: nat
  )

  /** The process starts with an all-zero record. */
  const Zero: Metrics := Metrics(0, 0, 0, 0)

  const NanosPerMilli: nat := 1_000_000

  function Max(a: nat, b: nat): nat {
    if a < b then b else a
  }

  /** One completed /format request: one more request, its duration added,
      and the running maximum of payload sizes raised if it was exceeded. */
  function RecordRequest(m: Metrics, duration: nat, payloadSize: nat): (m': Metrics)
    ensures m'.requestCount == m.requestCount + 1
    ensures m'.errorCount == m.errorCount
    ensures m'.totalDuration == m.totalDuration + duration
    ensures m'.maxPayloadSize >= m.maxPayloadSize && m'.maxPayloadSize >= payloadSize
    ensures m'.maxPayloadSize == m.maxPayloadSize || m'.maxPayloadSize == payloadSize
  {
    var max := if payloadSize > m.maxPayloadSize then payloadSize else m.maxPayloadSize;
    Metrics(m.requestCount + 1, m.errorCount, m.totalDuration + duration, max)
  }

  /** One failed request as seen by the handler: only the error count moves. */
  function RecordError(m: Metrics): (m': Metrics)
    ensures m'.errorCount == m.errorCount + 1
    ensures m'.requestCount == m.requestCount
    ensures m'.totalDuration == m.totalDuration
    ensures m'.maxPayloadSize == m.maxPayloadSize
  {
    m.(errorCount := m.errorCount + 1)
  }

  /** `Duration.Milliseconds`: whole milliseconds, truncated. */
  function Milliseconds(d: nat): (ms: nat)
    ensures ms * NanosPerMilli <= d < (ms + 1) * NanosPerMilli
  {
    d / NanosPerMilli
  }

  /** Mean duration per request in nanoseconds, truncated; zero while nothing was recorded. */
  function AverageDuration(m: Metrics): (avg: nat)
    ensures m.requestCount == 0 ==> avg == 0
    ensures m.requestCount > 0 ==>
      avg * m.requestCount <= m.totalDuration < (avg + 1) * m.requestCount
    ensures avg <= m.totalDuration
  {
    if m.requestCount > 0 then
      DivisionShrinks(m.totalDuration, m.totalDuration, m.requestCount);
      m.totalDuration / m.requestCount
    else
      0
  }

  /** The fields of the JSON document served by /metrics. */
  datatype Snapshot = Snapshot(
    requestCount: nat,
    errorCount: nat,
    totalDurationMs: nat,
    averageDurationMs: nat,
    maxPayloadSizeBytes: nat
  )

  /** The report: counts and the payload maximum as stored, durations converted to
      milliseconds after the average has been taken on nanoseconds. */
  function Report(m: Metrics): (s: Snapshot)
    ensures s.requestCount == m.requestCount && s.errorCount == m.errorCount
    ensures s.maxPayloadSizeBytes == m.maxPayloadSize
    ensures s.totalDurationMs * NanosPerMilli <= m.totalDuration < (s.totalDurationMs + 1) * NanosPerMilli
    ensures m.requestCount == 0 ==> s.averageDurationMs == 0
    ensures s.averageDurationMs <= s.totalDurationMs
  {
    DivisionShrinks(AverageDuration(m), m.totalDuration, NanosPerMilli);
    Snapshot(m.requestCount, m.errorCount, Milliseconds(m.totalDuration),
             Milliseconds(AverageDuration(m)), m.maxPayloadSize)
  }

  /** Before any request, every reported figure is zero. */
  lemma InitialReportIsZero()
    ensures Report(Zero) == Snapshot(0, 0, 0, 0, 0)
  {
  }

  /** Truncating twice is truncating once by the product: (t / a) / b == t / (a * b). */
  lemma {:induction false} NestedDivision(t: nat, a: nat, b: nat)
    requires a > 0 && b > 0
    ensures (t / a) / b == t / (a * b)
  {
    var q, r := t / a, t % a;
    var hi, lo := q / b, q % b;
    Recombine(t, a, b, q, r, hi, lo);
    DivisionByBounds(t, a * b, hi, lo * a + r);
  }

  /** The arithmetic behind NestedDivision, kept free of division. */
  lemma {:induction false} Recombine(t: nat, a: nat, b: nat, q: nat, r: nat, hi: nat, lo: nat)
    requires r < a && lo < b
    requires t == q * a + r && q == hi * b + lo
    ensures t == hi * (a * b) + (lo * a + r)
    ensures lo * a + r < a * b
  {
    assert q * a == hi * (a * b) + lo * a by {
      assert (hi * b + lo) * a == (hi * b) * a + lo * a;
      assert (hi * b) * a == hi * (a * b);
    }
    MulMonotone(lo, b - 1, a);
    assert (b - 1) * a == a * b - a;
  }

  lemma {:induction false} MulMonotone(x: nat, y: nat, d: nat)
    requires x <= y
    ensures x * d <= y * d
  {
    assert y * d == x * d + (y - x) * d;
  }

  /** t == k * d + rest with 0 <= rest < d pins down t / d == k. */
  lemma {:induction false} DivisionByBounds(t: nat, d: nat, k: nat, rest: nat)
    requires d > 0 && rest < d && t == k * d + rest
    ensures t / d == k
  {
    var q, r := t / d, t % d;
    if q > k {
      MulMonotone(k + 1, q, d);
      assert false;
    } else if q < k {
      MulMonotone(q + 1, k, d);
      assert false;
    }
  }

  /** Dividing can only shrink, and it keeps the order of its numerators. */
  lemma {:induction false} DivisionShrinks(x: nat, y: nat, d: nat)
    requires d > 0 && x <= y
    ensures x / d <= y / d && x / d <= y
  {
    var q, r := x / d, x % d;
    var q', r' := y / d, y % d;
    if q > q' {
      MulMonotone(q' + 1, q, d);
      assert false;
    }
    MulMonotone(1, d, q);
  }

  /** The reported average in milliseconds is the reported total in milliseconds
      divided by the request count: dividing by the count before or after the
      conversion to milliseconds gives the same truncated number. */
  lemma {:induction false} AverageMsFromTotalMs(m: Metrics)
    requires m.requestCount > 0
    ensures Report(m).averageDurationMs == Report(m).totalDurationMs / m.requestCount
  {
    var t, c := m.totalDuration, m.requestCount;
    NestedDivision(t, c, NanosPerMilli);
    NestedDivision(t, NanosPerMilli, c);
    assert c * NanosPerMilli == NanosPerMilli * c;
  }
}
