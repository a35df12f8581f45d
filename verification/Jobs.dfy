// Jobs as they travel: decoded JSON payloads, and the knobs the processor reads from them.

module Jobs {
  import opened Options

  /** A decoded JSON value. Numbers always decode to floats; lists and objects are opaque here. */
  datatype Value = Null | Bool(b: bool) | Num(r: real) | Str(s: string) | Nested

  type Payload = map<string, Value>

  /** `payload` is None for Go's nil map (absent or null in the JSON). */
  datatype Job = Job(id: string, kind: string, mode: string, payload: Option<Payload>)

  /** A message on jobs.submitted: its X-Delivery-Mode header ("" when absent) and its body (None when not JSON). */
  datatype Message = Message(mode: string, body: Option<Job>)

  function Lookup(p: Option<Payload>, key: string): Option<Value> {
    if p.Some? && key in p.value then Some(p.value[key]) else None
  }

  /** The key holds the JSON value true. */
  predicate Flag(p: Option<Payload>, key: string) {
    Lookup(p, key) == Some(Bool(true))
  }

  /** Go's int(float64): truncation toward zero. */
  function Truncate(r: real): int {
    if r >= 0.0 then r.Floor else -((-r).Floor)
  }

  function IntOr(p: Option<Payload>, key: string, default: int): int {
    match Lookup(p, key)
    case Some(Num(r)) => Truncate(r)
    case _ => default
  }

  function PositiveOr(p: Option<Payload>, key: string, default: nat): nat {
    var n := IntOr(p, key, 0);
    if n > 0 then n else default
  }

  predicate Failing(job: Job) {
    Flag(job.payload, "simulate_failure")
  }

  function FailureCount(job: Job): int {
    IntOr(job.payload, "simulate_failure_count", 0)
  }

  function MaxAttempts(job: Job): (m: nat)
    ensures m >= 1
  {
    PositiveOr(job.payload, "max_delivery_attempts", 3)
  }

  function NakDelay(job: Job): nat {
    PositiveOr(job.payload, "nak_delay_seconds", 0)
  }
}
