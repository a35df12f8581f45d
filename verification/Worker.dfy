// What the JetStream worker decides about one delivered message, and what repairing a dead letter
// does to that decision.

module Worker {
  import opened Options
  import opened Jobs

  datatype Scenario =
    | Normal
    | CrashBeforeAck
    | ExceedAckWait
    | NakMessage
    | TermMessage
    | OutOfOrderAck
    | Unknown(name: string)

  function ScenarioNamed(name: string): Scenario {
    if name == "normal" then Normal
    else if name == "crash_before_ack" then CrashBeforeAck
    else if name == "exceed_ack_wait" then ExceedAckWait
    else if name == "nak_message" then NakMessage
    else if name == "term_message" then TermMessage
    else if name == "out_of_order_ack" then OutOfOrderAck
    else Unknown(name)
  }

  /** The scenario one delivery runs under: the armed one, overridden by the payload, the last override winning. */
  function Effective(p: Option<Payload>, armed: Scenario): Scenario {
    var named := match Lookup(p, "scenario")
                 case Some(Str(s)) => if s != "" then ScenarioNamed(s) else armed
                 case _ => armed;
    if Flag(p, "simulate_out_of_order") then OutOfOrderAck
    else if Flag(p, "simulate_term") then TermMessage
    else if Flag(p, "simulate_nak") then NakMessage
    else if Flag(p, "simulate_no_ack") || Flag(p, "simulate_crash") then CrashBeforeAck
    else named
  }

  datatype Verdict =
    | Discard               // undecodable or CORE: Ack without executing
    | Crash                 // the goroutine dies, nothing is sent
    | SlowAck               // Ack, seven seconds late
    | FaultNak              // Nak demanded by a scenario
    | Terminate             // Term
    | DeadLetter            // publish to JOBS_DLQ, then Ack
    | Retry(delay: nat)     // Nak, or NakWithDelay for delay > 0 seconds
    | Complete              // Ack

  /** The simulated business failure strikes this attempt. */
  predicate Fails(job: Job, attempt: nat) {
    Failing(job) && (FailureCount(job) == 0 || attempt <= FailureCount(job))
  }

  predicate Discarded(m: Message) {
    m.body.None? || m.mode == "" || m.mode == "CORE" || m.body.value.mode == "CORE"
  }

  /** The ordinary outcome of an attempt no scenario interferes with. */
  function Outcome(job: Job, attempt: nat): Verdict {
    if Fails(job, attempt) then
      if attempt >= MaxAttempts(job) then DeadLetter else Retry(NakDelay(job))
    else Complete
  }

  /** What an effective scenario does to an attempt, if anything. */
  function Struck(scenario: Scenario, attempt: nat): Option<Verdict> {
    match scenario
    case CrashBeforeAck => if attempt == 1 then Some(Crash) else None
    case ExceedAckWait => if attempt == 1 then Some(SlowAck) else None
    case NakMessage => if attempt == 1 then Some(FaultNak) else None
    case TermMessage => Some(Terminate)
    case _ => None
  }

  /** handleJetStreamMsg, for the attempt-th delivery of a message. */
  function Judge(m: Message, attempt: nat, armed: Scenario): Verdict {
    if Discarded(m) then Discard else
    match Struck(Effective(m.body.value.payload, armed), attempt)
    case Some(v) => v
    case None => Outcome(m.body.value, attempt)
  }

  /** A scenario (not the job's own failure) produced the verdict; in once mode this disarms it. */
  predicate Fired(v: Verdict) {
    v.Crash? || v.SlowAck? || v.FaultNak? || v.Terminate?
  }

  /** The payload ReprocessDLQ sends back: failure keys dropped, two marks added. */
  function Repair(p: Payload, stamp: string): Payload {
    (map k | k in p && k != "simulate_failure" && k != "simulate_failure_count" :: p[k])
      ["reprocessed_at" := Str(stamp)]["recovered_from_dlq" := Bool(true)]
  }

  function RepairedJob(id: string, kind: string, p: Payload, stamp: string): Message {
    Message("JETSTREAM", Some(Job(id, kind, "JETSTREAM", Some(Repair(p, stamp)))))
  }

  /** The keys a replay adds or drops. */
  predicate Reserved(key: string) {
    || key == "simulate_failure" || key == "simulate_failure_count"
    || key == "reprocessed_at" || key == "recovered_from_dlq"
  }

  /** The message replays a job with this payload: every other key is there exactly if it was, with the same value; the
      two failure keys are gone, the two marks are there. */
  ghost predicate Replays(m: Message, id: string, kind: string, payload: Payload) {
    && m.mode == "JETSTREAM" && m.body.Some? && m.body.value.mode == "JETSTREAM"
    && m.body.value.id == id && m.body.value.kind == kind && m.body.value.payload.Some?
    && var sent := m.body.value.payload.value;
       && (forall key | !Reserved(key) ::
             (key in sent <==> key in payload) && (key in sent ==> sent[key] == payload[key]))
       && "simulate_failure" !in sent && "simulate_failure_count" !in sent
       && "recovered_from_dlq" in sent && sent["recovered_from_dlq"] == Bool(true)
       && "reprocessed_at" in sent && sent["reprocessed_at"].Str?
  }

  lemma RepairReplays(id: string, kind: string, p: Payload, stamp: string)
    ensures Replays(RepairedJob(id, kind, p, stamp), id, kind, p)
    ensures Repair(p, stamp)["reprocessed_at"] == Str(stamp)
  {
    assert |"simulate_failure"| == 16 && |"simulate_failure_count"| == 22;
    assert |"reprocessed_at"| == 14 && |"recovered_from_dlq"| == 18;
  }

  lemma RepairKeepsScenario(p: Payload, stamp: string, armed: Scenario)
    ensures Effective(Some(Repair(p, stamp)), armed) == Effective(Some(p), armed)
  {
  }

  lemma RepairDropsFailure(id: string, kind: string, p: Payload, stamp: string)
    ensures !Discarded(RepairedJob(id, kind, p, stamp)) && !Failing(RepairedJob(id, kind, p, stamp).body.value)
  {
  }

  /** A repaired job never fails again: whatever the attempt and the scenario, it is not dead-lettered and not
      retried. */
  lemma RepairedNeverFails(id: string, kind: string, p: Payload, stamp: string, attempt: nat, armed: Scenario)
    ensures var v := Judge(RepairedJob(id, kind, p, stamp), attempt, armed);
            !v.DeadLetter? && !v.Retry? && !v.Discard?
  {
  }

  /** Only a job carrying a payload can be dead-lettered, so every letter the worker writes is listed and can be
      replayed. */
  lemma DeadLetterHasPayload(m: Message, attempt: nat, armed: Scenario)
    requires Judge(m, attempt, armed).DeadLetter?
    ensures m.body.Some? && m.body.value.payload.Some? && "simulate_failure" in m.body.value.payload.value
    ensures m.mode != "CORE" && m.mode != ""
  {
  }

  /** Recovery does not loop: a job dead-lettered under whatever scenario, then repaired and replayed with none
      armed, is completed at its first delivery, or at its second after one fault its own payload demands. */
  lemma RecoveryCompletes(m: Message, attempt: nat, armed: Scenario, stamp: string)
    requires attempt >= 1 && Judge(m, attempt, armed).DeadLetter?
    ensures m.body.Some? && m.body.value.payload.Some?
    ensures var again := RepairedJob(m.body.value.id, m.body.value.kind, m.body.value.payload.value, stamp);
            && (Judge(again, 1, Normal).Complete? || Judge(again, 1, Normal) in {Crash, SlowAck, FaultNak})
            && forall later: nat | later >= 2 :: Judge(again, later, Normal).Complete?
  {
  }
}
