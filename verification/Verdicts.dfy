// What the worker decides, read off the message itself: its header, its payload's keys, the armed scenario, the
// attempt.

module Verdicts {
  import opened Options
  import opened Jobs
  import opened Worker
  import opened Broker
  import opened DeadLetters
  import opened System

  predicate Says(p: Option<Payload>, key: string, v: Value) {
    p.Some? && key in p.value && p.value[key] == v
  }

  predicate IsTrue(p: Option<Payload>, key: string) {
    Says(p, key, Bool(true))
  }

  /** The message is a JetStream job: by its header, and its body does not object. */
  predicate JetStreamJob(m: Message) {
    m.mode != "" && m.mode != "CORE" && m.body.Some? && m.body.value.mode != "CORE"
  }

  /** Anything else is acknowledged unexecuted, and only that is. */
  lemma DiscardedIff(m: Message, attempt: nat, armed: Scenario)
    ensures Judge(m, attempt, armed).Discard? <==> !JetStreamJob(m)
  {
  }

  /** What a fault at the first attempt leaves to the later ones. */
  function FirstOnly(v: Verdict, attempt: nat, ordinary: Verdict): Verdict {
    if attempt == 1 then v else ordinary
  }

  /** A scenario demanded by name, in the payload. */
  ghost predicate NamedVerdict(name: string, attempt: nat, ordinary: Verdict, v: Verdict) {
    && (name == "crash_before_ack" ==> v == FirstOnly(Crash, attempt, ordinary))
    && (name == "exceed_ack_wait" ==> v == FirstOnly(SlowAck, attempt, ordinary))
    && (name == "nak_message" ==> v == FirstOnly(FaultNak, attempt, ordinary))
    && (name == "term_message" ==> v == Terminate)
    && (name !in ["crash_before_ack", "exceed_ack_wait", "nak_message", "term_message"] ==> v == ordinary)
  }

  ghost predicate ArmedVerdict(armed: Scenario, attempt: nat, ordinary: Verdict, v: Verdict) {
    && (armed == CrashBeforeAck ==> v == FirstOnly(Crash, attempt, ordinary))
    && (armed == ExceedAckWait ==> v == FirstOnly(SlowAck, attempt, ordinary))
    && (armed == NakMessage ==> v == FirstOnly(FaultNak, attempt, ordinary))
    && (armed == TermMessage ==> v == Terminate)
    && (armed !in {CrashBeforeAck, ExceedAckWait, NakMessage, TermMessage} ==> v == ordinary)
  }

  /** The scenario's verdict by the payload's highest-ranking key. */
  lemma VerdictByPayload(m: Message, attempt: nat, armed: Scenario)
    requires JetStreamJob(m)
    ensures var p, ordinary, v := m.body.value.payload, Outcome(m.body.value, attempt), Judge(m, attempt, armed);
            if IsTrue(p, "simulate_out_of_order") then v == ordinary
            else if IsTrue(p, "simulate_term") then v == Terminate
            else if IsTrue(p, "simulate_nak") then v == FirstOnly(FaultNak, attempt, ordinary)
            else if IsTrue(p, "simulate_no_ack") || IsTrue(p, "simulate_crash")
            then v == FirstOnly(Crash, attempt, ordinary)
            else if exists name :: name != "" && Says(p, "scenario", Str(name))
            then forall name | Says(p, "scenario", Str(name)) :: NamedVerdict(name, attempt, ordinary, v)
            else ArmedVerdict(armed, attempt, ordinary, v)
  {
    var p, ordinary, v := m.body.value.payload, Outcome(m.body.value, attempt), Judge(m, attempt, armed);
    if name :| name != "" && Says(p, "scenario", Str(name)) {
      NamedScenario(name, attempt, ordinary);
    }
  }

  lemma NamedScenario(name: string, attempt: nat, ordinary: Verdict)
    ensures var struck := Struck(ScenarioNamed(name), attempt);
            NamedVerdict(name, attempt, ordinary, if struck.Some? then struck.value else ordinary)
  {
    assert |"normal"| == 6 && |"crash_before_ack"| == 16 && |"exceed_ack_wait"| == 15;
    assert |"nak_message"| == 11 && |"term_message"| == 12 && |"out_of_order_ack"| == 16;
    assert "crash_before_ack"[0] == 'c' && "out_of_order_ack"[0] == 'o';
  }

  // The ordinary outcome, by the payload's keys.

  /** n is what Go's int() makes of r. */
  predicate IntegerPart(r: real, n: int) {
    && (r >= 0.0 ==> n as real <= r < (n + 1) as real)
    && (r < 0.0 ==> (n - 1) as real < r <= n as real)
  }

  /** The whole number a key holds, or the default if it holds no number. */
  predicate Knob(p: Option<Payload>, key: string, default: int, n: int) {
    if p.Some? && key in p.value && p.value[key].Num? then IntegerPart(p.value[key].r, n) else n == default
  }

  /** The same for a knob that must be positive. */
  predicate PositiveKnob(p: Option<Payload>, key: string, default: nat, n: nat) {
    if p.Some? && key in p.value && p.value[key].Num? && p.value[key].r >= 1.0 then IntegerPart(p.value[key].r, n)
    else n == default
  }

  lemma TruncateIs(r: real)
    ensures IntegerPart(r, Truncate(r))
    ensures Truncate(r) > 0 <==> r >= 1.0
    ensures forall n | IntegerPart(r, n) :: n == Truncate(r)
  {
  }

  lemma KnobIs(p: Option<Payload>, key: string, default: int, n: int)
    requires Knob(p, key, default, n)
    ensures IntOr(p, key, default) == n
  {
    if p.Some? && key in p.value && p.value[key].Num? { TruncateIs(p.value[key].r); }
  }

  lemma PositiveKnobIs(p: Option<Payload>, key: string, default: nat, n: nat)
    requires PositiveKnob(p, key, default, n)
    ensures PositiveOr(p, key, default) == n
  {
    if p.Some? && key in p.value && p.value[key].Num? { TruncateIs(p.value[key].r); }
  }

  /** An attempt fails if the payload says so for this attempt, of which count 0 says always; it is then retried after
      the payload's delay, or dead-lettered at the last of the attempts it allows, three by default. */
  lemma OutcomeByPayload(job: Job, attempt: nat, count: int, attempts: nat, delay: nat)
    requires Knob(job.payload, "simulate_failure_count", 0, count)
    requires PositiveKnob(job.payload, "max_delivery_attempts", 3, attempts)
    requires PositiveKnob(job.payload, "nak_delay_seconds", 0, delay)
    ensures Outcome(job, attempt) ==
              if IsTrue(job.payload, "simulate_failure") && (count == 0 || attempt <= count) then
                if attempt >= attempts then DeadLetter else Worker.Verdict.Retry(delay)
              else Complete
  {
    KnobIs(job.payload, "simulate_failure_count", 0, count);
    PositiveKnobIs(job.payload, "max_delivery_attempts", 3, attempts);
    PositiveKnobIs(job.payload, "nak_delay_seconds", 0, delay);
  }

  // What a decision does.

  /** To the message decided about: settled, or due again, or left to its deadline; and to no other. */
  lemma DecisionOnMessage(s: State, h: Hand, armed: Scenario, reply: Reply)
    requires Valid(s.jobs) && CanStep(s, Decide(h, armed, reply)) && h.i < |s.jobs.cells|
    ensures var v, t := Judge(s.jobs.log[h.i], h.attempt, armed), Next(s, Decide(h, armed, reply));
            && t.jobs.log == s.jobs.log && |t.jobs.cells| == |s.jobs.cells| && t.now == s.now
            && (forall i | 0 <= i < |s.jobs.cells| && (i != h.i || s.jobs.cells[i].settled) ::
                  t.jobs.cells[i] == s.jobs.cells[i])
            && (!s.jobs.cells[h.i].settled ==>
                  var was, now := s.jobs.cells[h.i], t.jobs.cells[h.i];
                  && now.count == was.count
                  && (now.settled <==> v.Discard? || v.Complete? || v.DeadLetter? || v.Terminate?)
                  && (v.Crash? || v.SlowAck? ==> now == was)
                  && (v.FaultNak? ==> now.readyAt == s.now)
                  && (v.Retry? ==> now.readyAt == s.now + 1000 * v.delay))
  {
  }

  /** What is reported: a job is completed exactly by a decision to complete it or by an Ack, a slow one or one of a
      batch, and terminated exactly by a decision to. */
  lemma ReportedBy(s: State, step: Step, id: string)
    requires Valid(s.jobs) && CanStep(s, step)
    ensures var t := Next(s, step);
            && (id in t.completed <==>
                  || id in s.completed
                  || (step.Decide? && Judge(s.jobs.log[step.h.i], step.h.attempt, step.armed).Complete?
                      && s.jobs.log[step.h.i].body.value.id == id)
                  || ((step.LateAck? || step.BatchAck?) && s.jobs.log[step.h.i].body.Some?
                      && s.jobs.log[step.h.i].body.value.id == id))
            && (id in t.terminated <==>
                  || id in s.terminated
                  || (step.Decide? && Judge(s.jobs.log[step.h.i], step.h.attempt, step.armed).Terminate?
                      && s.jobs.log[step.h.i].body.value.id == id))
  {
  }

  /** What a decision writes: a letter of the job, exactly when it is dead-lettered and JOBS_DLQ stores it. A publish
      that fails, or is recognised as a duplicate, writes nothing. */
  lemma LetterWritten(s: State, h: Hand, armed: Scenario, reply: Reply)
    requires Valid(s.jobs) && CanStep(s, Decide(h, armed, reply))
    ensures var m, t := s.jobs.log[h.i], Next(s, Decide(h, armed, reply));
            if Judge(m, h.attempt, armed).DeadLetter? && reply.Stored? then
              && m.body.Some? && t.nextLetter == s.nextLetter + 1
              && t.letters.Keys == s.letters.Keys + {s.nextLetter}
              && (forall q | q in s.letters && q != s.nextLetter :: t.letters[q] == s.letters[q])
              && t.letters[s.nextLetter].Letter? && t.letters[s.nextLetter].id == m.body.value.id
              && t.letters[s.nextLetter].kind == m.body.value.kind
              && t.letters[s.nextLetter].payload == m.body.value.payload && t.letters[s.nextLetter].reason != ""
              && t.accepted == s.accepted + {(m.body.value.id, h.attempt)}
            else t.letters == s.letters && t.nextLetter == s.nextLetter && t.accepted == s.accepted
  {
  }

  /** When a worker may act on what it holds: after one second of work, at once if it discards; after eight seconds
      for a slow Ack. */
  lemma ActsWhen(s: State, h: Hand, armed: Scenario)
    requires h in s.hands && h.i < |s.jobs.log|
    ensures h.stage.Processing? ==>
              (CanStep(s, Decide(h, armed, Stored)) <==> !JetStreamJob(s.jobs.log[h.i]) || s.now >= h.pulledAt + 1000)
    ensures h.stage.Slow? ==> (CanStep(s, LateAck(h)) <==> s.now >= h.pulledAt + 8000)
  {
  }

  /** What a fetch does: the next message in line, or one that is overdue and not settled, is counted once more, due
      again in five seconds, and in the hands of the worker under that count. */
  lemma FetchMeaning(s: State, i: nat, batch: bool)
    requires Valid(s.jobs)
    ensures CanStep(s, Fetch(i, batch)) <==>
              || (i == |s.jobs.cells| < |s.jobs.log|)
              || (i < |s.jobs.cells| && !s.jobs.cells[i].settled && s.jobs.cells[i].readyAt <= s.now)
    ensures CanStep(s, Fetch(i, batch)) ==>
              var t := Next(s, Fetch(i, batch));
              && i < |t.jobs.cells|
              && t.jobs.cells[i] == Cell(if i < |s.jobs.cells| then s.jobs.cells[i].count + 1 else 1, s.now + 5000,
                  false)
              && |t.jobs.cells| == (if i < |s.jobs.cells| then |s.jobs.cells| else i + 1)
              && (forall j | 0 <= j < |s.jobs.cells| && j != i :: t.jobs.cells[j] == s.jobs.cells[j])
              && (forall h :: h in t.hands <==>
                    || h in s.hands
                    || (h.i == i && h.attempt == t.jobs.cells[i].count && h.pulledAt == s.now
                        && h.stage == if batch then Batch else Processing))
  {
  }

  /** A heartbeat gives an unsettled message five more seconds; an Ack, slow or of a batch, settles it and drops it. */
  lemma SignsOfLife(s: State, h: Hand, step: Step)
    requires Valid(s.jobs) && CanStep(s, step) && h.i < |s.jobs.cells|
    requires step in {Heartbeat(h), LateAck(h), BatchAck(h)}
    ensures var t := Next(s, step);
            && |t.jobs.cells| == |s.jobs.cells|
            && (forall i | 0 <= i < |s.jobs.cells| && (i != h.i || s.jobs.cells[i].settled) ::
                  t.jobs.cells[i] == s.jobs.cells[i])
            && (!s.jobs.cells[h.i].settled ==>
                  var was, now := s.jobs.cells[h.i], t.jobs.cells[h.i];
                  if step.Heartbeat? then now == Cell(was.count, s.now + 5000, false)
                  else now == Cell(was.count, was.readyAt, true))
            && t.hands == (if step.Heartbeat? then s.hands else s.hands - {h})
  {
  }

  /** What comes from outside: a job is appended to JOBS, an entry to JOBS_DLQ, time passes. */
  lemma FromOutside(s: State, m: Message, l: Letter, ms: nat)
    requires Valid(s.jobs)
    ensures Next(s, Publish(m)) == s.(jobs := s.jobs.(log := s.jobs.log + [m]))
    ensures var t := Next(s, StrayLetter(l));
            t == s.(letters := t.letters, nextLetter := s.nextLetter + 1) && t.letters == s.letters[s.nextLetter := l]
    ensures Next(s, Elapse(ms)) == s.(now := s.now + ms)
  {
  }
}
