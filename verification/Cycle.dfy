// The cycle of a job through JOBS, JOBS_DLQ and back: what its letters and its replays carry, over every run.

module Cycle {
  import opened Options
  import opened Jobs
  import opened Worker
  import opened Broker
  import opened DeadLetters
  import opened System

  predicate IsOf(m: Message, id: string) {
    m.body.Some? && m.body.value.id == id
  }

  /** The letter carries the job of the message, whole. */
  predicate Carries(l: Letter, m: Message) {
    && l.Letter? && m.body.Some? && l.id == m.body.value.id && l.kind == m.body.value.kind
    && l.payload == m.body.value.payload && l.payload.Some? && l.reason != ""
  }

  /** A JetStream job whose payload does not itself demand that it be terminated. */
  predicate Recoverable(m: Message) {
    !Discarded(m) && !Judge(m, 2, Normal).Terminate?
  }

  predicate HasPayload(m: Message) {
    m.body.Some? && m.body.value.payload.Some?
  }

  /** The job of m as the two streams know it. */
  ghost predicate Kept(s: State, m: Message, id: string) {
    && (forall i | 0 <= i < |s.jobs.log| && IsOf(s.jobs.log[i], id) ::
          s.jobs.log[i] == m
          || (HasPayload(m) && Replays(s.jobs.log[i], id, m.body.value.kind, m.body.value.payload.value)
              && Recoverable(m)))
    && (forall q | q in s.letters && s.letters[q].Letter? && s.letters[q].id == id ::
          Carries(s.letters[q], m) && Recoverable(m))
  }

  /** The step publishes nothing else under this id, and no stray letter bears it. */
  predicate Only(step: Step, m: Message, id: string) {
    && (step.Publish? && IsOf(step.m, id) ==> step.m == m)
    && (step.StrayLetter? ==> !(step.l.Letter? && step.l.id == id))
  }

  /** A message that replays a job does not fail, so no letter is written about it. */
  lemma ReplayNeverDies(n: Message, id: string, kind: string, payload: Payload, attempt: nat, armed: Scenario)
    requires Replays(n, id, kind, payload)
    ensures !Judge(n, attempt, armed).DeadLetter? && !Judge(n, attempt, armed).Retry?
  {
    assert !Failing(n.body.value);
  }

  lemma DeadLetterNoReplay(n: Message, id: string, attempt: nat, armed: Scenario)
    requires Judge(n, attempt, armed).DeadLetter?
    ensures forall kind, payload :: !Replays(n, id, kind, payload)
  {
  }

  /** A message that is dead-lettered at any attempt does not demand its own termination. */
  lemma DeadLetterRecoverable(m: Message, attempt: nat, armed: Scenario)
    requires Judge(m, attempt, armed).DeadLetter?
    ensures Recoverable(m)
  {
  }

  lemma DecideKeeps(s: State, h: Hand, armed: Scenario, reply: Reply, m: Message, id: string)
    requires Valid(s.jobs) && Kept(s, m, id) && CanStep(s, Decide(h, armed, reply))
    ensures Kept(Next(s, Decide(h, armed, reply)), m, id)
  {
    var n, t := s.jobs.log[h.i], Next(s, Decide(h, armed, reply));
    NextExtends(s, Decide(h, armed, reply));
    assert t.jobs.log == s.jobs.log;
    if Judge(n, h.attempt, armed).DeadLetter? && IsOf(n, id) {
      DeadLetterHasPayload(n, h.attempt, armed);
      DeadLetterRecoverable(n, h.attempt, armed);
      DeadLetterNoReplay(n, id, h.attempt, armed);
    }
  }

  /** What the visit of a letter adds to JOBS, if anything: a replay of the letter's job. */
  lemma VisitReplays(s: State, r: nat, f: Faults, stamp: string)
    requires Valid(s.jobs) && CanStep(s, VisitNext(r, f, stamp))
    ensures var t, q := Next(s, VisitNext(r, f, stamp)), s.replays[r].pos;
            || t.jobs.log == s.jobs.log
            || (q in s.letters && s.letters[q].Letter? && s.letters[q].payload.Some?
                && |t.jobs.log| == |s.jobs.log| + 1 && s.jobs.log <= t.jobs.log
                && Replays(t.jobs.log[|s.jobs.log|], s.letters[q].id, s.letters[q].kind, s.letters[q].payload.value)
                && t.jobs.log[|s.jobs.log|].body.value.payload.value["reprocessed_at"] == Str(stamp))
    ensures forall x | x in Next(s, VisitNext(r, f, stamp)).letters ::
              x in s.letters && Next(s, VisitNext(r, f, stamp)).letters[x] == s.letters[x]
  {
    var q := s.replays[r].pos;
    if q in s.letters && s.letters[q].Letter? && s.letters[q].payload.Some? {
      RepairReplays(s.letters[q].id, s.letters[q].kind, s.letters[q].payload.value, stamp);
    }
  }

  lemma VisitKeeps(s: State, r: nat, f: Faults, stamp: string, m: Message, id: string)
    requires Valid(s.jobs) && Kept(s, m, id) && CanStep(s, VisitNext(r, f, stamp))
    ensures Kept(Next(s, VisitNext(r, f, stamp)), m, id)
  {
    VisitReplays(s, r, f, stamp);
    var t := Next(s, VisitNext(r, f, stamp));
    forall i | 0 <= i < |t.jobs.log| && IsOf(t.jobs.log[i], id)
      ensures t.jobs.log[i] == m
           || (HasPayload(m) && Replays(t.jobs.log[i], id, m.body.value.kind, m.body.value.payload.value)
               && Recoverable(m))
    {
      if i < |s.jobs.log| { assert t.jobs.log[i] == s.jobs.log[i]; }
    }
  }

  lemma StepKeeps(s: State, step: Step, m: Message, id: string)
    requires Valid(s.jobs) && Kept(s, m, id) && Only(step, m, id)
    ensures Kept(Next(s, step), m, id)
  {
    if CanStep(s, step) {
      NextExtends(s, step);
      match step
      case Decide(h, armed, reply) => DecideKeeps(s, h, armed, reply, m, id);
      case VisitNext(r, f, stamp) => VisitKeeps(s, r, f, stamp, m, id);
      case _ =>
    }
  }

  lemma {:induction false} KeptRun(s: State, steps: seq<Step>, m: Message, id: string)
    requires Valid(s.jobs) && Kept(s, m, id) && forall k | 0 <= k < |steps| :: Only(steps[k], m, id)
    ensures Kept(Run(s, steps), m, id)
    decreases |steps|
  {
    if steps == [] {
    } else {
      StepKeeps(s, steps[0], m, id);
      KeptRun(Next(s, steps[0]), steps[1..], m, id);
    }
  }

  /** What a dead letter is: over every run, whatever publishes fail and whatever sweeps are under way, every letter
      of a job submitted as m has its id, its type, its whole payload and a reason; and every other message of it in
      JOBS is a replay that agrees with m on every key but the two failure keys and the two marks. */
  lemma LettersCarryTheJob(steps: seq<Step>, m: Message, id: string)
    requires forall k | 0 <= k < |steps| :: Only(steps[k], m, id)
    ensures var t := Run(INITIAL, steps);
            && (forall q | q in t.letters && t.letters[q].Letter? && t.letters[q].id == id ::
                  && m.body.Some? && t.letters[q].kind == m.body.value.kind
                  && t.letters[q].payload == m.body.value.payload && t.letters[q].payload.Some?
                  && t.letters[q].reason != "")
            && (forall i | 0 <= i < |t.jobs.log| && IsOf(t.jobs.log[i], id) && t.jobs.log[i] != m ::
                  && m.body.Some? && m.body.value.payload.Some?
                  && Replays(t.jobs.log[i], id, m.body.value.kind, m.body.value.payload.value))
  {
    KeptRun(INITIAL, steps, m, id);
  }

  /** Messages that agree on every unreserved key demand the same scenario. */
  lemma SameScenario(n: Message, id: string, kind: string, payload: Payload, armed: Scenario)
    requires Replays(n, id, kind, payload)
    ensures Effective(n.body.value.payload, armed) == Effective(Some(payload), armed)
  {
    SameLookup(n, id, kind, payload, "scenario");
    SameLookup(n, id, kind, payload, "simulate_out_of_order");
    SameLookup(n, id, kind, payload, "simulate_term");
    SameLookup(n, id, kind, payload, "simulate_nak");
    SameLookup(n, id, kind, payload, "simulate_no_ack");
    SameLookup(n, id, kind, payload, "simulate_crash");
  }

  lemma SameLookup(n: Message, id: string, kind: string, payload: Payload, key: string)
    requires Replays(n, id, kind, payload) && !Reserved(key)
    ensures Lookup(n.body.value.payload, key) == Lookup(Some(payload), key)
  {
  }

  /** Recovery from the stored letter: the message a sweep sends for it, whenever in whatever run, is completed at its
      first delivery under no armed scenario, or at its second after one fault the payload itself demands. */
  lemma RecoveryFromLetter(steps: seq<Step>, m: Message, id: string, r: nat, f: Faults, stamp: string)
    requires forall k | 0 <= k < |steps| :: Only(steps[k], m, id)
    requires var t := Run(INITIAL, steps);
             && CanStep(t, VisitNext(r, f, stamp)) && t.replays[r].pos in t.letters
             && t.letters[t.replays[r].pos].Letter? && t.letters[t.replays[r].pos].id == id
             && Next(t, VisitNext(r, f, stamp)).jobs.log != t.jobs.log
    ensures var t, u := Run(INITIAL, steps), Next(Run(INITIAL, steps), VisitNext(r, f, stamp));
            && |u.jobs.log| == |t.jobs.log| + 1 && HasPayload(m)
            && var n := u.jobs.log[|t.jobs.log|];
               && Replays(n, id, m.body.value.kind, m.body.value.payload.value)
               && (Judge(n, 1, Normal).Complete? || Judge(n, 1, Normal) in {Crash, SlowAck, FaultNak})
               && forall later: nat | later >= 2 :: Judge(n, later, Normal).Complete?
  {
    KeptRun(INITIAL, steps, m, id);
    var t := Run(INITIAL, steps);
    VisitReplays(t, r, f, stamp);
    ReplayCompletes(Next(t, VisitNext(r, f, stamp)).jobs.log[|t.jobs.log|], id, m);
  }

  lemma ReplayCompletes(n: Message, id: string, m: Message)
    requires HasPayload(m) && Replays(n, id, m.body.value.kind, m.body.value.payload.value)
    requires Recoverable(m)
    ensures Judge(n, 1, Normal).Complete? || Judge(n, 1, Normal) in {Crash, SlowAck, FaultNak}
    ensures forall later: nat | later >= 2 :: Judge(n, later, Normal).Complete?
  {
    SameScenario(n, id, m.body.value.kind, m.body.value.payload.value, Normal);
    forall attempt: nat ensures !Judge(n, attempt, Normal).DeadLetter? && !Judge(n, attempt, Normal).Retry? {
      ReplayNeverDies(n, id, m.body.value.kind, m.body.value.payload.value, attempt, Normal);
    }
  }

  // A sweep nobody disturbs is the sweep of the handler.

  /** A ReprocessDLQ request and its first k iterations. */
  function SweepSteps(r: nat, filter: string, k: nat, f: Faults, stamps: nat -> string): seq<Step> {
    if k == 0 then [OpenReplay(filter)]
    else SweepSteps(r, filter, k - 1, f, stamps) + [VisitNext(r, f, stamps(k - 1))]
  }

  lemma {:induction false} RunSnoc(s: State, steps: seq<Step>, step: Step)
    requires Valid(s.jobs)
    ensures Run(s, steps + [step]) == Next(Run(s, steps), step)
    decreases |steps|
  {
    if steps == [] {
      assert Run(s, [step]) == Run(Next(s, step), []);
    } else {
      assert (steps + [step])[1..] == steps[1..] + [step];
      RunSnoc(Next(s, steps[0]), steps[1..], step);
    }
  }

  lemma VisitFresh(p: Pass, q: nat, filter: string, f: Faults, stamp: string)
    ensures var alone, r := Visit(Pass(p.entries, [], [], p.seen), q, filter, f, stamp), Visit(p, q, filter, f, stamp);
            r.entries == alone.entries && r.seen == alone.seen && r.sent == p.sent + alone.sent
  {
  }

  /** The state k visits into the sweep. */
  ghost predicate SweptTo(s: State, t: State, filter: string, k: nat, f: Faults, stamps: nat -> string) {
    var p := Sweep(s.letters, 0, k, filter, f, stamps);
    && t.letters == p.entries && t.jobs.log == s.jobs.log + p.sent && t.jobs.cells == s.jobs.cells
    && t.replays == s.replays + [Replay(k, s.nextLetter, filter, p.seen)] && t.nextLetter == s.nextLetter
  }

  lemma SweptOn(s: State, t: State, filter: string, k: nat, f: Faults, stamps: nat -> string)
    requires Valid(t.jobs) && SweptTo(s, t, filter, k, f, stamps) && k < s.nextLetter
    ensures SweptTo(s, Next(t, VisitNext(|s.replays|, f, stamps(k))), filter, k + 1, f, stamps)
  {
    var p := Sweep(s.letters, 0, k, filter, f, stamps);
    VisitFresh(p, k, filter, f, stamps(k));
    var alone := Visit(Pass(p.entries, [], [], p.seen), k, filter, f, stamps(k));
    assert (s.jobs.log + p.sent) + alone.sent == s.jobs.log + (p.sent + alone.sent);
  }

  /** The steps of the system add up to the handler: k visits of a request no other step comes between leave in
      JOBS_DLQ what the sweep of the first k sequences leaves, and add to JOBS what it sends; k visits can be made for
      every k up to the end of JOBS_DLQ. */
  lemma {:induction false} UndisturbedSweep(s: State, filter: string, k: nat, f: Faults, stamps: nat -> string)
    requires Valid(s.jobs) && k <= s.nextLetter
    ensures SweptTo(s, Run(s, SweepSteps(|s.replays|, filter, k, f, stamps)), filter, k, f, stamps)
  {
    if k == 0 {
      assert Run(s, [OpenReplay(filter)]) == Run(Next(s, OpenReplay(filter)), []);
    } else {
      UndisturbedSweep(s, filter, k - 1, f, stamps);
      RunSnoc(s, SweepSteps(|s.replays|, filter, k - 1, f, stamps), VisitNext(|s.replays|, f, stamps(k - 1)));
      SweptOn(s, Run(s, SweepSteps(|s.replays|, filter, k - 1, f, stamps)), filter, k - 1, f, stamps);
    }
  }
}
