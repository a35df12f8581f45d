// What becomes of every message, over whole runs of the single-fetch path, and what a late Ack does to it.

module Fates {
  import opened Options
  import opened Jobs
  import opened Worker
  import opened Broker
  import opened System
  import opened Retry
  import opened Delivery

  /** A message is dead-lettered exactly when its latest delivery, not struck by a fault and no longer in anyone's
      hands, was the one to exhaust the attempts. What is settled otherwise was discarded, terminated or reported
      complete. */
  predicate Fate(s: State, i: nat)
    requires i < |s.jobs.cells| <= |s.jobs.log|
  {
    var m, c := s.jobs.log[i], s.jobs.cells[i];
    && (i in s.buried <==>
          && !Discarded(m) && i !in s.ended && !Busy(s, i) && (c.count >= 2 || i !in s.faulted)
          && Outcome(m.body.value, c.count).DeadLetter?)
    && (i in s.buried || i in s.ended ==> c.settled && !Busy(s, i))
    && (c.settled && !Discarded(m) && i !in s.buried && i !in s.ended ==> m.body.value.id in s.completed)
  }

  ghost predicate Fates(s: State) {
    && Valid(s.jobs)
    && (forall i | 0 <= i < |s.jobs.cells| :: Fate(s, i))
    && (forall i | i in s.buried :: i < |s.jobs.cells|)
    && (forall i | i in s.ended :: i < |s.jobs.cells|)
  }

  lemma FetchKeepsFates(s: State, i: nat)
    requires Inv(s) && Prompt(s) && Fates(s) && CanStep(s, Fetch(i, false))
    ensures Fates(Next(s, Fetch(i, false)))
  {
    var t := Next(s, Fetch(i, false));
    var h := Hand(i, if i < |s.jobs.cells| then s.jobs.cells[i].count + 1 else 1, s.now, Processing);
    if i < |s.jobs.cells| { assert Fate(s, i); }
    assert h in t.hands && t.hands == s.hands + {h};
    assert Busy(t, i);
    forall j | 0 <= j < |t.jobs.cells| ensures Fate(t, j) {
      if j != i {
        assert Fate(s, j);
        assert Busy(t, j) <==> Busy(s, j);
      }
    }
  }

  lemma DecidedFateOfOthers(s: State, h: Hand, v: Verdict, reply: Reply, j: nat)
    requires Inv(s) && Fates(s) && h in s.hands && h.i < |s.jobs.log| && j < |s.jobs.cells| && j != h.i
    requires v.DeadLetter? ==> s.jobs.log[h.i].body.Some?
    ensures var t := Decided(s, h, v, reply); j < |t.jobs.cells| <= |t.jobs.log| && Fate(t, j)
  {
    var t := Decided(s, h, v, reply);
    assert HandSound(s, h) && Fate(s, j);
    assert t.jobs.cells[j] == s.jobs.cells[j];
    assert Busy(t, j) <==> Busy(s, j) by {
      if Busy(s, j) {
        var g :| g in s.hands && g.i == j && g.stage.Processing?;
        assert g in t.hands;
      }
    }
  }

  lemma DecidedFate(s: State, h: Hand, v: Verdict, reply: Reply)
    requires Inv(s) && Fates(s) && h in s.hands && h.stage.Processing? && h.i < |s.jobs.log|
    requires v.Discard? <==> Discarded(s.jobs.log[h.i])
    requires v.Crash? || v.SlowAck? || v.FaultNak? ==> h.attempt == 1
    requires v.DeadLetter? || v.Complete? || v.Retry? ==> v == Outcome(s.jobs.log[h.i].body.value, h.attempt)
    ensures var t := Decided(s, h, v, reply); h.i < |t.jobs.cells| <= |t.jobs.log| && Fate(t, h.i)
  {
    var t := Decided(s, h, v, reply);
    assert HandSound(s, h) && Fate(s, h.i);
    assert Busy(s, h.i);
    forall g | g in t.hands && g.stage.Processing? ensures g.i != h.i {
      if g.i == h.i { OnlyOneProcessing(s, g, h); }
    }
    assert !Busy(t, h.i);
  }

  lemma DecideKeepsFates(s: State, h: Hand, armed: Scenario, reply: Reply)
    requires Inv(s) && Fates(s) && CanStep(s, Decide(h, armed, reply))
    ensures Fates(Next(s, Decide(h, armed, reply)))
  {
    var v := Judge(s.jobs.log[h.i], h.attempt, armed);
    var t := Next(s, Decide(h, armed, reply));
    assert HandSound(s, h);
    NextExtends(s, Decide(h, armed, reply));
    assert |t.jobs.cells| == |s.jobs.cells|;
    forall j | 0 <= j < |t.jobs.cells| ensures Fate(t, j) {
      if j == h.i {
        VerdictFacts(s.jobs.log[h.i], h.attempt, armed);
        DecidedFate(s, h, v, reply);
      } else {
        DecidedFateOfOthers(s, h, v, reply, j);
      }
    }
  }

  lemma LateAckKeepsFates(s: State, h: Hand)
    requires Inv(s) && Fates(s) && CanStep(s, LateAck(h))
    ensures Fates(Next(s, LateAck(h)))
  {
    var t := Next(s, LateAck(h));
    NextExtends(s, LateAck(h));
    assert HandSound(s, h);
    assert t.jobs.cells == s.jobs.cells[h.i := s.jobs.cells[h.i].(settled := true)];
    forall j | 0 <= j < |t.jobs.cells| ensures Fate(t, j) {
      assert Fate(s, j);
      assert Busy(t, j) <==> Busy(s, j) by {
        if Busy(s, j) {
          var g :| g in s.hands && g.i == j && g.stage.Processing?;
          assert g in t.hands;
        }
      }
    }
  }

  lemma FatesKept(s: State, step: Step)
    requires Inv(s) && Prompt(s) && Fates(s) && !(step.Fetch? && step.batch)
    ensures Fates(Next(s, step))
  {
    if CanStep(s, step) {
      assert forall h | h in s.hands :: HandSound(s, h);
      match step
      case Fetch(i, _) => FetchKeepsFates(s, i);
      case Decide(h, armed, reply) => DecideKeepsFates(s, h, armed, reply);
      case LateAck(h) => LateAckKeepsFates(s, h);
      case BatchAck(h) =>
      case Heartbeat(h) =>
      case _ =>
        var t := Next(s, step);
        assert t.hands == s.hands && t.jobs.cells == s.jobs.cells && s.jobs.log <= t.jobs.log;
        forall j | 0 <= j < |t.jobs.cells| ensures Fate(t, j) {
          assert Fate(s, j);
          assert Busy(s, j) <==> Busy(t, j);
        }
    }
  }

  lemma {:induction false} FatesRun(s: State, steps: seq<Step>)
    requires Inv(s) && Prompt(s) && Fates(s) && PromptRun(s, steps)
    ensures var t := Run(s, steps); Inv(t) && Prompt(t) && Fates(t)
    decreases |steps|
  {
    if steps == [] {
    } else {
      InvKept(s, steps[0]);
      FatesKept(s, steps[0]);
      FatesRun(Next(s, steps[0]), steps[1..]);
    }
  }

  lemma BuriedIff(s: State, i: nat)
    requires Inv(s) && Fates(s) && i < |s.jobs.cells| && !Discarded(s.jobs.log[i]) && i !in s.ended
    ensures var job, faulted := s.jobs.log[i].body.value, i in s.faulted;
            i in s.buried <==>
              && !Busy(s, i) && Poison(job) && (faulted ==> !OneShot(job))
              && s.jobs.cells[i].count == LastAttempt(job, faulted)
  {
    var job, faulted, n := s.jobs.log[i].body.value, i in s.faulted, s.jobs.cells[i].count;
    assert Fate(s, i) && PastRetried(s, i);
    RetriesBelowSettleAttempt(job, n);
    if i in s.buried {
      if n >= 2 && (n >= 3 || !faulted) { assert RetriesAt(s.jobs.log[i], n - 1); }
      SettlingAttempt(job, n, faulted);
    }
  }

  /** The fate of every job, exactly: after any prompt run a delivered job that is neither terminated nor in a
      worker's hands has been dead-lettered iff it is poison, was not saved as a one-shot job by a fault, and its last
      attempt was handed out. Settled without that it is reported complete. So a poison job that no fault saves
      escapes JOBS_DLQ exactly when a late Ack settles it before its last attempt is handed out. */
  lemma FateOfEveryJob(steps: seq<Step>, i: nat)
    requires PromptRun(INITIAL, steps)
    requires var t := Run(INITIAL, steps);
             i < |t.jobs.cells| && !Discarded(t.jobs.log[i]) && i !in t.ended && !Busy(t, i)
    ensures var t := Run(INITIAL, steps);
            var job, faulted := t.jobs.log[i].body.value, i in t.faulted;
            && (i in t.buried <==> Poison(job) && (faulted ==> !OneShot(job))
                                   && t.jobs.cells[i].count == LastAttempt(job, faulted))
            && (t.jobs.cells[i].settled && i !in t.buried ==> job.id in t.completed)
  {
    FatesRun(INITIAL, steps);
    var t := Run(INITIAL, steps);
    assert Fate(t, i);
    BuriedIff(t, i);
  }

  // A slow first delivery: its redeliveries cannot come faster than AckWait, then a second of work and the job's own
  // delay each.

  function DelayOf(m: Message): nat {
    if m.body.Some? then NakDelay(m.body.value) else 0
  }

  /** The least time k rounds of work and Nak take. */
  function Rounds(m: Message, k: nat): nat {
    if k == 0 then 0 else Rounds(m, k - 1) + 1000 + 1000 * DelayOf(m)
  }

  lemma {:induction false} RoundsAre(m: Message, k: nat)
    ensures Rounds(m, k) == k * (1000 + 1000 * DelayOf(m))
  {
    if k == 0 {
    } else {
      RoundsAre(m, k - 1);
      assert k * (1000 + 1000 * DelayOf(m)) == (k - 1) * (1000 + 1000 * DelayOf(m)) + (1000 + 1000 * DelayOf(m));
    }
  }

  /** The earliest time at which the n-th delivery can come after a slow first one pulled at p. */
  function Earliest(m: Message, p: nat, n: nat): nat
    requires n >= 2
  {
    p + ACK_WAIT + Rounds(m, n - 2)
  }

  predicate Paced(s: State, h: Hand)
    requires h.i < |s.jobs.cells| <= |s.jobs.log|
  {
    h.stage.Slow? ==>
      var m, c := s.jobs.log[h.i], s.jobs.cells[h.i];
      && c.count >= 1
      && (!c.settled && !Busy(s, h.i) ==> c.readyAt >= Earliest(m, h.pulledAt, c.count + 1))
      && (c.count >= 2 ==> s.now >= Earliest(m, h.pulledAt, c.count))
      && forall g | g in s.hands && g.i == h.i && g.stage.Processing? ::
           g.attempt >= 2 && g.pulledAt >= Earliest(m, h.pulledAt, g.attempt)
  }

  lemma PacedFetch(s: State, i: nat, h: Hand)
    requires Inv(s) && Prompt(s) && CanStep(s, Fetch(i, false)) && h in s.hands && HandSound(s, h) && Paced(s, h)
    ensures var t := Next(s, Fetch(i, false)); h.i < |t.jobs.cells| && Paced(t, h)
  {
    var t := Next(s, Fetch(i, false));
    if i == h.i {
      NotBusyWhenDeliverable(s, i);
      var g := Hand(i, s.jobs.cells[i].count + 1, s.now, Processing);
      assert g in t.hands && t.hands == s.hands + {g};
      assert Busy(t, i);
    } else {
      assert Busy(s, h.i) ==> Busy(t, h.i);
    }
  }

  lemma PacedVerdict(s: State, d: Hand, v: Verdict, reply: Reply, h: Hand)
    requires Inv(s) && d in s.hands && d.stage.Processing? && d.i < |s.jobs.log|
    requires h in s.hands && h.stage.Slow? && d.i == h.i && HandSound(s, h) && Paced(s, h)
    requires v.Crash? || v.SlowAck? || v.FaultNak? ==> d.attempt == 1
    requires v.DeadLetter? ==> s.jobs.log[d.i].body.Some?
    requires v.Retry? ==> v.delay == DelayOf(s.jobs.log[d.i]) && s.now >= d.pulledAt + 1000
    ensures var t := Decided(s, d, v, reply); h.i < |t.jobs.cells| && Paced(t, h)
  {
  }

  lemma PacedNewSlow(s: State, d: Hand, v: Verdict, reply: Reply)
    requires Inv(s) && d in s.hands && d.stage.Processing? && d.i < |s.jobs.log| && v.SlowAck? && d.attempt == 1
    ensures var t := Decided(s, d, v, reply); d.i < |t.jobs.cells| && Paced(t, d.(stage := Slow))
  {
  }

  lemma PacedDecide(s: State, d: Hand, armed: Scenario, reply: Reply, h: Hand)
    requires Inv(s) && CanStep(s, Decide(d, armed, reply)) && h in Next(s, Decide(d, armed, reply)).hands
    requires h in s.hands ==> HandSound(s, h) && Paced(s, h)
    requires h.stage.Slow?
    ensures var t := Next(s, Decide(d, armed, reply)); h.i < |t.jobs.cells| && Paced(t, h)
  {
    var t := Next(s, Decide(d, armed, reply));
    var v := Judge(s.jobs.log[d.i], d.attempt, armed);
    assert HandSound(s, d);
    VerdictFacts(s.jobs.log[d.i], d.attempt, armed);
    if h !in s.hands {
      PacedNewSlow(s, d, v, reply);
    } else if d.i == h.i {
      PacedVerdict(s, d, v, reply, h);
    } else {
      PacedElsewhere(s, d, v, reply, h);
    }
  }

  lemma PacedElsewhere(s: State, d: Hand, v: Verdict, reply: Reply, h: Hand)
    requires Inv(s) && d in s.hands && d.stage.Processing? && d.i < |s.jobs.log|
    requires h in s.hands && h.stage.Slow? && d.i != h.i && HandSound(s, h) && Paced(s, h)
    requires v.DeadLetter? ==> s.jobs.log[d.i].body.Some?
    ensures var t := Decided(s, d, v, reply); h.i < |t.jobs.cells| && Paced(t, h)
  {
    var t := Decided(s, d, v, reply);
    assert HandSound(s, d);
    assert t.jobs.cells[h.i] == s.jobs.cells[h.i];
    if Busy(s, h.i) {
      var g :| g in s.hands && g.i == h.i && g.stage.Processing?;
      assert g in t.hands;
    }
  }

  lemma PacedLateAck(s: State, d: Hand, h: Hand)
    requires Inv(s) && CanStep(s, LateAck(d)) && h in s.hands && HandSound(s, h) && Paced(s, h) && h.stage.Slow?
    ensures var t := Next(s, LateAck(d)); h.i < |t.jobs.cells| && Paced(t, h)
  {
  }

  lemma PacedKept(s: State, step: Step, h: Hand)
    requires Inv(s) && Prompt(s) && !(step.Fetch? && step.batch)
    requires forall g | g in s.hands :: HandSound(s, g) && Paced(s, g)
    requires h in Next(s, step).hands && h.stage.Slow?
    ensures h.i < |Next(s, step).jobs.cells| && Paced(Next(s, step), h)
  {
    if CanStep(s, step) {
      assert forall g | g in s.hands :: HandSound(s, g);
      match step
      case Fetch(i, _) => PacedFetch(s, i, h);
      case Decide(d, armed, reply) => PacedDecide(s, d, armed, reply, h);
      case LateAck(d) => PacedLateAck(s, d, h);
      case BatchAck(d) =>
      case Heartbeat(d) =>
      case _ => PacedQuiet(s, Next(s, step), h);
    }
  }

  lemma PacedQuiet(s: State, t: State, h: Hand)
    requires h.i < |s.jobs.cells| <= |s.jobs.log| && Paced(s, h)
    requires t.hands == s.hands && t.jobs.cells == s.jobs.cells && s.jobs.log <= t.jobs.log && s.now <= t.now
    ensures Paced(t, h)
  {
  }

  lemma {:induction false} PacedRun(s: State, steps: seq<Step>, h: Hand)
    requires Inv(s) && Prompt(s) && PromptRun(s, steps)
    requires forall g | g in s.hands :: HandSound(s, g) && Paced(s, g)
    requires h in Run(s, steps).hands
    ensures Inv(Run(s, steps)) && HandSound(Run(s, steps), h) && Paced(Run(s, steps), h)
    decreases |steps|
  {
    if steps == [] {
    } else {
      InvKept(s, steps[0]);
      var t := Next(s, steps[0]);
      forall g | g in t.hands ensures HandSound(t, g) && Paced(t, g) {
        assert HandSound(t, g);
        if g.stage.Slow? { PacedKept(s, steps[0], g); }
      }
      PacedRun(t, steps[1..], h);
    }
  }

  /** While a slow first delivery is still to be acknowledged, the n-th delivery of its job comes at least AckWait plus
      n - 2 rounds after it, and is judged a second later; if it is then dead-lettered, n was its last attempt. */
  lemma LateAckHidesPoison(steps: seq<Step>, slow: Hand, g: Hand, armed: Scenario, reply: Reply)
    requires PromptRun(INITIAL, steps)
    requires var t := Run(INITIAL, steps);
             && slow in t.hands && slow.stage.Slow?
             && CanStep(t, Decide(g, armed, reply)) && g.i == slow.i
             && Judge(t.jobs.log[g.i], g.attempt, armed).DeadLetter?
    ensures var t := Run(INITIAL, steps);
            && g.attempt == LastAttempt(t.jobs.log[g.i].body.value, true)
            && 6000 + (g.attempt - 2) * (1000 + 1000 * NakDelay(t.jobs.log[g.i].body.value)) <= t.now - slow.pulledAt
  {
    PacedRun(INITIAL, steps, slow);
    var t := Run(INITIAL, steps);
    assert Paced(t, slow) && HandSound(t, slow);
    VerdictFacts(t.jobs.log[g.i], g.attempt, armed);
    SettlesExactly(steps, g, armed, reply);
    RoundsAre(t.jobs.log[g.i], g.attempt - 2);
  }

  /** A poison job whose last attempt cannot have come by the time of the late Ack is lost to it: acknowledged,
      reported complete, and never dead-lettered however the run goes on. For an Ack eight seconds after the pull and
      no delay this is every poison job that needs six attempts or more. */
  lemma LateAckLosesPoison(steps: seq<Step>, slow: Hand, rest: seq<Step>)
    requires PromptRun(INITIAL, steps)
    requires CanStep(Run(INITIAL, steps), LateAck(slow))
    requires PromptRun(Next(Run(INITIAL, steps), LateAck(slow)), rest)
    requires var t := Run(INITIAL, steps);
             && !Discarded(t.jobs.log[slow.i])
             && var job := t.jobs.log[slow.i].body.value;
                t.now - slow.pulledAt < 5000 + (LastAttempt(job, true) - 2) * (1000 + 1000 * NakDelay(job))
    ensures var t, u := Run(INITIAL, steps), Run(Next(Run(INITIAL, steps), LateAck(slow)), rest);
            && slow.i < |u.jobs.cells| && u.jobs.cells[slow.i].settled
            && slow.i !in u.buried && t.jobs.log[slow.i].body.value.id in u.completed
  {
    FatesRun(INITIAL, steps);
    PacedRun(INITIAL, steps, slow);
    CountBelowLast(Run(INITIAL, steps), slow);
    AfterLateAck(Run(INITIAL, steps), slow, rest);
  }

  lemma AfterLateAck(t: State, slow: Hand, rest: seq<Step>)
    requires Inv(t) && Prompt(t) && Fates(t) && CanStep(t, LateAck(slow)) && HandSound(t, slow)
    requires PromptRun(Next(t, LateAck(slow)), rest)
    requires !Discarded(t.jobs.log[slow.i])
    requires t.jobs.cells[slow.i].count < LastAttempt(t.jobs.log[slow.i].body.value, true)
    ensures var u := Run(Next(t, LateAck(slow)), rest);
            && slow.i < |u.jobs.cells| && u.jobs.cells[slow.i].settled
            && slow.i !in u.buried && t.jobs.log[slow.i].body.value.id in u.completed
  {
    var v := Next(t, LateAck(slow));
    LateAckSettles(t, slow);
    InvKept(t, LateAck(slow));
    FatesKept(t, LateAck(slow));
    FatesRun(v, rest);
    RunSafe(v, rest);
    Remembered(v, rest, slow.i, t.jobs.log[slow.i].body.value.id);
    NeverBuried(Run(v, rest), slow.i);
  }

  lemma LateAckSettles(t: State, slow: Hand)
    requires Inv(t) && CanStep(t, LateAck(slow)) && HandSound(t, slow)
    ensures var v := Next(t, LateAck(slow));
            && Extends(t.jobs, v.jobs) && v.jobs.cells[slow.i].settled
            && v.jobs.cells[slow.i].count == t.jobs.cells[slow.i].count && slow.i in v.faulted
            && v.jobs.log == t.jobs.log
            && (t.jobs.log[slow.i].body.Some? ==> t.jobs.log[slow.i].body.value.id in v.completed)
  {
  }

  lemma {:induction false} Remembered(s: State, steps: seq<Step>, i: nat, id: string)
    requires Valid(s.jobs) && i in s.faulted && id in s.completed
    ensures i in Run(s, steps).faulted && id in Run(s, steps).completed
    decreases |steps|
  {
    if steps == [] {
    } else {
      Remembered(Next(s, steps[0]), steps[1..], i, id);
    }
  }

  lemma CountBelowLast(t: State, slow: Hand)
    requires Inv(t) && slow in t.hands && slow.stage.Slow? && HandSound(t, slow) && Paced(t, slow)
    requires !Discarded(t.jobs.log[slow.i])
    requires var job := t.jobs.log[slow.i].body.value;
             t.now - slow.pulledAt < 5000 + (LastAttempt(job, true) - 2) * (1000 + 1000 * NakDelay(job))
    ensures t.jobs.cells[slow.i].count < LastAttempt(t.jobs.log[slow.i].body.value, true)
  {
    var m, n := t.jobs.log[slow.i], t.jobs.cells[slow.i].count;
    var last := LastAttempt(m.body.value, true);
    if n >= last {
      RoundsAre(m, last - 2);
      RoundsGrow(m, last - 2, n - 2);
    }
  }

  lemma {:induction false} RoundsGrow(m: Message, j: nat, k: nat)
    requires j <= k
    ensures Rounds(m, j) <= Rounds(m, k)
    decreases k
  {
    if j == k {
    } else {
      RoundsGrow(m, j, k - 1);
    }
  }

  lemma NeverBuried(u: State, i: nat)
    requires Inv(u) && Fates(u) && i < |u.jobs.cells| && !Discarded(u.jobs.log[i])
    requires u.jobs.cells[i].count < LastAttempt(u.jobs.log[i].body.value, true)
    requires i in u.faulted
    ensures i !in u.buried
  {
    assert Fate(u, i);
    if i !in u.ended { BuriedIff(u, i); }
  }

  // Runs that meet the bounds.

  /** A job that always fails and can be struck by an armed slow fault. */
  predicate Stubborn(m: Message, attempts: nat) {
    && !Discarded(m) && Failing(m.body.value) && FailureCount(m.body.value) == 0
    && MaxAttempts(m.body.value) == attempts
    && Effective(m.body.value.payload, ExceedAckWait) == ExceedAckWait
    && Effective(m.body.value.payload, Normal) == Normal
  }

  function StubbornMessage(attempts: nat): Message {
    var payload := map["simulate_failure" := Bool(true), "max_delivery_attempts" := Num(attempts as real)];
    Message("JETSTREAM", Some(Job("poison", "", "JETSTREAM", Some(payload))))
  }

  lemma StubbornExists(attempts: nat)
    requires attempts >= 1
    ensures Stubborn(StubbornMessage(attempts), attempts) && DelayOf(StubbornMessage(attempts)) == 0
  {
    var m := StubbornMessage(attempts);
    assert (attempts as real).Floor == attempts;
    assert IntOr(m.body.value.payload, "max_delivery_attempts", 0) == attempts;
  }

  /** One more prompt step. */
  lemma {:induction false} Snoc(s: State, steps: seq<Step>, step: Step)
    requires Valid(s.jobs) && PromptRun(s, steps) && !(step.Fetch? && step.batch)
    requires Prompt(Next(Run(s, steps), step))
    ensures PromptRun(s, steps + [step]) && Run(s, steps + [step]) == Next(Run(s, steps), step)
    decreases |steps|
  {
    if steps == [] {
      assert Run(s, [step]) == Run(Next(s, step), []);
    } else {
      assert (steps + [step])[1..] == steps[1..] + [step];
      Snoc(Next(s, steps[0]), steps[1..], step);
    }
  }

  const SLOW := Hand(0, 1, 0, Slow)

  /** A slow first delivery pulled at 0, and the n-th delivery just pulled. */
  function Redelivered(m: Message, n: nat): State
    requires n >= 2
  {
    var at := Earliest(m, 0, n);
    INITIAL.(now := at, jobs := Consumer([m], [Cell(n, at + ACK_WAIT, false)], 0),
             hands := {SLOW, Hand(0, n, at, Processing)}, faulted := {0})
  }

  lemma SlowStart(m: Message, attempts: nat) returns (steps: seq<Step>)
    requires Stubborn(m, attempts) && attempts >= 2
    ensures PromptRun(INITIAL, steps)
    ensures Run(INITIAL, steps)
         == INITIAL.(now := 5000, jobs := Consumer([m], [Cell(1, ACK_WAIT, false)], 0), hands := {SLOW}, faulted := {0})
  {
    var hand := Hand(0, 1, 0, Processing);
    var s1 := INITIAL.(jobs := Consumer([m], [], 0));
    var s2 := s1.(jobs := Consumer([m], [Cell(1, ACK_WAIT, false)], 0), hands := {hand});
    var s3 := s2.(now := 1000);
    var s4 := s3.(hands := {SLOW}, faulted := {0});
    assert Next(INITIAL, Publish(m)) == s1;
    assert Next(s1, Fetch(0, false)) == s2;
    assert Next(s2, Elapse(1000)) == s3;
    assert Next(s3, Decide(hand, ExceedAckWait, Stored)) == s4;
    steps := [];
    Snoc(INITIAL, steps, Publish(m));
    steps := steps + [Publish(m)];
    Snoc(INITIAL, steps, Fetch(0, false));
    steps := steps + [Fetch(0, false)];
    Snoc(INITIAL, steps, Elapse(1000));
    steps := steps + [Elapse(1000)];
    Snoc(INITIAL, steps, Decide(hand, ExceedAckWait, Stored));
    steps := steps + [Decide(hand, ExceedAckWait, Stored)];
    Snoc(INITIAL, steps, Elapse(4000));
    steps := steps + [Elapse(4000)];
  }

  /** The n-th delivery has just been Nak'ed. */
  function Naked(m: Message, n: nat): State
    requires n >= 2
  {
    var at := Earliest(m, 0, n) + 1000;
    INITIAL.(now := at, jobs := Consumer([m], [Cell(n, at + 1000 * DelayOf(m), false)], 0),
             hands := {SLOW}, faulted := {0})
  }

  lemma WorkThenNak(m: Message, attempts: nat, n: nat)
    requires Stubborn(m, attempts) && 2 <= n < attempts
    ensures var s, hand := Redelivered(m, n), Hand(0, n, Earliest(m, 0, n), Processing);
            && Prompt(Next(s, Elapse(1000))) && Prompt(Naked(m, n))
            && Next(Next(s, Elapse(1000)), Decide(hand, Normal, Stored)) == Naked(m, n)
  {
  }

  lemma WaitThenFetch(m: Message, n: nat)
    requires n >= 2
    ensures var s := Naked(m, n);
            && Prompt(Next(s, Elapse(1000 * DelayOf(m)))) && Prompt(Redelivered(m, n + 1))
            && Next(Next(s, Elapse(1000 * DelayOf(m))), Fetch(0, false)) == Redelivered(m, n + 1)
  {
  }

  /** A round: a second of work, a Nak, the delay, and the next delivery. */
  lemma Round(m: Message, attempts: nat, n: nat, steps: seq<Step>) returns (more: seq<Step>)
    requires Stubborn(m, attempts) && 2 <= n < attempts
    requires PromptRun(INITIAL, steps) && Run(INITIAL, steps) == Redelivered(m, n)
    ensures PromptRun(INITIAL, more) && Run(INITIAL, more) == Redelivered(m, n + 1)
  {
    var decide := Decide(Hand(0, n, Earliest(m, 0, n), Processing), Normal, Stored);
    var wait := Elapse(1000 * DelayOf(m));
    WorkThenNak(m, attempts, n);
    WaitThenFetch(m, n);
    Snoc(INITIAL, steps, Elapse(1000));
    Snoc(INITIAL, steps + [Elapse(1000)], decide);
    more := steps + [Elapse(1000)] + [decide];
    Snoc(INITIAL, more, wait);
    Snoc(INITIAL, more + [wait], Fetch(0, false));
    more := more + [wait] + [Fetch(0, false)];
  }

  lemma {:induction false} Redeliveries(m: Message, attempts: nat, n: nat) returns (steps: seq<Step>)
    requires Stubborn(m, attempts) && 2 <= n <= attempts
    ensures PromptRun(INITIAL, steps) && Run(INITIAL, steps) == Redelivered(m, n)
    decreases n
  {
    if n == 2 {
      steps := SlowStart(m, attempts);
      var s := Run(INITIAL, steps);
      assert Next(s, Fetch(0, false)) == Redelivered(m, 2);
      Snoc(INITIAL, steps, Fetch(0, false));
      steps := steps + [Fetch(0, false)];
    } else {
      steps := Redeliveries(m, attempts, n - 1);
      steps := Round(m, attempts, n - 1, steps);
    }
  }

  /** LateAckHidesPoison's bound is met with equality at every attempt: with the slow delivery's Ack still out,
      attempt n dead-letters the job that much time after the slow pull. At n = 4 without a delay, and at n = 3 with a
      delay of one second, this is the moment the Ack is due. */
  lemma BoundIsMet(m: Message, n: nat) returns (steps: seq<Step>, g: Hand)
    requires Stubborn(m, n) && n >= 2
    ensures PromptRun(INITIAL, steps)
    ensures var t := Run(INITIAL, steps);
            && SLOW in t.hands && t.now - SLOW.pulledAt == 6000 + (n - 2) * (1000 + 1000 * DelayOf(m))
            && g.i == SLOW.i && g.attempt == n && CanStep(t, Decide(g, Normal, Stored))
            && Judge(t.jobs.log[g.i], g.attempt, Normal).DeadLetter?
  {
    steps := Redeliveries(m, n, n);
    g := Hand(0, n, Earliest(m, 0, n), Processing);
    RoundsAre(m, n - 2);
    var s := Redelivered(m, n);
    assert Next(s, Elapse(1000)) == s.(now := s.now + 1000);
    Snoc(INITIAL, steps, Elapse(1000));
    steps := steps + [Elapse(1000)];
  }

  /** The fifth delivery, in hand when the late Ack of the first arrived, is about to be judged. */
  function LateAcked(m: Message): State
    requires m.body.Some?
  {
    INITIAL.(now := 9000, jobs := Consumer([m], [Cell(5, 13000, true)], 1), hands := {Hand(0, 5, 8000, Processing)},
             completed := {m.body.value.id}, faulted := {0})
  }

  function JudgeFifth(): Step {
    Decide(Hand(0, 5, 8000, Processing), Normal, Stored)
  }

  lemma AckThenWait(m: Message)
    requires m.body.Some? && DelayOf(m) == 0
    ensures var s := Redelivered(m, 5);
            && s.now == 8000 && CanStep(s, LateAck(SLOW))
            && Next(Next(s, LateAck(SLOW)), Elapse(1000)) == LateAcked(m)
            && Prompt(Next(s, LateAck(SLOW)))
  {
    var s := Redelivered(m, 5);
    RoundsAre(m, 3);
    assert s.now == 8000;
    assert Cascade([Cell(5, 13000, true)], 0) == 1 by { assert Cascade([Cell(5, 13000, true)], 1) == 1; }
    assert s.hands - {SLOW} == {Hand(0, 5, 8000, Processing)};
    var s1 := LateAcked(m).(now := 8000);
    assert DoSettle(s.jobs, 0).cells == [Cell(5, 13000, true)];
    assert Next(s, LateAck(SLOW)) == s1;
  }

  lemma FifthJudged(m: Message, attempts: nat)
    requires Stubborn(m, attempts) && DelayOf(m) == 0 && attempts in {5, 6}
    ensures var u := Next(LateAcked(m), JudgeFifth());
            && Prompt(u) && u.jobs == LateAcked(m).jobs && u.hands == {}
            && u.buried == (if attempts == 5 then {0} else {})
            && u.letters == (if attempts == 5 then map[1 := LetterFor(m.body.value)] else map[])
  {
  }

  lemma ThenAckWaitJudge(m: Message, steps: seq<Step>)
    requires m.body.Some? && DelayOf(m) == 0
    requires PromptRun(INITIAL, steps) && Run(INITIAL, steps) == Redelivered(m, 5)
    requires Prompt(Next(LateAcked(m), JudgeFifth()))
    ensures var more := steps + [LateAck(SLOW)] + [Elapse(1000)] + [JudgeFifth()];
            PromptRun(INITIAL, more) && Run(INITIAL, more) == Next(LateAcked(m), JudgeFifth())
  {
    AckThenWait(m);
    Snoc(INITIAL, steps, LateAck(SLOW));
    Snoc(INITIAL, steps + [LateAck(SLOW)], Elapse(1000));
    Snoc(INITIAL, steps + [LateAck(SLOW)] + [Elapse(1000)], JudgeFifth());
  }

  /** The handing out decides, not the judging: eight seconds after the slow pull the fifth delivery is in a worker's
      hands when the late Ack arrives. With five attempts allowed that worker still dead-letters the acknowledged job;
      with six, nobody ever will. */
  lemma LastDeliveryDecides(m: Message, attempts: nat) returns (steps: seq<Step>)
    requires Stubborn(m, attempts) && DelayOf(m) == 0 && attempts in {5, 6}
    ensures PromptRun(INITIAL, steps) && Run(INITIAL, steps) == Redelivered(m, 5)
    ensures var more := steps + [LateAck(SLOW)] + [Elapse(1000)] + [JudgeFifth()];
            var u := Run(INITIAL, more);
            && PromptRun(INITIAL, more)
            && u.jobs == Consumer([m], [Cell(5, 13000, true)], 1) && u.hands == {}
            && u.buried == (if attempts == 5 then {0} else {})
            && u.letters == (if attempts == 5 then map[1 := LetterFor(m.body.value)] else map[])
  {
    steps := Redeliveries(m, attempts, 5);
    FifthJudged(m, attempts);
    ThenAckWaitJudge(m, steps);
  }
}
