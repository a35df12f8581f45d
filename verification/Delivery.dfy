// How often a message is delivered before it settles, over whole runs of the single-fetch path.

module Delivery {
  import opened Jobs
  import opened Worker
  import opened Broker
  import opened System
  import opened Retry

  /** No worker still ponders a delivery whose AckWait has run out: the ordinary second of work keeps this. */
  predicate Prompt(s: State) {
    forall h | h in s.hands && h.stage.Processing? :: s.now < h.pulledAt + ACK_WAIT
  }

  /** A run of single fetches in which ordinary decisions beat AckWait. Crashes and slow deliveries are welcome. */
  ghost predicate PromptRun(s: State, steps: seq<Step>)
    requires Valid(s.jobs)
    decreases |steps|
  {
    steps != [] ==>
      && !(steps[0].Fetch? && steps[0].batch)
      && Prompt(Next(s, steps[0]))
      && PromptRun(Next(s, steps[0]), steps[1..])
  }

  /** The attempt ends in a redelivery by the job's own failure. */
  predicate RetriesAt(m: Message, k: nat) {
    !Discarded(m) && Outcome(m.body.value, k).Retry?
  }

  predicate Busy(s: State, i: nat) {
    exists h | h in s.hands :: h.i == i && h.stage.Processing?
  }

  /** Each delivery but the one in hand ended in a retry; the first may have been struck by a scenario instead. */
  predicate PastRetried(s: State, i: nat)
    requires i < |s.jobs.cells| <= |s.jobs.log|
  {
    var c := s.jobs.cells[i];
    forall k: nat | 1 <= k <= c.count && (k < c.count || (!c.settled && !Busy(s, i))) && (k >= 2 || i !in s.faulted) ::
      RetriesAt(s.jobs.log[i], k)
  }

  predicate HandSound(s: State, h: Hand) {
    && h.i < |s.jobs.cells| && !h.stage.Batch? && h.pulledAt <= s.now
    && (h.stage.Processing? ==>
          && h.attempt == s.jobs.cells[h.i].count
          && s.jobs.cells[h.i].readyAt == h.pulledAt + ACK_WAIT
          && (h.attempt == 1 ==> h.i !in s.faulted))
    && (h.stage.Slow? ==> h.attempt == 1 && h.i in s.faulted)
  }

  ghost predicate Inv(s: State) {
    && Valid(s.jobs)
    && (forall h | h in s.hands :: HandSound(s, h))
    && (forall i | 0 <= i < |s.jobs.cells| :: PastRetried(s, i))
    && (forall i | i in s.faulted :: i < |s.jobs.cells|)
  }

  /** A message in a prompt worker's hands is in no one else's. */
  lemma OnlyOneProcessing(s: State, g: Hand, h: Hand)
    requires Inv(s) && g in s.hands && h in s.hands && g.stage.Processing? && h.stage.Processing? && g.i == h.i
    ensures g == h
  {
  }

  lemma NotBusyWhenDeliverable(s: State, i: nat)
    requires Inv(s) && Prompt(s) && i < |s.jobs.cells| && Deliverable(s.jobs, i, s.now)
    ensures !Busy(s, i)
  {
  }

  lemma FetchKeeps(s: State, i: nat)
    requires Inv(s) && Prompt(s) && CanStep(s, Fetch(i, false))
    ensures Inv(Next(s, Fetch(i, false)))
  {
    var t := Next(s, Fetch(i, false));
    var h := Hand(i, if i < |s.jobs.cells| then s.jobs.cells[i].count + 1 else 1, s.now, Processing);
    if i < |s.jobs.cells| { NotBusyWhenDeliverable(s, i); }
    assert h in t.hands && t.hands == s.hands + {h};
    forall g | g in t.hands ensures HandSound(t, g) {
      if g in s.hands { assert HandSound(s, g); }
    }
    forall j | 0 <= j < |t.jobs.cells| ensures PastRetried(t, j) {
      if j != i {
        assert PastRetried(s, j);
        assert Busy(s, j) ==> Busy(t, j);
      } else {
        assert Busy(t, i);
        if i < |s.jobs.cells| { assert PastRetried(s, i); }
      }
    }
  }

  lemma DecideKeepsHand(s: State, h: Hand, armed: Scenario, reply: Reply, g: Hand)
    requires Inv(s) && CanStep(s, Decide(h, armed, reply)) && g in Next(s, Decide(h, armed, reply)).hands
    ensures HandSound(Next(s, Decide(h, armed, reply)), g)
  {
    assert HandSound(s, h);
    if g in s.hands {
      assert HandSound(s, g);
      if g.stage.Processing? && g.i == h.i { OnlyOneProcessing(s, g, h); }
    }
  }

  lemma DecidedLeavesOthers(s: State, h: Hand, v: Verdict, reply: Reply, j: nat)
    requires Inv(s) && h in s.hands && h.i < |s.jobs.log| && j < |s.jobs.cells| && j != h.i
    requires v.DeadLetter? ==> s.jobs.log[h.i].body.Some?
    ensures var t := Decided(s, h, v, reply); j < |t.jobs.cells| <= |t.jobs.log| && PastRetried(t, j)
  {
    var t := Decided(s, h, v, reply);
    assert HandSound(s, h) && PastRetried(s, j);
    assert t.jobs.cells[j] == s.jobs.cells[j];
    if Busy(s, j) {
      var g :| g in s.hands && g.i == j && g.stage.Processing?;
      assert g in t.hands;
    }
  }

  /** What a verdict says about the attempt. */
  lemma VerdictFacts(m: Message, attempt: nat, armed: Scenario)
    ensures var v := Judge(m, attempt, armed);
            && (v.Retry? ==> RetriesAt(m, attempt))
            && (v.Crash? || v.SlowAck? || v.FaultNak? ==> attempt == 1)
            && (v.DeadLetter? || v.Complete? ==> !Discarded(m) && v == Outcome(m.body.value, attempt))
  {
  }

  lemma JudgedKeepsPast(s: State, h: Hand, v: Verdict, reply: Reply)
    requires Inv(s) && h in s.hands && h.stage.Processing? && h.i < |s.jobs.log|
    requires v.Retry? ==> RetriesAt(s.jobs.log[h.i], h.attempt)
    requires v.Crash? || v.SlowAck? || v.FaultNak? ==> h.attempt == 1
    requires v.DeadLetter? ==> s.jobs.log[h.i].body.Some?
    ensures var t := Decided(s, h, v, reply); h.i < |t.jobs.cells| <= |t.jobs.log| && PastRetried(t, h.i)
  {
    assert HandSound(s, h) && PastRetried(s, h.i);
  }

  lemma DecideJudges(s: State, h: Hand, armed: Scenario, reply: Reply)
    requires Inv(s) && CanStep(s, Decide(h, armed, reply))
    ensures var t := Next(s, Decide(h, armed, reply)); h.i < |t.jobs.cells| <= |t.jobs.log| && PastRetried(t, h.i)
  {
    VerdictFacts(s.jobs.log[h.i], h.attempt, armed);
    JudgedKeepsPast(s, h, Judge(s.jobs.log[h.i], h.attempt, armed), reply);
  }

  lemma DecideKeeps(s: State, h: Hand, armed: Scenario, reply: Reply)
    requires Inv(s) && CanStep(s, Decide(h, armed, reply))
    ensures Inv(Next(s, Decide(h, armed, reply)))
  {
    var t := Next(s, Decide(h, armed, reply));
    assert HandSound(s, h);
    NextExtends(s, Decide(h, armed, reply));
    assert |t.jobs.cells| == |s.jobs.cells|;
    forall g | g in t.hands ensures HandSound(t, g) {
      DecideKeepsHand(s, h, armed, reply, g);
    }
    forall j | 0 <= j < |t.jobs.cells| ensures PastRetried(t, j) {
      if j == h.i {
        DecideJudges(s, h, armed, reply);
      } else {
        DecidedLeavesOthers(s, h, Judge(s.jobs.log[h.i], h.attempt, armed), reply, j);
      }
    }
  }

  lemma LateAckKeeps(s: State, h: Hand)
    requires Inv(s) && CanStep(s, LateAck(h))
    ensures Inv(Next(s, LateAck(h)))
  {
    var t := Next(s, LateAck(h));
    NextExtends(s, LateAck(h));
    assert HandSound(s, h);
    assert forall j | 0 <= j < |s.jobs.cells| && j != h.i :: t.jobs.cells[j] == s.jobs.cells[j];
    forall g | g in t.hands ensures HandSound(t, g) {
      assert HandSound(s, g);
    }
    forall j | 0 <= j < |t.jobs.cells| ensures PastRetried(t, j) {
      assert PastRetried(s, j);
      if Busy(s, j) {
        var g :| g in s.hands && g.i == j && g.stage.Processing?;
        assert g in t.hands;
      }
    }
  }

  lemma InvKept(s: State, step: Step)
    requires Inv(s) && Prompt(s) && !(step.Fetch? && step.batch)
    ensures Inv(Next(s, step))
  {
    if CanStep(s, step) {
      assert forall h | h in s.hands :: HandSound(s, h);
      match step
      case Fetch(i, _) => FetchKeeps(s, i);
      case Decide(h, armed, reply) => DecideKeeps(s, h, armed, reply);
      case LateAck(h) => LateAckKeeps(s, h);
      case BatchAck(h) =>
      case Heartbeat(h) =>
      case _ =>
        var t := Next(s, step);
        assert t.hands == s.hands && t.jobs.cells == s.jobs.cells && s.jobs.log <= t.jobs.log;
        forall g | g in t.hands ensures HandSound(t, g) { assert HandSound(s, g); }
        forall j | 0 <= j < |t.jobs.cells| ensures PastRetried(t, j) {
          assert PastRetried(s, j);
          assert Busy(s, j) ==> Busy(t, j);
        }
    }
  }

  lemma {:induction false} InvRun(s: State, steps: seq<Step>)
    requires Inv(s) && Prompt(s) && PromptRun(s, steps)
    ensures Inv(Run(s, steps)) && Prompt(Run(s, steps))
    decreases |steps|
  {
    if steps == [] {
    } else {
      InvKept(s, steps[0]);
      InvRun(Next(s, steps[0]), steps[1..]);
    }
  }

  /** The delivery bound: over every prompt run, no job is delivered more than max(2, m) times, nor more often than
      its settle attempt if no scenario struck it. */
  lemma DeliveryBound(steps: seq<Step>, i: nat)
    requires PromptRun(INITIAL, steps)
    requires i < |Run(INITIAL, steps).jobs.cells| && !Discarded(Run(INITIAL, steps).jobs.log[i])
    ensures var t := Run(INITIAL, steps);
            var job, n := t.jobs.log[i].body.value, t.jobs.cells[i].count;
            && n <= LastAttempt(job, true) <= Max(2, MaxAttempts(job))
            && (i !in t.faulted ==> n <= SettleAttempt(job))
  {
    InvRun(INITIAL, steps);
    var t := Run(INITIAL, steps);
    var job, n := t.jobs.log[i].body.value, t.jobs.cells[i].count;
    assert PastRetried(t, i);
    if n >= 2 {
      RetriesBelowSettleAttempt(job, n - 1);
      assert n >= 3 || i !in t.faulted ==> RetriesAt(t.jobs.log[i], n - 1);
    }
  }

  /** Recovery does not loop over whole runs either: a repaired job, back in JOBS, is delivered at most twice, once if
      no scenario strikes it, and whatever worker holds it never dead-letters it. */
  lemma RecoveredWithinTwo(steps: seq<Step>, i: nat, id: string, kind: string, p: Payload, stamp: string)
    requires PromptRun(INITIAL, steps)
    requires i < |Run(INITIAL, steps).jobs.cells| && Run(INITIAL, steps).jobs.log[i] == RepairedJob(id, kind, p, stamp)
    ensures var t := Run(INITIAL, steps);
            && t.jobs.cells[i].count <= (if i in t.faulted then 2 else 1)
            && forall h, armed | h in t.hands && h.i == i :: !Judge(t.jobs.log[i], h.attempt, armed).DeadLetter?
  {
    RepairDropsFailure(id, kind, p, stamp);
    DeliveryBound(steps, i);
    forall attempt: nat, armed ensures !Judge(RepairedJob(id, kind, p, stamp), attempt, armed).DeadLetter? {
      RepairedNeverFails(id, kind, p, stamp, attempt, armed);
    }
  }

  lemma SettlesInState(t: State, h: Hand)
    requires Inv(t) && h in t.hands && h.stage.Processing? && h.i < |t.jobs.log| && !Discarded(t.jobs.log[h.i])
    requires !Outcome(t.jobs.log[h.i].body.value, h.attempt).Retry?
    ensures var job := t.jobs.log[h.i].body.value;
            && h.attempt == LastAttempt(job, h.i in t.faulted)
            && (Outcome(job, h.attempt).DeadLetter? <==> Poison(job) && (h.i in t.faulted ==> !OneShot(job)))
  {
    var m := t.jobs.log[h.i];
    assert HandSound(t, h) && PastRetried(t, h.i);
    if h.attempt >= 2 && (h.attempt >= 3 || h.i !in t.faulted) {
      assert RetriesAt(m, h.attempt - 1);
    }
    SettlingAttempt(m.body.value, h.attempt, h.i in t.faulted);
  }

  /** The settling attempt, exactly: when after any prompt run a worker completes a job or dead-letters it, the
      attempt is the settle attempt and the outcome that of an undisturbed job; if a scenario struck the first
      delivery, the attempt is max(2, settle attempt) and only a one-shot job ends otherwise. */
  lemma SettlesExactly(steps: seq<Step>, h: Hand, armed: Scenario, reply: Reply)
    requires PromptRun(INITIAL, steps) && CanStep(Run(INITIAL, steps), Decide(h, armed, reply))
    requires var v := Judge(Run(INITIAL, steps).jobs.log[h.i], h.attempt, armed); v.Complete? || v.DeadLetter?
    ensures var t := Run(INITIAL, steps);
            var m, v := t.jobs.log[h.i], Judge(t.jobs.log[h.i], h.attempt, armed);
            && m.body.Some?
            && h.attempt == LastAttempt(m.body.value, h.i in t.faulted)
            && (v.DeadLetter? <==> Poison(m.body.value) && (h.i in t.faulted ==> !OneShot(m.body.value)))
  {
    InvRun(INITIAL, steps);
    var t := Run(INITIAL, steps);
    VerdictFacts(t.jobs.log[h.i], h.attempt, armed);
    SettlesInState(t, h);
  }
}
