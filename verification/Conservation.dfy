// No job is lost between JOBS and JOBS_DLQ.

module Conservation {
  import opened Options
  import opened Jobs
  import opened Worker
  import opened Broker
  import opened DeadLetters
  import opened System

  /** A job of the JetStream engine: decodable, identified, not a CORE message. */
  predicate IsJob(m: Message) {
    !Discarded(m) && m.body.value.id != ""
  }

  /** A job that cannot fail any more, such as a repaired one. */
  predicate Tame(m: Message) {
    IsJob(m) && !Failing(m.body.value)
  }

  predicate Unsettled(c: Consumer<Message>, i: nat) {
    i < |c.log| && (i < |c.cells| ==> !c.cells[i].settled)
  }

  /** An unsettled message of this job in JOBS. */
  predicate Waiting(c: Consumer<Message>, id: string) {
    exists i | 0 <= i < |c.log| :: Unsettled(c, i) && IsJob(c.log[i]) && c.log[i].body.value.id == id
  }

  predicate WaitingTame(c: Consumer<Message>, id: string) {
    exists i | 0 <= i < |c.log| :: Unsettled(c, i) && Tame(c.log[i]) && c.log[i].body.value.id == id
  }

  predicate IsLetterOf(l: Letter, id: string) {
    l.Letter? && l.id == id != "" && l.payload.Some?
  }

  /** A replayable letter of this job at a sequence below the bound. */
  predicate HasLetter(letters: Entries, id: string, bound: nat) {
    exists q | q in letters :: q < bound && IsLetterOf(letters[q], id)
  }

  predicate Done(s: State, id: string) {
    id in s.completed || id in s.terminated
  }

  /** The job is unsettled in JOBS, completed, terminated, or in JOBS_DLQ where ReprocessDLQ can find it. */
  predicate Accounted(s: State, id: string) {
    Done(s, id) || Waiting(s.jobs, id) || HasLetter(s.letters, id, s.nextLetter)
  }

  predicate Recovered(s: State, id: string) {
    Done(s, id) || WaitingTame(s.jobs, id)
  }

  ghost predicate Inv(s: State) {
    && Valid(s.jobs)
    && (forall h | h in s.hands :: h.i < |s.jobs.cells|)
    && (forall q | q in s.letters :: q < s.nextLetter)
    && (forall r | 0 <= r < |s.replays| :: s.replays[r].end <= s.nextLetter)
    && (forall i | 0 <= i < |s.jobs.log| && IsJob(s.jobs.log[i]) :: Accounted(s, s.jobs.log[i].body.value.id))
    && (forall r, id | 0 <= r < |s.replays| && id in s.replays[r].seen ::
          Recovered(s, id) || HasLetter(s.letters, id, s.replays[r].pos))
    && (forall k | k in s.accepted && k.0 != "" :: Recovered(s, k.0) || HasLetter(s.letters, k.0, s.nextLetter))
  }

  /** The step does not meet a failed publish to JOBS_DLQ. */
  predicate Reliable(step: Step) {
    step.Decide? ==> !step.reply.Failed?
  }

  // How each kind of change carries the three notions over.

  /** Only a decision or an Ack about a message settles it. */
  lemma SettledBy(s: State, step: Step, i: nat)
    requires Inv(s) && CanStep(s, step) && Unsettled(s.jobs, i)
    ensures i < |Next(s, step).jobs.log| && Next(s, step).jobs.log[i] == s.jobs.log[i]
    ensures !Unsettled(Next(s, step).jobs, i) ==>
              || (step.LateAck? && step.h.i == i)
              || (step.BatchAck? && step.h.i == i)
              || (step.Decide? && step.h.i == i
                  && BrokerOp(i, Judge(s.jobs.log[i], step.h.attempt, step.armed), s.now) == Some(Settle(i)))
  {
    NextExtends(s, step);
  }

  /** What a settled job's verdict was, and what it entails. */
  lemma SettledJob(s: State, step: Step, i: nat)
    requires Inv(s) && CanStep(s, step) && Unsettled(s.jobs, i) && IsJob(s.jobs.log[i])
    requires !Unsettled(Next(s, step).jobs, i)
    ensures Done(Next(s, step), s.jobs.log[i].body.value.id)
         || (step.Decide? && step.h.i == i && Judge(s.jobs.log[i], step.h.attempt, step.armed).DeadLetter?
             && !Tame(s.jobs.log[i]))
  {
    SettledBy(s, step, i);
  }

  lemma RecoveredKept(s: State, step: Step, id: string)
    requires Inv(s) && CanStep(s, step) && Recovered(s, id)
    ensures Recovered(Next(s, step), id)
  {
    var t := Next(s, step);
    if Done(s, id) {
      assert Done(t, id);
    } else {
      var i :| 0 <= i < |s.jobs.log| && Unsettled(s.jobs, i) && Tame(s.jobs.log[i])
          && s.jobs.log[i].body.value.id == id;
      SettledBy(s, step, i);
      if !Unsettled(t.jobs, i) {
        SettledJob(s, step, i);
      }
    }
  }

  lemma LettersKept(s: State, step: Step, id: string, bound: nat)
    requires Inv(s) && CanStep(s, step) && !step.VisitNext? && HasLetter(s.letters, id, bound)
    ensures HasLetter(Next(s, step).letters, id, bound)
  {
    var q :| q in s.letters && q < bound && IsLetterOf(s.letters[q], id);
    var t := Next(s, step);
    assert q in t.letters && t.letters[q] == s.letters[q];
  }

  /** A run that meets a job's letter publishes it, or leaves an earlier one in place. */
  lemma VisitKeeps(s: State, r: nat, f: Faults, stamp: string, id: string, bound: nat)
    requires Inv(s) && CanStep(s, VisitNext(r, f, stamp))
    requires HasLetter(s.letters, id, bound)
    ensures var t := Next(s, VisitNext(r, f, stamp)); Recovered(t, id) || HasLetter(t.letters, id, bound)
  {
    var t := Next(s, VisitNext(r, f, stamp));
    var q :| q in s.letters && q < bound && IsLetterOf(s.letters[q], id);
    if q !in t.letters {
      var run := s.replays[r];
      var p := Visit(Pass(s.letters, [], [], run.seen), run.pos, run.filter, f, stamp);
      assert q == run.pos;
      if id in run.seen {
        if !Recovered(s, id) {
          assert HasLetter(s.letters, id, q);
          var q' :| q' in s.letters && q' < q && IsLetterOf(s.letters[q'], id);
          assert q' in t.letters && t.letters[q'] == s.letters[q'];
        } else {
          RecoveredKept(s, VisitNext(r, f, stamp), id);
        }
      } else {
        var l := s.letters[q];
        var m := RepairedJob(id, l.kind, l.payload.value, stamp);
        assert p.sent == [m];
        assert t.jobs.log == s.jobs.log + [m] && t.jobs.log[|s.jobs.log|] == m;
        RepairedIsTame(id, l.kind, l.payload.value, stamp);
        assert Unsettled(t.jobs, |s.jobs.log|);
      }
    }
  }

  lemma RepairedIsTame(id: string, kind: string, p: Payload, stamp: string)
    requires id != ""
    ensures Tame(RepairedJob(id, kind, p, stamp))
  {
  }

  lemma TraceKept(s: State, step: Step, id: string, bound: nat)
    requires Inv(s) && CanStep(s, step)
    requires Recovered(s, id) || HasLetter(s.letters, id, bound)
    ensures var t := Next(s, step); Recovered(t, id) || HasLetter(t.letters, id, bound)
  {
    if Recovered(s, id) {
      RecoveredKept(s, step, id);
    } else if step.VisitNext? {
      VisitKeeps(s, step.r, step.f, step.stamp, id, bound);
    } else {
      LettersKept(s, step, id, bound);
    }
  }

  lemma HasLetterMonotone(letters: Entries, id: string, b: nat, b': nat)
    requires HasLetter(letters, id, b) && b <= b'
    ensures HasLetter(letters, id, b')
  {
  }

  /** A dead-lettered job is in JOBS_DLQ, or was before and has been recovered since. */
  lemma DeadLetterAccounted(s: State, h: Hand, armed: Scenario, reply: Reply, id: string)
    requires Inv(s) && CanStep(s, Decide(h, armed, reply)) && !reply.Failed?
    requires IsJob(s.jobs.log[h.i]) && s.jobs.log[h.i].body.value.id == id
    requires Judge(s.jobs.log[h.i], h.attempt, armed).DeadLetter?
    ensures Accounted(Next(s, Decide(h, armed, reply)), id)
  {
    var step := Decide(h, armed, reply);
    var t := Next(s, step);
    if reply.Stored? {
      DeadLetterHasPayload(s.jobs.log[h.i], h.attempt, armed);
      assert IsLetterOf(t.letters[s.nextLetter], id);
    } else {
      assert (id, h.attempt) in s.accepted;
      TraceKept(s, step, id, s.nextLetter);
    }
  }

  lemma AccountedKept(s: State, step: Step, id: string)
    requires Inv(s) && CanStep(s, step) && Reliable(step) && Accounted(s, id)
    ensures Accounted(Next(s, step), id)
  {
    var t := Next(s, step);
    NextExtends(s, step);
    if Done(s, id) {
      assert Done(t, id);
    } else if HasLetter(s.letters, id, s.nextLetter) {
      TraceKept(s, step, id, s.nextLetter);
      if HasLetter(t.letters, id, s.nextLetter) {
        HasLetterMonotone(t.letters, id, s.nextLetter, t.nextLetter);
      }
    } else {
      var i :| 0 <= i < |s.jobs.log| && Unsettled(s.jobs, i) && IsJob(s.jobs.log[i])
          && s.jobs.log[i].body.value.id == id;
      SettledBy(s, step, i);
      if !Unsettled(t.jobs, i) {
        SettledJob(s, step, i);
        if !Done(t, id) {
          DeadLetterAccounted(s, step.h, step.armed, step.reply, id);
        }
      }
    }
  }

  /** What is new in the log is accounted for by being there. */
  lemma NewMessageAccounted(s: State, step: Step, i: nat)
    requires Inv(s) && CanStep(s, step)
    requires |s.jobs.log| <= i < |Next(s, step).jobs.log| && IsJob(Next(s, step).jobs.log[i])
    ensures Accounted(Next(s, step), Next(s, step).jobs.log[i].body.value.id)
  {
    assert Unsettled(Next(s, step).jobs, i);
  }

  lemma SeenKept(s: State, step: Step, r: nat, id: string)
    requires Inv(s) && CanStep(s, step)
    requires r < |Next(s, step).replays| && id in Next(s, step).replays[r].seen
    ensures var t := Next(s, step); Recovered(t, id) || HasLetter(t.letters, id, t.replays[r].pos)
  {
    var t := Next(s, step);
    if step.VisitNext? && step.r == r {
      var run := s.replays[r];
      if id in run.seen {
        TraceKept(s, step, id, run.pos);
        if HasLetter(t.letters, id, run.pos) { HasLetterMonotone(t.letters, id, run.pos, run.pos + 1); }
      } else {
        assert run.pos in s.letters && IsLetterOf(s.letters[run.pos], id);
        assert HasLetter(s.letters, id, run.pos + 1);
        TraceKept(s, step, id, run.pos + 1);
      }
    } else {
      assert r < |s.replays| && t.replays[r] == s.replays[r];
      TraceKept(s, step, id, s.replays[r].pos);
    }
  }

  lemma AcceptedKept(s: State, step: Step, k: (string, nat))
    requires Inv(s) && CanStep(s, step) && k in Next(s, step).accepted && k.0 != ""
    ensures var t := Next(s, step); Recovered(t, k.0) || HasLetter(t.letters, k.0, t.nextLetter)
  {
    var t := Next(s, step);
    if k in s.accepted {
      TraceKept(s, step, k.0, s.nextLetter);
      if HasLetter(t.letters, k.0, s.nextLetter) { HasLetterMonotone(t.letters, k.0, s.nextLetter, t.nextLetter); }
    } else {
      DeadLetterHasPayload(s.jobs.log[step.h.i], step.h.attempt, step.armed);
      assert s.nextLetter in t.letters && t.letters[s.nextLetter] == LetterFor(s.jobs.log[step.h.i].body.value);
    }
  }

  lemma FramesKept(s: State, step: Step)
    requires Inv(s)
    ensures var t := Next(s, step);
            && (forall h | h in t.hands :: h.i < |t.jobs.cells|)
            && (forall q | q in t.letters :: q < t.nextLetter)
            && (forall r | 0 <= r < |t.replays| :: t.replays[r].end <= t.nextLetter)
  {
    NextExtends(s, step);
  }

  lemma InvKept(s: State, step: Step)
    requires Inv(s) && Reliable(step)
    ensures Inv(Next(s, step))
  {
    var t := Next(s, step);
    FramesKept(s, step);
    if CanStep(s, step) {
      NextExtends(s, step);
      forall i | 0 <= i < |t.jobs.log| && IsJob(t.jobs.log[i]) ensures Accounted(t, t.jobs.log[i].body.value.id) {
        if i < |s.jobs.log| {
          assert t.jobs.log[i] == s.jobs.log[i];
          AccountedKept(s, step, s.jobs.log[i].body.value.id);
        } else {
          NewMessageAccounted(s, step, i);
        }
      }
      forall r, id | 0 <= r < |t.replays| && id in t.replays[r].seen
        ensures Recovered(t, id) || HasLetter(t.letters, id, t.replays[r].pos)
      {
        SeenKept(s, step, r, id);
      }
      forall k | k in t.accepted && k.0 != "" ensures Recovered(t, k.0) || HasLetter(t.letters, k.0, t.nextLetter) {
        AcceptedKept(s, step, k);
      }
    }
  }

  lemma {:induction false} InvRun(s: State, steps: seq<Step>)
    requires Inv(s) && forall k | 0 <= k < |steps| :: Reliable(steps[k])
    ensures Inv(Run(s, steps))
    decreases |steps|
  {
    if steps == [] {
    } else {
      InvKept(s, steps[0]);
      InvRun(Next(s, steps[0]), steps[1..]);
    }
  }

  /** Job conservation: in every run in which no publish to JOBS_DLQ fails, the id of every job ever stored in JOBS
      belongs to an unsettled message there, or to a completed or terminated job, or to a letter replayable from
      JOBS_DLQ. Where submissions share an id, one of them suffices. Any number of ReprocessDLQ runs may be under way,
      and their calls may fail at will. */
  lemma JobsConserved(steps: seq<Step>, i: nat)
    requires forall k | 0 <= k < |steps| :: Reliable(steps[k])
    requires i < |Run(INITIAL, steps).jobs.log| && IsJob(Run(INITIAL, steps).jobs.log[i])
    ensures Accounted(Run(INITIAL, steps), Run(INITIAL, steps).jobs.log[i].body.value.id)
  {
    InvRun(INITIAL, steps);
  }

  // The assumption on JOBS_DLQ is needed: the Ack follows a failed publish all the same.

  predicate AccountedElsewhere(s: State, i: nat, id: string) {
    || Done(s, id) || HasLetter(s.letters, id, s.nextLetter)
    || exists j | 0 <= j < |s.jobs.log| && j != i ::
        Unsettled(s.jobs, j) && IsJob(s.jobs.log[j]) && s.jobs.log[j].body.value.id == id
  }

  /** When the publish fails, the job survives exactly if something other than this message accounts for it. */
  lemma FailedDeadLetter(s: State, h: Hand, armed: Scenario, id: string)
    requires Inv(s) && CanStep(s, Decide(h, armed, Failed))
    requires IsJob(s.jobs.log[h.i]) && s.jobs.log[h.i].body.value.id == id
    requires Judge(s.jobs.log[h.i], h.attempt, armed).DeadLetter?
    ensures Accounted(Next(s, Decide(h, armed, Failed)), id) <==> AccountedElsewhere(s, h.i, id)
  {
  }

  // For a job submitted once the condition is a plain one.

  predicate IsOf(m: Message, id: string) {
    m.body.Some? && m.body.value.id == id
  }

  /** Some dead letter of this job was stored at some time. */
  predicate LetterStored(s: State, id: string) {
    exists k | k in s.accepted :: k.0 == id
  }

  /** Until a dead letter of it is stored, the job has one message at most and no letter. */
  predicate Alone(s: State, id: string) {
    LetterStored(s, id)
    || ((forall i, j | 0 <= i < j < |s.jobs.log| :: !(IsOf(s.jobs.log[i], id) && IsOf(s.jobs.log[j], id)))
        && forall q | q in s.letters :: !(s.letters[q].Letter? && s.letters[q].id == id))
  }

  predicate Submits(step: Step, id: string) {
    step.Publish? && IsOf(step.m, id)
  }

  /** From here on the job is submitted at most once, not at all if it was before, and no stray letter bears its id. */
  ghost predicate SubmittedOnce(s: State, steps: seq<Step>, id: string) {
    && (forall k | 0 <= k < |steps| && steps[k].StrayLetter? :: !(steps[k].l.Letter? && steps[k].l.id == id))
    && (forall j, k | 0 <= j < k < |steps| :: !(Submits(steps[j], id) && Submits(steps[k], id)))
    && (LetterStored(s, id)
        || forall k, i | 0 <= k < |steps| && 0 <= i < |s.jobs.log| ::
            !(Submits(steps[k], id) && IsOf(s.jobs.log[i], id)))
  }

  lemma StoredKept(s: State, step: Step, id: string)
    requires Valid(s.jobs) && LetterStored(s, id)
    ensures LetterStored(Next(s, step), id)
  {
  }

  /** As long as no letter of the job is stored, only a submission adds a message of it. */
  lemma OnlySubmissionsAdd(s: State, step: Step, id: string)
    requires Valid(s.jobs) && Alone(s, id) && !LetterStored(s, id) && !Submits(step, id)
    ensures forall i | |s.jobs.log| <= i < |Next(s, step).jobs.log| :: !IsOf(Next(s, step).jobs.log[i], id)
  {
  }

  lemma LettersStayAway(s: State, step: Step, id: string)
    requires Inv(s) && Alone(s, id) && !LetterStored(s, id) && !LetterStored(Next(s, step), id)
    requires step.StrayLetter? ==> !(step.l.Letter? && step.l.id == id)
    ensures forall q | q in Next(s, step).letters ::
              !(Next(s, step).letters[q].Letter? && Next(s, step).letters[q].id == id)
  {
  }

  lemma AloneKept(s: State, step: Step, id: string)
    requires Inv(s) && Alone(s, id) && SubmittedOnce(s, [step], id)
    ensures Alone(Next(s, step), id)
  {
    assert [step][0] == step;
    NextExtends(s, step);
    if LetterStored(s, id) {
      StoredKept(s, step, id);
    } else if !LetterStored(Next(s, step), id) {
      LettersStayAway(s, step, id);
      if !Submits(step, id) { OnlySubmissionsAdd(s, step, id); }
    }
  }

  lemma {:induction false} AloneRun(s: State, steps: seq<Step>, id: string)
    requires Inv(s) && (forall k | 0 <= k < |steps| :: Reliable(steps[k]))
    requires Alone(s, id) && SubmittedOnce(s, steps, id)
    ensures Alone(Run(s, steps), id)
    decreases |steps|
  {
    if steps == [] {
    } else {
      var t := Next(s, steps[0]);
      assert SubmittedOnce(s, [steps[0]], id);
      AloneKept(s, steps[0], id);
      NextExtends(s, steps[0]);
      InvKept(s, steps[0]);
      if LetterStored(s, id) {
        StoredKept(s, steps[0], id);
      } else if !Submits(steps[0], id) {
        OnlySubmissionsAdd(s, steps[0], id);
      }
      assert SubmittedOnce(t, steps[1..], id);
      AloneRun(t, steps[1..], id);
    }
  }

  /** The fate of a job whose message is dead-lettered, exactly: after any reliable run in which the job was submitted
      once, it is lost iff this publish fails, no earlier dead letter of it was stored, and no peer's Ack or Term, such
      as a late one, has finished it already. */
  lemma LostIff(steps: seq<Step>, h: Hand, armed: Scenario, reply: Reply, id: string)
    requires forall k | 0 <= k < |steps| :: Reliable(steps[k])
    requires SubmittedOnce(INITIAL, steps, id)
    requires var t := Run(INITIAL, steps);
             && CanStep(t, Decide(h, armed, reply)) && IsJob(t.jobs.log[h.i]) && IsOf(t.jobs.log[h.i], id)
             && Judge(t.jobs.log[h.i], h.attempt, armed).DeadLetter?
    ensures var t := Run(INITIAL, steps);
            !Accounted(Next(t, Decide(h, armed, reply)), id) <==> reply.Failed? && !LetterStored(t, id) && !Done(t, id)
  {
    InvRun(INITIAL, steps);
    AloneRun(INITIAL, steps, id);
    LostInState(Run(INITIAL, steps), h, armed, reply, id);
  }

  lemma LostInState(t: State, h: Hand, armed: Scenario, reply: Reply, id: string)
    requires Inv(t) && Alone(t, id) && CanStep(t, Decide(h, armed, reply))
    requires IsJob(t.jobs.log[h.i]) && IsOf(t.jobs.log[h.i], id) && Judge(t.jobs.log[h.i], h.attempt, armed).DeadLetter?
    ensures !Accounted(Next(t, Decide(h, armed, reply)), id) <==> reply.Failed? && !LetterStored(t, id) && !Done(t, id)
  {
    if !reply.Failed? {
      DeadLetterAccounted(t, h, armed, reply, id);
    } else {
      FailedDeadLetter(t, h, armed, id);
      ElsewhereIff(t, h.i, id);
    }
  }

  lemma ElsewhereIff(t: State, i: nat, id: string)
    requires Inv(t) && Alone(t, id) && i < |t.jobs.log| && IsJob(t.jobs.log[i]) && IsOf(t.jobs.log[i], id)
    requires !Tame(t.jobs.log[i])
    ensures AccountedElsewhere(t, i, id) <==> LetterStored(t, id) || Done(t, id)
  {
  }

  lemma FetchedFirst(m: Message)
    ensures var s := Run(INITIAL, [Publish(m), Fetch(0, false), Elapse(1000)]);
            && s == INITIAL.(now := 1000, jobs := Consumer([m], [Cell(1, ACK_WAIT, false)], 0),
                             hands := {Hand(0, 1, 0, Processing)})
  {
    var steps := [Publish(m), Fetch(0, false), Elapse(1000)];
    var s1 := Next(INITIAL, steps[0]);
    assert s1 == INITIAL.(jobs := Consumer([m], [], 0));
    var s2 := Next(s1, steps[1]);
    assert s2 == s1.(jobs := Consumer([m], [Cell(1, ACK_WAIT, false)], 0), hands := {Hand(0, 1, 0, Processing)});
    assert steps[1..] == [steps[1], steps[2]] && steps[1..][1..] == [steps[2]] && steps[1..][1..][1..] == [];
    assert Run(s2, [steps[2]]) == Run(Next(s2, steps[2]), []);
    assert Run(INITIAL, steps) == Run(s1, [steps[1], steps[2]]) == Run(s2, [steps[2]]);
  }

  /** So every job that is dead-lettered at its first delivery can be lost. */
  lemma FailedDeadLetterLosesJob(m: Message)
    requires IsJob(m) && Judge(m, 1, Normal).DeadLetter?
    ensures var s := Run(INITIAL, [Publish(m), Fetch(0, false), Elapse(1000)]);
            var decide := Decide(Hand(0, 1, 0, Processing), Normal, Failed);
            CanStep(s, decide) && Next(s, decide).jobs.log == [m] && Next(s, decide).jobs.floor == 1
            && !Accounted(Next(s, decide), m.body.value.id)
  {
    FetchedFirst(m);
    var s := INITIAL.(now := 1000, jobs := Consumer([m], [Cell(1, ACK_WAIT, false)], 0),
                      hands := {Hand(0, 1, 0, Processing)});
    var t := Next(s, Decide(Hand(0, 1, 0, Processing), Normal, Failed));
    assert t.jobs.cells == [Cell(1, ACK_WAIT, true)] && t.letters == map[];
    assert t.jobs == DoSettle(s.jobs, 0);
    assert Cascade(t.jobs.cells, 0) == 1;
  }
}
