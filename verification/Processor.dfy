// The processor's App: its worker pool and its message handler, updating their state in place.

module Processor {
  import opened Options
  import opened Jobs
  import opened Worker
  import opened Broker
  import OutOfOrder
  import DeadLetters
  import System
  import Pool

  /** The consumer as the handler sees it through a delivered message. */
  class JetStream {
    var c: Consumer<Message>
    var now: nat

    ghost predicate Valid()
      reads this
    {
      Broker.Valid(c)
    }

    constructor ()
      ensures Valid() && c == Consumer([], [], 0)
    {
      c, now := Consumer([], [], 0), 0;
    }

    method Ack(i: nat)
      requires Valid() && i < |c.cells|
      modifies this`c
      ensures Valid() && c == DoSettle(old(c), i)
    {
      ApplyKeeps(c, Settle(i));
      c := DoSettle(c, i);
    }

    method Term(i: nat)
      requires Valid() && i < |c.cells|
      modifies this`c
      ensures Valid() && c == DoSettle(old(c), i)
    {
      Ack(i);
    }

    method InProgress(i: nat)
      requires Valid() && i < |c.cells|
      modifies this`c
      ensures Valid() && c == DoPostpone(old(c), i, now + ACK_WAIT)
    {
      ApplyKeeps(c, Postpone(i, now + ACK_WAIT));
      c := DoPostpone(c, i, now + ACK_WAIT);
    }

    method NakWithDelay(i: nat, seconds: nat)
      requires Valid() && i < |c.cells|
      modifies this`c
      ensures Valid() && c == DoPostpone(old(c), i, now + 1000 * seconds)
    {
      ApplyKeeps(c, Postpone(i, now + 1000 * seconds));
      c := DoPostpone(c, i, now + 1000 * seconds);
    }
  }

  /** While the batch handler sleeps, everyone else sharing the consumer does `ops`. */
  method Sleep(js: JetStream, ms: nat, ops: seq<Op<Message>>)
    requires js.Valid()
    modifies js
    ensures js.Valid() && js.c == Exec(old(js.c), ops) && js.now == old(js.now) + ms
    ensures |js.c.cells| >= |old(js.c).cells|
  {
    ExecSafe(js.c, ops);
    js.c := Exec(js.c, ops);
    js.now := js.now + ms;
  }

  lemma WeaveStep(c: Consumer<Message>, b: OutOfOrder.Batch, gaps: seq<seq<Op<Message>>>, k: nat, d: Consumer<Message>)
    requires Broker.Valid(c) && 1 <= k <= 5 && |gaps| == 5 && d == OutOfOrder.Weave(c, b, gaps, k - 1)
    requires var op: Op<Message> := OutOfOrder.Own(b, k); Broker.Enabled(Exec(d, gaps[k - 1]), op)
    ensures OutOfOrder.Weave(c, b, gaps, k) ==
              match OutOfOrder.Own<Message>(b, k)
              case Settle(i) => DoSettle(Exec(d, gaps[k - 1]), i)
              case Postpone(i, at) => DoPostpone(Exec(d, gaps[k - 1]), i, at)
              case _ => c
  {
  }

  /** handleOutOfOrderBatch, started at b.start: Ack 1, Info, then the hole's goroutine (heartbeats at 4 s and 8 s,
      Ack 2 at 10 s) beside the Ack of message 3 at 1 s. `gaps` is what the other workers do in between. */
  method HandleOutOfOrderBatch(js: JetStream, msgs: seq<nat>, b: OutOfOrder.Batch, gaps: seq<seq<Op<Message>>>)
    requires js.Valid() && js.now == b.start && |gaps| == 5
    requires |msgs| == 3 ==>
               msgs == [b.s1, b.s2, b.s3] && b.s1 < |js.c.cells| && b.s2 < |js.c.cells| && b.s3 < |js.c.cells|
    modifies js
    ensures js.Valid()
    ensures js.c == if |msgs| == 3 then OutOfOrder.Weave(old(js.c), b, gaps, 5) else old(js.c)
    ensures |msgs| == 3 ==> js.now == OutOfOrder.At(b, 5)
  {
    if |msgs| != 3 { return; }
    AckFirstAndThird(js, b, gaps);
    HoldSecond(js, old(js.c), b, gaps);
  }

  /** The main thread. */
  method AckFirstAndThird(js: JetStream, b: OutOfOrder.Batch, gaps: seq<seq<Op<Message>>>)
    requires js.Valid() && js.now == b.start && |gaps| == 5
    requires b.s1 < |js.c.cells| && b.s2 < |js.c.cells| && b.s3 < |js.c.cells|
    modifies js
    ensures js.Valid() && |js.c.cells| >= |old(js.c).cells|
    ensures js.c == OutOfOrder.Weave(old(js.c), b, gaps, 2) && js.now == OutOfOrder.At(b, 2)
  {
    ghost var c := js.c;
    Sleep(js, 500, gaps[0]);
    WeaveStep(c, b, gaps, 1, c);
    js.Ack(b.s1);
    WeaveStep(c, b, gaps, 2, js.c) by { ExecSafe(js.c, gaps[1]); }
    Sleep(js, b.info + 1000, gaps[1]);
    js.Ack(b.s3);
  }

  /** Sleep, then send the k-th heartbeat for message 2. */
  method Beat(
    js: JetStream, ghost c: Consumer<Message>, b: OutOfOrder.Batch, gaps: seq<seq<Op<Message>>>, k: nat, ms: nat)
    requires js.Valid() && Broker.Valid(c) && |gaps| == 5 && b.s2 < |js.c.cells| && 3 <= k <= 4
    requires js.c == OutOfOrder.Weave(c, b, gaps, k - 1) && js.now + ms == OutOfOrder.At(b, k)
    modifies js
    ensures js.Valid() && js.c == OutOfOrder.Weave(c, b, gaps, k) && js.now == OutOfOrder.At(b, k)
    ensures |js.c.cells| >= |old(js.c).cells|
  {
    WeaveStep(c, b, gaps, k, js.c) by { ExecSafe(js.c, gaps[k - 1]); }
    Sleep(js, ms, gaps[k - 1]);
    js.InProgress(b.s2);
  }

  /** The goroutine holding message 2. */
  method HoldSecond(js: JetStream, ghost c: Consumer<Message>, b: OutOfOrder.Batch, gaps: seq<seq<Op<Message>>>)
    requires js.Valid() && Broker.Valid(c) && |gaps| == 5 && b.s2 < |js.c.cells|
    requires js.c == OutOfOrder.Weave(c, b, gaps, 2) && js.now == OutOfOrder.At(b, 2)
    modifies js
    ensures js.Valid() && js.c == OutOfOrder.Weave(c, b, gaps, 5) && js.now == OutOfOrder.At(b, 5)
  {
    Beat(js, c, b, gaps, 3, 3000);
    Beat(js, c, b, gaps, 4, 4000);
    WeaveStep(c, b, gaps, 5, js.c) by { ExecSafe(js.c, gaps[4]); }
    Sleep(js, 2000, gaps[4]);
    js.Ack(b.s2);
  }

  /** The consumer once a verdict about message i is carried out; before a slow Ack the others do `late`. */
  function CarriedOut(
    c: Consumer<Message>, i: nat, v: Verdict, late: seq<Op<Message>>, now: nat): (d: Consumer<Message>)
    requires Broker.Valid(c)
    ensures Broker.Valid(d)
  {
    if v.SlowAck? then System.Acknowledge(Exec(c, late), Some(Settle(i)))
    else System.Acknowledge(c, System.BrokerOp(i, v, now))
  }

  class App {
    // Worker pool. A context is known by its number; 0 stands for the empty crashedWorker.
    var workerCancels: seq<nat>
    var workers: int
    const ordered: bool
    var activeGoroutines: int
    var goroutineStatus: Pool.Status
    var crashedWorker: nat
    var nextContext: nat
    var processingEnabled: bool
    ghost var owner: map<nat, nat>
    ghost var live: set<nat>
    ghost var pending: seq<nat>

    // Failure lab.
    var activeScenario: Scenario
    var scenarioOnce: bool

    ghost function State(): Pool.State
      reads this
    {
      Pool.State(workerCancels, workers, ordered, activeGoroutines, goroutineStatus, crashedWorker,
                 owner, live, pending, nextContext)
    }

    constructor (ordered: bool)
      ensures Pool.Inv(State()) && workerCancels == [] && pending == []
      ensures activeScenario == Normal && scenarioOnce && processingEnabled && workers == 1
    {
      this.ordered := ordered;
      workerCancels, workers, activeGoroutines, goroutineStatus := [], 1, 1, Pool.Running;
      crashedWorker, nextContext := 0, 0;
      owner, live, pending := map[], {}, [];
      activeScenario, scenarioOnce, processingEnabled := Normal, true, true;
    }

    /** context.WithCancel, and the pull loop of worker w started under it. */
    method Launch(w: nat) returns (c: nat)
      modifies this`nextContext, this`owner, this`live
      ensures c == old(nextContext)
      ensures State() == Pool.Born(old(State()), w)
    {
      c := nextContext;
      nextContext := nextContext + 1;
      owner := owner[c := w];
      live := live + {c};
    }

    method Cancel(c: nat)
      modifies this`live
      ensures live == old(live) - {c}
    {
      live := live - {c};
    }

    /** Both launching loops: workers are appended until there are k. */
    method LaunchUpTo(k: nat)
      modifies this`workerCancels, this`nextContext, this`owner, this`live
      ensures State() == Pool.Grow(old(State()), k)
    {
      ghost var before := State();
      var i := |workerCancels| + 1;
      while i <= k
        invariant |workerCancels| == i - 1 && (i <= k + 1 || workerCancels == before.slots)
        invariant Pool.Grow(State(), k) == Pool.Grow(before, k)
      {
        var c := Launch(i);
        workerCancels := workerCancels + [c];
        i := i + 1;
      }
    }

    method ScaleDown(k: nat)
      requires k < |workerCancels|
      modifies this`workerCancels, this`live
      ensures State() == Pool.Shrink(old(State()), k)
    {
      var all := workerCancels;
      ghost var before := State();
      var i := |workerCancels| - 1;
      assert all[..i + 1] == all;
      while i >= k
        invariant k - 1 <= i < |all| && workerCancels == all
        invariant Pool.Shrink(State().(slots := all[..i + 1]), k) == Pool.Shrink(before, k)
      {
        assert all[..i + 1][..i] == all[..i];
        Cancel(workerCancels[i]);
        i := i - 1;
      }
      workerCancels := workerCancels[..k];
    }

    /** ScaleWorkers: add the missing workers at the end, or cancel the excess ones from the tail. */
    method ScaleWorkers(target: int)
      modifies this`workerCancels, this`workers, this`activeGoroutines, this`goroutineStatus, this`crashedWorker,
               this`nextContext, this`owner, this`live
      ensures State() == Pool.Next(old(State()), Pool.Scale(target))
    {
      var k: nat := if target <= 0 then 1 else if target > 5 then 5 else target;
      if ordered { k := 1; }
      Pool.ShrinkAny(State(), k);
      if k > |workerCancels| {
        LaunchUpTo(k);
      } else if k < |workerCancels| {
        ScaleDown(k);
      }
      workers := k;
      activeGoroutines := |workerCancels|;
      goroutineStatus := Pool.Running;
      crashedWorker := 0;
    }

    /** startWorkers: cancel everything, then launch the configured number afresh. */
    method StartWorkers()
      modifies this`workerCancels, this`activeGoroutines, this`goroutineStatus, this`crashedWorker,
               this`nextContext, this`owner, this`live
      ensures State() == Pool.Next(old(State()), Pool.Start)
    {
      CancelAll();
      var count: nat := if ordered || workers <= 0 then 1 else workers;
      Pool.GrowAny(State(), count);
      LaunchUpTo(count);
      activeGoroutines := count;
      goroutineStatus := Pool.Running;
      crashedWorker := 0;
    }

    method CancelAll()
      modifies this`workerCancels, this`live
      ensures State() == Pool.Shrink(old(State()), 0) && workerCancels == []
    {
      ghost var before := State();
      var i := 0;
      while i < |workerCancels|
        invariant i <= |workerCancels| && workerCancels == before.slots
        invariant live == before.live - (set j | 0 <= j < i :: before.slots[j])
      {
        Cancel(workerCancels[i]);
        i := i + 1;
      }
      ShrinkToNothing(before);
      workerCancels := [];
    }

    static lemma {:induction false} ShrinkToNothing(s: Pool.State)
      ensures Pool.Shrink(s, 0) == s.(slots := [], live := s.live - (set j | 0 <= j < |s.slots| :: s.slots[j]))
      decreases |s.slots|
    {
      if s.slots != [] {
        var n := |s.slots| - 1;
        var u := s.(live := s.live - {s.slots[n]}, slots := s.slots[..n]);
        ShrinkToNothing(u);
        assert (set j | 0 <= j < |s.slots| :: s.slots[j]) == (set j | 0 <= j < n :: u.slots[j]) + {s.slots[n]};
      } else {
        assert s.slots == [];
      }
    }

    /** The processor.state.set responder. */
    method SetProcessing(enabled: bool)
      modifies this`workerCancels, this`activeGoroutines, this`goroutineStatus, this`crashedWorker,
               this`nextContext, this`owner, this`live, this`processingEnabled
      ensures processingEnabled == enabled
      ensures State() == Pool.Next(old(State()), if enabled then Pool.Start else Pool.Off)
    {
      processingEnabled := enabled;
      if enabled {
        StartWorkers();
      } else {
        CancelAll();
      }
    }

    /** The supervisor's timer for worker w fires; it is the j-th pending one. */
    method Respawn(w: nat, ghost j: nat)
      requires j < |pending| && pending[j] == w
      modifies this`workerCancels, this`activeGoroutines, this`goroutineStatus, this`crashedWorker,
               this`nextContext, this`owner, this`live, this`pending
      ensures State() == Pool.Next(old(State()), Pool.Respawn(j))
    {
      pending := pending[..j] + pending[j + 1..];
      activeGoroutines := activeGoroutines + 1;
      var total := |workerCancels|;
      if activeGoroutines >= total {
        goroutineStatus := Pool.Running;
        crashedWorker := 0;
      }
      var c := Launch(w);
      if w >= 1 && w <= |workerCancels| {
        workerCancels := workerCancels[w - 1 := c];
      } else {
        workerCancels := workerCancels + [c];
      }
    }

    method Disarm()
      modifies this`activeScenario
      ensures activeScenario == if scenarioOnce then Normal else old(activeScenario)
    {
      if scenarioOnce { activeScenario := Normal; }
    }

    /** The overrides, in source order. */
    method ReadScenario(payload: Option<Payload>) returns (scenario: Scenario)
      ensures scenario == Effective(payload, activeScenario)
    {
      scenario := activeScenario;
      var named := Lookup(payload, "scenario");
      if named.Some? && named.value.Str? && named.value.s != "" { scenario := ScenarioNamed(named.value.s); }
      if Flag(payload, "simulate_crash") { scenario := CrashBeforeAck; }
      if Flag(payload, "simulate_no_ack") { scenario := CrashBeforeAck; }
      if Flag(payload, "simulate_nak") { scenario := NakMessage; }
      if Flag(payload, "simulate_term") { scenario := TermMessage; }
      if Flag(payload, "simulate_out_of_order") { scenario := OutOfOrderAck; }
    }

    method CrashGoroutine(w: nat, ghost c: nat)
      modifies this`activeGoroutines, this`crashedWorker, this`goroutineStatus, this`live, this`pending
      ensures State() == Pool.Crashing(old(State()), w, c)
    {
      if activeGoroutines > 0 { activeGoroutines := activeGoroutines - 1; }
      crashedWorker := w;
      goroutineStatus := if activeGoroutines > 0 then Pool.Degraded else Pool.Crashed;
      live := live - {c};
      pending := pending + [w];
    }

    /** The part of the handler after the scenarios: simulated failure, dead lettering, retry or completion. */
    method FinishJob(js: JetStream, dlq: DeadLetters.Streams, i: nat, attempt: nat, job: Job, stored: bool)
      requires js.Valid() && dlq.Valid() && i < |js.c.cells|
      modifies js`c, dlq`entries, dlq`last
      ensures js.Valid() && dlq.Valid()
      ensures js.c == System.Acknowledge(old(js.c), System.BrokerOp(i, Outcome(job, attempt), js.now))
      ensures dlq.entries == if Outcome(job, attempt).DeadLetter? && stored
                             then old(dlq.entries)[old(dlq.last) + 1 := System.LetterFor(job)]
                             else old(dlq.entries)
    {
      if Fails(job, attempt) {
        if attempt >= MaxAttempts(job) {
          dlq.Append(System.LetterFor(job), stored);
          js.Ack(i);
        } else {
          js.NakWithDelay(i, NakDelay(job));
        }
      } else {
        js.Ack(i);
      }
    }

    /** The scenarios, in source order; `handled` when one of them disposes of the delivery. A slow delivery takes
        seven seconds more, in which everyone else does `late`. */
    method RunScenario(
      js: JetStream, i: nat, attempt: nat, w: nat, ghost c: nat, scenario: Scenario, late: seq<Op<Message>>)
      returns (handled: bool, terminate: bool)
      requires js.Valid() && i < |js.c.cells|
      modifies this`activeScenario, this`activeGoroutines, this`crashedWorker, this`goroutineStatus, this`live,
               this`pending, js
      ensures js.Valid()
      ensures var v := Struck(scenario, attempt);
              && handled == v.Some? && terminate == (v == Some(Crash))
              && js.c == (if v.None? then old(js.c) else CarriedOut(old(js.c), i, v.value, late, js.now))
              && js.now == old(js.now) + (if v == Some(SlowAck) then 7000 else 0)
              && activeScenario == (if v.Some? && scenarioOnce then Normal else old(activeScenario))
              && State() == (if terminate then Pool.Crashing(old(State()), w, c) else old(State()))
    {
      handled, terminate := true, false;
      if scenario == CrashBeforeAck && attempt == 1 {
        Disarm();
        CrashGoroutine(w, c);
        terminate := true;
      } else if scenario == ExceedAckWait && attempt == 1 {
        Disarm();
        Sleep(js, 7000, late);
        js.Ack(i);
      } else if scenario == NakMessage && attempt == 1 {
        Disarm();
        js.NakWithDelay(i, 0);
      } else if scenario == TermMessage {
        Disarm();
        js.Term(i);
      } else {
        handled := false;
      }
    }

    /** handleJetStreamMsg for the delivery of message i to worker w running under context c. Everyone else sharing
        the consumer does `during` in its second of work and `late` in the seven further seconds of a slow delivery.
        `stored` tells whether JOBS_DLQ takes a dead letter. */
    method HandleJetStreamMsg(
      js: JetStream, dlq: DeadLetters.Streams, i: nat, attempt: nat, w: nat, ghost c: nat, stored: bool,
      during: seq<Op<Message>>, late: seq<Op<Message>>)
      returns (terminate: bool)
      requires js.Valid() && dlq.Valid() && i < |js.c.cells|
      modifies this`activeScenario, this`activeGoroutines, this`crashedWorker, this`goroutineStatus, this`live,
               this`pending, js, dlq`entries, dlq`last
      ensures js.Valid() && dlq.Valid()
      ensures var m := old(js.c.log[i]);
              var v := Judge(m, attempt, old(activeScenario));
              var worked := if v.Discard? then old(js.c) else Exec(old(js.c), during);
              && terminate == v.Crash?
              && js.c == CarriedOut(worked, i, v, late, js.now)
              && js.now == old(js.now) + (if v.Discard? then 0 else if v.SlowAck? then 8000 else 1000)
              && activeScenario == (if Fired(v) && scenarioOnce then Normal else old(activeScenario))
              && State() == (if v.Crash? then Pool.Crashing(old(State()), w, c) else old(State()))
              && dlq.entries == (if v.DeadLetter? && stored
                                 then old(dlq.entries)[old(dlq.last) + 1 := System.LetterFor(m.body.value)]
                                 else old(dlq.entries))
    {
      var m := js.c.log[i];
      terminate := false;
      var deliveryMode := if m.mode == "" then "CORE" else m.mode;
      if m.body.None? || deliveryMode == "CORE" || m.body.value.mode == "CORE" {
        js.Ack(i);
        return;
      }
      Sleep(js, 1000, during);
      terminate := JudgeJob(js, dlq, i, attempt, w, c, m.body.value, stored, late);
    }

    /** What follows the work on a job that is not discarded. */
    method JudgeJob(
      js: JetStream, dlq: DeadLetters.Streams, i: nat, attempt: nat, w: nat, ghost c: nat, job: Job, stored: bool,
      late: seq<Op<Message>>)
      returns (terminate: bool)
      requires js.Valid() && dlq.Valid() && i < |js.c.cells|
      modifies this`activeScenario, this`activeGoroutines, this`crashedWorker, this`goroutineStatus, this`live,
               this`pending, js, dlq`entries, dlq`last
      ensures js.Valid() && dlq.Valid()
      ensures var struck := Struck(Effective(job.payload, old(activeScenario)), attempt);
              var v := if struck.Some? then struck.value else Outcome(job, attempt);
              && terminate == v.Crash?
              && js.c == CarriedOut(old(js.c), i, v, late, js.now)
              && js.now == old(js.now) + (if v.SlowAck? then 7000 else 0)
              && activeScenario == (if Fired(v) && scenarioOnce then Normal else old(activeScenario))
              && State() == (if v.Crash? then Pool.Crashing(old(State()), w, c) else old(State()))
              && dlq.entries == (if v.DeadLetter? && stored
                                 then old(dlq.entries)[old(dlq.last) + 1 := System.LetterFor(job)]
                                 else old(dlq.entries))
    {
      var scenario := ReadScenario(job.payload);
      var handled;
      handled, terminate := RunScenario(js, i, attempt, w, c, scenario, late);
      if !handled {
        FinishJob(js, dlq, i, attempt, job, stored);
      }
    }
  }
}
