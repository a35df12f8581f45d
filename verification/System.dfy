// The whole protocol as a step system: publishers, workers, the broker, the dead letter stream and
// ReprocessDLQ runs, interleaved in any order.

module System {
  import opened Options
  import opened Jobs
  import opened Worker
  import opened Broker
  import opened DeadLetters

  /** How far the worker holding a delivery has got. */
  datatype Stage = Processing | Slow | Batch

  /** One delivery in a worker's hands. */
  datatype Hand = Hand(i: nat, attempt: nat, pulledAt: nat, stage: Stage)

  /** A ReprocessDLQ request under way: the next sequence, the end of its snapshot, its filter, the ids it met. */
  datatype Replay = Replay(pos: nat, end: nat, filter: string, seen: set<string>)

  /** JOBS_DLQ's answer to a publish: stored, dropped because its Nats-Msg-Id was accepted before, or an error. */
  datatype Reply = Stored | Duplicate | Failed

  datatype State = State(
    now: nat,
    jobs: Consumer<Message>,
    hands: set<Hand>,
    letters: Entries, nextLetter: nat,
    accepted: set<(string, nat)>,   // job id and attempt of every dead letter ever stored: its Nats-Msg-Id
    replays: seq<Replay>,
    completed: set<string>, terminated: set<string>, // ids of jobs acknowledged as done, and terminated
    faulted: set<nat>,              // messages some scenario struck
    buried: set<nat>,               // messages some worker dead-lettered
    ended: set<nat>)                // messages some worker terminated

  datatype Step =
    | Publish(m: Message)                                  // stored in JOBS
    | Elapse(ms: nat)
    | Fetch(i: nat, batch: bool)                           // new, or again after its deadline or a Nak
    | Decide(h: Hand, armed: Scenario, reply: Reply)       // after one second of work; discards at once
    | LateAck(h: Hand)                                     // after eight
    | BatchAck(h: Hand)
    | Heartbeat(h: Hand)
    | StrayLetter(l: Letter)                               // anything else published on jobs.dlq
    | OpenReplay(filter: string)
    | VisitNext(r: nat, f: Faults, stamp: string)

  predicate CanStep(s: State, step: Step) {
    match step
    case Publish(_) => true
    case Elapse(_) => true
    case Fetch(i, _) => Deliverable(s.jobs, i, s.now)
    case Decide(h, armed, reply) =>
      && h in s.hands && h.stage.Processing? && h.i < |s.jobs.log|
      && (s.now >= h.pulledAt + 1000 || Discarded(s.jobs.log[h.i]))
      && (reply.Duplicate? ==> s.jobs.log[h.i].body.Some? && (s.jobs.log[h.i].body.value.id, h.attempt) in s.accepted)
    case LateAck(h) => h in s.hands && h.stage.Slow? && s.now >= h.pulledAt + 8000 && h.i < |s.jobs.log|
    case BatchAck(h) => h in s.hands && h.stage.Batch? && h.i < |s.jobs.log|
    case Heartbeat(h) => h in s.hands && h.stage.Batch?
    case StrayLetter(_) => true
    case OpenReplay(_) => true
    case VisitNext(r, _, _) => r < |s.replays| && s.replays[r].pos < s.replays[r].end
  }

  /** The same decision, expressed as a broker operation. */
  function BrokerOp(i: nat, v: Verdict, now: nat): Option<Op<Message>> {
    match v
    case Crash => None
    case SlowAck => None
    case FaultNak => Some(Postpone(i, now))
    case Retry(delay) => Some(Postpone(i, now + 1000 * delay))
    case _ => Some(Settle(i))
  }

  function Acknowledge(c: Consumer<Message>, op: Option<Op<Message>>): (d: Consumer<Message>)
    requires Valid(c)
    ensures Valid(d)
  {
    match op
    case None => c
    case Some(o) => ApplyKeeps(c, o); Apply(c, o)
  }

  function LetterFor(job: Job): Letter {
    Letter(job.id, job.kind, "Exhausted maximum delivery attempts", job.payload)
  }

  /** A delivery judged: the message's broker operation, the dead letter, and who remembers what. */
  function Decided(s: State, h: Hand, v: Verdict, reply: Reply): State
    requires Valid(s.jobs) && h.i < |s.jobs.log| && (v.DeadLetter? ==> s.jobs.log[h.i].body.Some?)
  {
    var m := s.jobs.log[h.i];
    var id := if m.body.Some? then m.body.value.id else "";
    var t := s.(jobs := Acknowledge(s.jobs, BrokerOp(h.i, v, s.now)),
                hands := s.hands - {h} + (if v.SlowAck? then {h.(stage := Slow)} else {}),
                faulted := if Fired(v) then s.faulted + {h.i} else s.faulted,
                buried := if v.DeadLetter? then s.buried + {h.i} else s.buried,
                ended := if v.Terminate? then s.ended + {h.i} else s.ended,
                completed := if v.Complete? then s.completed + {id} else s.completed,
                terminated := if v.Terminate? then s.terminated + {id} else s.terminated);
    if v.DeadLetter? && reply.Stored?
    then t.(letters := s.letters[s.nextLetter := LetterFor(m.body.value)], nextLetter := s.nextLetter + 1,
            accepted := s.accepted + {(id, h.attempt)})
    else t
  }

  function Acked(s: State, h: Hand): State
    requires Valid(s.jobs) && h.i < |s.jobs.log|
  {
    var m := s.jobs.log[h.i];
    s.(jobs := Acknowledge(s.jobs, Some(Settle(h.i))), hands := s.hands - {h},
       completed := if m.body.Some? then s.completed + {m.body.value.id} else s.completed)
  }

  /** One loop iteration of a ReprocessDLQ run. */
  function Visited(s: State, r: nat, f: Faults, stamp: string): State
    requires r < |s.replays|
  {
    var run := s.replays[r];
    var p := Visit(Pass(s.letters, [], [], run.seen), run.pos, run.filter, f, stamp);
    s.(letters := p.entries, jobs := s.jobs.(log := s.jobs.log + p.sent),
       replays := s.replays[r := run.(pos := run.pos + 1, seen := p.seen)])
  }

  function Next(s: State, step: Step): (t: State)
    requires Valid(s.jobs)
    ensures Valid(t.jobs)
  {
    if !CanStep(s, step) then s else
    match step
    case Publish(m) => s.(jobs := Acknowledge(s.jobs, Some(Store(m))))
    case Elapse(ms) => s.(now := s.now + ms)
    case Fetch(i, batch) =>
      s.(jobs := Acknowledge(s.jobs, Some(Deliver(i, s.now))),
         hands := s.hands + {Hand(i, if i < |s.jobs.cells| then s.jobs.cells[i].count + 1 else 1, s.now,
                                  if batch then Batch else Processing)})
    case Decide(h, armed, reply) => Decided(s, h, Judge(s.jobs.log[h.i], h.attempt, armed), reply)
    case LateAck(h) => Acked(s, h)
    case BatchAck(h) => Acked(s, h)
    case Heartbeat(h) => s.(jobs := Acknowledge(s.jobs, Some(Postpone(h.i, s.now + ACK_WAIT))))
    case StrayLetter(l) => s.(letters := s.letters[s.nextLetter := l], nextLetter := s.nextLetter + 1)
    case OpenReplay(filter) => s.(replays := s.replays + [Replay(0, s.nextLetter, filter, {})])
    case VisitNext(r, f, stamp) => Visited(s, r, f, stamp)
  }

  function Run(s: State, steps: seq<Step>): (t: State)
    requires Valid(s.jobs)
    ensures Valid(t.jobs)
    decreases |steps|
  {
    if steps == [] then s else Run(Next(s, steps[0]), steps[1..])
  }

  const INITIAL := State(0, Consumer([], [], 0), {}, map[], 1, {}, [], {}, {}, {}, {}, {})

  lemma NextExtends(s: State, step: Step)
    requires Valid(s.jobs)
    ensures Extends(s.jobs, Next(s, step).jobs)
  {
    if CanStep(s, step) {
      match step
      case Publish(m) => ApplyKeeps(s.jobs, Store(m));
      case Fetch(i, _) => ApplyKeeps(s.jobs, Deliver(i, s.now));
      case Decide(h, armed, _) =>
        var op := BrokerOp(h.i, Judge(s.jobs.log[h.i], h.attempt, armed), s.now);
        if op.Some? { ApplyKeeps(s.jobs, op.value); }
      case LateAck(h) => ApplyKeeps(s.jobs, Settle(h.i));
      case BatchAck(h) => ApplyKeeps(s.jobs, Settle(h.i));
      case Heartbeat(h) => ApplyKeeps(s.jobs, Postpone(h.i, s.now + ACK_WAIT));
      case _ =>
    }
  }

  lemma ExtendsTransitive(c: Consumer<Message>, d: Consumer<Message>, e: Consumer<Message>)
    requires Extends(c, d) && Extends(d, e)
    ensures Extends(c, e)
  {
  }

  /** At-least-once safety of the real workers: in every run of publishing, fetching, deciding, crashing, expiring,
      late and out-of-order acknowledging and replaying, AckFloor is the contiguous settled prefix, never passes
      Delivered, neither ever falls, and a settled message is never delivered or counted again. */
  lemma {:induction false} RunSafe(s: State, steps: seq<Step>)
    requires Valid(s.jobs)
    ensures var t := Run(s, steps);
            && Extends(s.jobs, t.jobs)
            && IsFloor(t.jobs.cells, t.jobs.floor) && t.jobs.floor <= |t.jobs.cells| <= |t.jobs.log|
    decreases |steps|
  {
    if steps == [] {
    } else {
      NextExtends(s, steps[0]);
      RunSafe(Next(s, steps[0]), steps[1..]);
      ExtendsTransitive(s.jobs, Next(s, steps[0]).jobs, Run(s, steps).jobs);
    }
  }
}
