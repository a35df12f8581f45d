# A verified model of the NATS job demo

The repository is a demonstration of job processing over NATS. A job service publishes jobs on
`jobs.submitted`; the JetStream stream JOBS stores them; a pool of pull workers executes them with explicit
acknowledgement, under an armed or payload-chosen failure scenario; a job that exhausts its attempts goes to the dead
letter stream JOBS_DLQ, from where a control handler repairs it and publishes it again. Beside this run a
round-robin Core NATS engine and two in-memory indexes for the user interface, the activity tracker and the subject
observer.

The project models these parts in Dafny and proves what the protocol as a whole keeps.

| module | what it is |
|---|---|
| `Strings`, `Jobs` | Go's string order, decimal printing and time stamps; decoded JSON payloads and the knobs read from them |
| `Broker` | the consumer contract the documentation states: delivery counts, AckWait deadlines, settled set, contiguous AckFloor |
| `Worker`, `Verdicts`, `Retry` | the decision about one delivered message; the same read off header, payload keys, armed scenario and attempt; the retry measure |
| `OutOfOrder` | the batch of three acknowledged 1, 3, 2 under heartbeats, woven with everyone else's operations |
| `DeadLetters` | JOBS_DLQ, its listing and the `ReprocessDLQ` sweep, with four kinds of call failure |
| `System`, `Conservation`, `Cycle`, `Delivery`, `Fates` | all of the above as one step system: publishers, workers, clock, crashes, late Acks, dead letters, concurrent sweeps; conservation, what letters and replays carry, delivery counts, and what becomes of every job |
| `Pool`, `Respawns`, `Processor`, `Arming` | the worker pool and its supervisor; reconfigurations and stray crashes that meet a respawn timer; the processor's `App` with its methods; the armed-once scenario |
| `Routing`, `Batches`, `Concurrency` | the two engines, round-robin, job ids, the job store, batches submitted at the same time |
| `Sorting`, `Tracker`, `Observer` | the two in-memory indexes |

Stream sequence number s is index s - 1 in `Broker`. All times are milliseconds. Classes (`Processor.App`,
`DeadLetters.Streams`, `Tracker.ActivityTracker`, `Observer.SubjectObserver`, ...) have the source's fields and methods;
each method is proved against a function over values, and the theorems are about those functions. Every read of the
clock, every broker reply and every scheduling choice is a parameter.

## Where the code does not do what it announces

Each of these is a lemma below, with the exact condition where there is one.

- A slow first delivery (eight seconds from pull to Ack) can complete a job that should have been dead-lettered. Whether
  it does depends on whether the job's last attempt was handed out before the late Ack, not on whether it was judged
  (`FateOfEveryJob`, both directions, over every run; `LastDeliveryDecides` shows both cases in concrete runs). With no
  Nak delay every poison job that needs six attempts or more is lost this way, reported complete
  (`LateAckLosesPoison`). A lost first delivery changes the outcome of one kind of job only: a single attempt and a
  single failure (`LostFirstDelivery`).
- When the publish to JOBS_DLQ fails, the job is acknowledged all the same. A job submitted once is then lost iff no
  earlier letter of it was stored and no peer has finished it (`LostIff`); a concrete run loses it
  (`FailedDeadLetterLosesJob`).
- `ReprocessDLQ` deletes letters that the listing shows but that have no payload, without republishing them
  (`ListedVersusReplayable`).
- Scaling or restarting while respawns are pending makes the goroutine counter run ahead of the configured workers from
  the first timer to the last (`ReconfiguredCountsTooMany`). Once all timers have gone off, in whatever order, the loops
  themselves are the right ones iff it was a scale that kept a slot for every worker about to come back; a restart leaks
  one loop per timer (`ReconfigureDuringRespawn`, `RestartLeaks`).
- Switching OFF while respawns are pending leaves as many live workers as there were timers. The pool's books are then in
  order iff every worker had crashed and they come back in name order (`OffDuringRespawn`).
- The crash of a worker, with no timer running, is repaired by its respawn iff the worker was one of the pool. One that a
  scale, a restart or OFF had cancelled, and that crashes over the job it still holds, leaves the pool inconsistent
  (`StrayCrash`).
- CRASHED means that no worker is alive only right after a crash (`CrashedMeansDeadIff`); every pool of two or more can
  show it with a survivor (`CrashedWithSurvivor`).
- The log lines "AckFloor advances to" message 1 and "cascades to" message 3 hold only if the neighbours allow it
  (`HolePinsFloor`). Message 2 is safe from redelivery iff batch-fill delay plus Info latency stay below half a second, whatever
  others do short of a Nak; if an earlier holder of it may still Nak, iff besides there is none (`HeartbeatBound`).
- Round-robin over 3 or 5 workers is unfair where the counter wraps (`WrapServesTwice`); job ids 2^64 draws apart
  collide (`IdsCollideIff`).
- The activity log is newest first iff no older event in it has a later time of day than a newer one
  (`ShownNewestFirstIff`); across midnight it is not (`MidnightReverses`).
- A message whose mode header contradicts its body (or is missing beside a JETSTREAM body) is executed by neither engine,
  one whose header names an unknown mode and whose body neither CORE nor JETSTREAM by both (`ExactlyOneEngine`).

## Model

| member | source | states |
|---|---|---|
| Broker.ApplyKeeps | docs/demo.md:121-124 | one broker operation keeps AckFloor the longest contiguous settled prefix, and takes back no log entry, watermark, delivery count or settlement |
| Broker.ExecSafe | frontend/src/content/natsInfo.ts:123-152 | the same over every interleaving of publish, delivery, expiry, Ack and Nak: AckFloor <= Delivered <= Last, none of them falls, a settled message is never delivered again |
| Broker.SettleIdempotent | docs/demo.md:121-124 | a late or second Ack changes nothing |
| Broker.SettleCommutes | docs/demo.md:121-124 | two Acks in either order leave the same settled set and the same floor |
| System.NextExtends | backend/services/cmd/processor-service/worker.go:502-931 | no step of publishers, workers or sweeps takes anything back from the consumer |
| System.RunSafe | backend/services/cmd/processor-service/worker.go:502-931 | at-least-once safety in every run of the real worker decisions, crashes, late and batch Acks and replays included |
| Verdicts.DiscardedIff | backend/services/cmd/processor-service/worker.go:504-522 | a message is acknowledged unexecuted iff its header is empty or CORE, its body is not JSON, or its body says CORE |
| Verdicts.VerdictByPayload | backend/services/cmd/processor-service/worker.go:599-806 | the verdict by the payload's highest-ranking key (out_of_order, term, nak, no_ack or crash, a scenario's name, else the armed scenario): ordinary outcome, Term at every attempt, or Nak, crash or slow Ack at the first attempt only |
| Verdicts.OutcomeByPayload | backend/services/cmd/processor-service/worker.go:808-907 | the ordinary outcome by the payload's keys: failure flag, failure count, allowed attempts (3 unless a number of at least 1), delay, numbers truncated toward zero |
| Verdicts.DecisionOnMessage | backend/services/cmd/processor-service/worker.go:502-931 | what a decision does to the message in the consumer: settled, due now, due after the delay in seconds, or left to its deadline; no other message changes |
| Verdicts.ReportedBy | backend/services/cmd/processor-service/worker.go:709-931 | a job is reported completed exactly by a decision to complete it or an Ack, slow or of a batch, and terminated exactly by a decision to |
| Verdicts.LetterWritten | backend/services/cmd/processor-service/worker.go:851-881 | a decision writes one letter of the job, with its id, type, payload and a reason, exactly when it dead-letters and JOBS_DLQ stores; a failed or deduplicated publish writes nothing |
| Verdicts.ActsWhen | backend/services/cmd/processor-service/worker.go:594-733 | a decision comes after a second of work, a discard at once, a slow Ack after eight seconds |
| Verdicts.FetchMeaning | backend/services/cmd/processor-service/worker.go:482-498 | what may be fetched, and that the message is counted, due in five seconds and in the worker's hands under that count |
| Verdicts.SignsOfLife | backend/services/cmd/processor-service/worker.go:1046-1057 | a heartbeat gives five more seconds; a late Ack or one of a batch settles; no other message changes |
| Retry.RetriesBelowSettleAttempt | backend/services/cmd/processor-service/worker.go:808-907 | an attempt is retried iff it is below the settle attempt (1, m or min(m, c+1)), and the settling attempt dead-letters iff the job is poison |
| Retry.ChainEndsAtSettleAttempt | backend/services/cmd/processor-service/worker.go:808-907 | from any attempt k the chain of redeliveries ends at max(k, settle attempt) |
| Retry.UndisturbedJob | backend/services/cmd/processor-service/worker.go:835-881 | a fault-free job settles exactly at its settle attempt, in the dead letter queue iff failing with c = 0 or c >= m |
| Retry.LostFirstDelivery | backend/services/cmd/processor-service/worker.go:625-706 | a crashed or Nak'ed first delivery costs at most max(2, m) deliveries and keeps the outcome iff not (failing, m = 1, c = 1) |
| Retry.SettlingAttempt | backend/services/cmd/processor-service/worker.go:808-907 | an attempt that settles after retried ones is the settle attempt, or max(2, it) after a fault |
| Delivery.InvKept | backend/services/cmd/processor-service/worker.go:486-498 | every step of a single-fetch run keeps: each delivery but the current one ended in a retry, except perhaps a struck first, and nobody else holds the message |
| Delivery.InvRun | backend/services/cmd/processor-service/worker.go:486-498 | the same over whole runs in which ordinary decisions beat AckWait |
| Delivery.DeliveryBound | backend/services/cmd/processor-service/worker.go:599-907 | in such a run no job is delivered more than max(2, m) times, nor more often than its settle attempt if no scenario struck it |
| Delivery.RecoveredWithinTwo | backend/control/api/http/control_handler.go:802-838 | in such a run a replayed job is delivered at most twice, once if no scenario strikes it, and no worker holding it dead-letters it |
| Delivery.SettlesExactly | backend/services/cmd/processor-service/worker.go:808-931 | whenever a worker completes or dead-letters a job, the attempt and the outcome are those of the closed form, one-shot jobs after a fault excepted |
| Fates.FatesKept | backend/services/cmd/processor-service/worker.go:709-907 | every step of a prompt run keeps: a message is dead-lettered iff its latest delivery, unstruck and out of all hands, exhausted the attempts; otherwise settled means discarded, terminated or reported complete |
| Fates.FatesRun | backend/services/cmd/processor-service/worker.go:709-907 | the same over whole runs |
| Fates.FateOfEveryJob | backend/services/cmd/processor-service/worker.go:709-907 | over every prompt run, a delivered job that nobody holds and nobody terminated was dead-lettered iff it is poison, not saved as a one-shot job by a fault, and its count has reached its last attempt; settled otherwise it is in the completed set |
| Fates.LateAckHidesPoison | backend/services/cmd/processor-service/worker.go:709-750 | while a late Ack is due, a dead-lettering attempt n is the last one and comes at least 6 s + (n - 2) rounds of one second plus the Nak delay after the slow pull |
| Fates.BoundIsMet | backend/services/cmd/processor-service/worker.go:709-750 | that bound is met with equality for every n and every delay, by a run |
| Fates.LateAckLosesPoison | backend/services/cmd/processor-service/worker.go:730-749 | a poison job whose last attempt cannot have come by the late Ack is settled, reported complete, and never dead-lettered in any continuation |
| Fates.LastDeliveryDecides | backend/services/cmd/processor-service/worker.go:730-750 | a late Ack at eight seconds meets the fifth delivery in a worker's hands: with five attempts the acknowledged job is dead-lettered all the same, with six it is lost |
| Fates.StubbornExists | backend/services/cmd/processor-service/worker.go:808-826 | there is such a job for every number of attempts |
| Fates.PacedRun | backend/services/cmd/processor-service/worker.go:709-750 | after a slow delivery pulled at p, the n-th delivery is pulled no earlier than p + AckWait + n - 2 rounds of one second plus the Nak delay |
| Worker.DeadLetterHasPayload | backend/services/cmd/processor-service/worker.go:835-861 | every dead letter the worker writes has a payload, so it is listed and replayable |
| Worker.RepairKeepsScenario | backend/control/api/http/control_handler.go:802-812 | repair leaves the scenario a payload demands alone |
| Worker.RepairDropsFailure | backend/control/api/http/control_handler.go:802-819 | a repaired job is a JETSTREAM job that does not simulate failure |
| Worker.RepairedNeverFails | backend/services/cmd/processor-service/worker.go:808-881 | at any attempt under any scenario a repaired job is neither retried, dead-lettered nor discarded |
| Worker.RecoveryCompletes | backend/control/api/http/control_handler.go:802-838 | a dead-lettered job, repaired and replayed with no scenario armed, completes at its first delivery or, after one fault of its payload, at every later one |
| Worker.RepairReplays | backend/control/api/http/control_handler.go:802-819 | key by key: a repaired job has the letter's id and type, mode JETSTREAM, every unreserved key with its value, no failure key, and the two marks |
| Cycle.LettersCarryTheJob | backend/services/cmd/processor-service/worker.go:852-861 | over every run, every letter of a submitted job has its id, type, whole payload and a reason, and every other message of it in JOBS agrees with the submission on all but the four reserved keys |
| Cycle.KeptRun | backend/control/api/http/control_handler.go:774-858 | that is kept by every run, through any number of dead letters, failed publishes and concurrent sweeps |
| Cycle.VisitReplays | backend/control/api/http/control_handler.go:802-838 | what a sweep adds to JOBS when it visits a letter is a replay of that letter, stamped with the time of the visit |
| Cycle.UndisturbedSweep | backend/control/api/http/control_handler.go:774-858 | the system's single visits of a request add up to the handler's sweep, from the first letter to the last |
| Cycle.RecoveryFromLetter | backend/control/api/http/control_handler.go:802-838 | over every run: the message a sweep sends for a stored letter completes under no armed scenario at its first delivery, or at every later one after one fault its payload demands |
| Conservation.SettledBy | backend/services/cmd/processor-service/worker.go:502-931 | only a decision or Ack about a message settles it |
| Conservation.SettledJob | backend/services/cmd/processor-service/worker.go:780-931 | a job is settled only by completing, terminating, or dead-lettering while it still simulates failure |
| Conservation.RecoveredKept | backend/services/cmd/processor-service/worker.go:780-931 | a job once replayed in repaired form stays waiting, completed or terminated |
| Conservation.VisitKeeps | backend/control/api/http/control_handler.go:774-858 | a sweep that removes a job's letter has published the job or left an earlier letter, whatever calls fail and whatever other sweeps do |
| Conservation.DeadLetterAccounted | backend/services/cmd/processor-service/worker.go:840-881 | a dead-lettered job is in JOBS_DLQ, or was stored there before under the same message id and has been recovered since |
| Conservation.AccountedKept | backend/services/cmd/processor-service/worker.go:502-931 | no step without a failed JOBS_DLQ publish loses a job |
| Conservation.InvKept | backend/control/api/http/control_handler.go:774-858 | the conservation invariant, which ties each concurrent sweep's seen set to the letters before its position, is inductive |
| Conservation.InvRun | backend/control/api/http/control_handler.go:774-858 | the same over whole runs |
| Conservation.JobsConserved | backend/services/cmd/processor-service/worker.go:840-881 | in every run, every job id ever stored in JOBS is unsettled there, completed, terminated, or replayable from JOBS_DLQ; of jobs that share an id one suffices |
| Conservation.FailedDeadLetter | backend/services/cmd/processor-service/worker.go:866-881 | when the JOBS_DLQ publish fails the job survives iff something other than this message accounts for it |
| Conservation.AloneRun | backend/services/cmd/processor-service/worker.go:840-881 | until a letter of it is stored, a job submitted once keeps a single message and no letter, over every run |
| Conservation.LostIff | backend/services/cmd/processor-service/worker.go:866-881 | a dead-lettered job submitted once is lost iff the publish fails, no earlier letter of it was stored and no peer's Ack or Term has finished it |
| Conservation.FailedDeadLetterLosesJob | backend/services/cmd/processor-service/worker.go:866-881 | any job dead-lettered at its first delivery is lost by a concrete run with one failed publish |
| DeadLetters.SweepEntries | backend/control/api/http/control_handler.go:774-858 | what stays in JOBS_DLQ after the sweep and which ids it met, without a loop |
| DeadLetters.SweepJobs | backend/control/api/http/control_handler.go:774-858 | what is sent and reported, in stream order |
| DeadLetters.SweepMeaning | backend/control/api/http/control_handler.go:772-858 | the sweep refines its declarative reading under arbitrary read, marshal, publish and delete failures |
| DeadLetters.SentCarriesLetter | backend/control/api/http/control_handler.go:802-838 | the i-th message sent replays the i-th sent letter key by key, with that letter's stamp |
| DeadLetters.EntryFate | backend/control/api/http/control_handler.go:775-841 | each entry's fate in plain terms: left alone, deleted unsent, sent and deleted, kept because the sending failed, or deleted as a later one of its job |
| DeadLetters.SentSeqs | backend/control/api/http/control_handler.go:795-857 | the republished letters are, in ascending order, exactly the first replayable ones of their jobs whose sending works |
| DeadLetters.EachJobOnce | backend/control/api/http/control_handler.go:795-800 | each job id is published at most once per run |
| DeadLetters.NothingLost | backend/control/api/http/control_handler.go:795-841 | every replayable job is published or still has a replayable letter no later than the one looked at |
| DeadLetters.OthersUntouched | backend/control/api/http/control_handler.go:775-787 | unreadable, unparsable and non-matching entries stay, and no entry is invented or altered |
| DeadLetters.ReportedMeansSent | backend/control/api/http/control_handler.go:827-857 | an id is in the reported list iff one of its letters was sent |
| DeadLetters.ReplayedAgainIff | backend/control/api/http/control_handler.go:772-858 | a job reported by one run is sent again by a following faultless run iff the first could not read or could not delete one of its letters |
| DeadLetters.NoDoubleReplay | backend/control/api/http/control_handler.go:772-858 | if it left none behind, the job is not sent again whatever fails in the second run |
| DeadLetters.SecondRunIdle | backend/control/api/http/control_handler.go:772-858 | after a run without failures a second one does nothing |
| DeadLetters.ListedVersusReplayable | backend/control/api/http/control_handler.go:715-729 | everything replayable is listed; of what is listed exactly the letters without payload are not replayable, and a run deletes them |
| DeadLetters.Streams.RepairPayload | backend/control/api/http/control_handler.go:802-812 | the loop over the payload's keys, in any order, yields the repaired payload |
| DeadLetters.Streams.ReprocessEntry | backend/control/api/http/control_handler.go:775-857 | one iteration changes both streams, the reported list and the seen set as the specification's step does |
| DeadLetters.Streams.ReprocessRange | backend/control/api/http/control_handler.go:772-858 | the loop over the stored range is the sweep, with one REPROCESSED event per reported id |
| DeadLetters.Streams.ReprocessDLQ | backend/control/api/http/control_handler.go:741-858 | the whole run is the sweep, each letter stamped with its own time, one REPROCESSED event per reported id; early return on the empty stream |
| DeadLetters.Streams.GetDLQMessages | backend/control/api/http/control_handler.go:687-733 | the listing holds exactly the readable entries with an id and a payload or a reason, in ascending order |
| OutOfOrder.GapKeeps | backend/services/cmd/processor-service/worker.go:1020-1058 | between two calls of the handler, a message of the batch that is settled or due later is not handed out, whatever others store, fetch, acknowledge or heartbeat |
| OutOfOrder.BatchHeld | backend/services/cmd/processor-service/worker.go:1018-1062 | after each of the five calls a message of the batch has been handed out no more often, is settled if its Ack came, and is due late enough otherwise; exactly as the handler arranged it if others left it alone; for message 2 if fill delay plus Info latency < 500 ms |
| OutOfOrder.FirstAndThirdInTime | backend/services/cmd/processor-service/worker.go:1018-1084 | messages 1 and 3 are settled before anyone gets them again, for every fill delay and latency |
| OutOfOrder.HeartbeatTooLate | backend/services/cmd/processor-service/worker.go:1046-1054 | at 500 ms or more a peer's fetch takes message 2 before the first heartbeat |
| OutOfOrder.EarlierHolderNaks | backend/services/cmd/processor-service/worker.go:1046-1054 | if an earlier holder may still Nak, its Nak and a fetch take message 2 in spite of the heartbeats |
| OutOfOrder.HeartbeatBound | backend/services/cmd/processor-service/worker.go:1033-1054 | message 2 is never redelivered iff fill delay plus Info latency < 500 ms; if earlier holders may Nak, iff besides there is none |
| OutOfOrder.WeaveSettles | backend/services/cmd/processor-service/worker.go:1020-1078 | whatever others do, a message of the batch is settled iff the handler's own Ack of it has come or somebody else acknowledged it |
| OutOfOrder.HolePinsFloor | backend/services/cmd/processor-service/worker.go:1074-1084 | for every batch, in any sequence order, amid any activity: the floor stays below message 2 until somebody acknowledges it; in the end all three are settled, the floor passes the highest of them iff everything before it is settled, and rests right after it iff also its successor is not |
| OutOfOrder.AdjacentBatch | backend/services/cmd/processor-service/worker.go:974-978 | three adjacent messages above the floor, amid any activity: the floor reads s1 from the first to the fourth call iff nobody else acknowledged message 2, then at least s3, and exactly s3 iff its successor is not settled |
| OutOfOrder.HeldTenSeconds | backend/services/cmd/processor-service/worker.go:1020-1075 | message 1 is acknowledged after half a second, and after Info message 3 after one second and message 2 after ten, its heartbeats closer than AckWait |
| Processor.JetStream.Ack | backend/services/cmd/processor-service/worker.go:917-924 | settles the message in the consumer and keeps it valid |
| Processor.JetStream.NakWithDelay | backend/services/cmd/processor-service/worker.go:893-904 | makes the message deliverable again after the delay |
| Processor.JetStream.InProgress | backend/services/cmd/processor-service/worker.go:1050-1052 | restarts the message's AckWait |
| Processor.HandleOutOfOrderBatch | backend/services/cmd/processor-service/worker.go:979-1097 | the handler is the weave of its five broker calls with the others' operations at their times; any other batch size is ignored |
| Processor.App.ReadScenario | backend/services/cmd/processor-service/worker.go:599-622 | the armed scenario, overridden by the payload's keys, the last override winning |
| Processor.App.RunScenario | backend/services/cmd/processor-service/worker.go:624-806 | which scenarios dispose of which attempts, what each does to broker, clock and pool, others acting during the slow seven seconds, and that it disarms itself in once mode |
| Processor.App.FinishJob | backend/services/cmd/processor-service/worker.go:808-930 | dead letter and Ack, Nak with or without delay, or Ack |
| Processor.App.JudgeJob | backend/services/cmd/processor-service/worker.go:598-931 | scenario if one strikes, else the ordinary outcome, with its whole effect |
| Processor.App.HandleJetStreamMsg | backend/services/cmd/processor-service/worker.go:504-931 | with others acting during the second of work and the slow seven, the handler takes exactly the verdict's effect on consumer, clock, JOBS_DLQ, armed scenario and pool, discards at once, and terminates its loop iff it crashes |
| Processor.App.CrashGoroutine | backend/services/cmd/processor-service/worker.go:632-647 | the crash branch is the pool's crash step |
| Processor.App.Respawn | backend/services/cmd/processor-service/worker.go:678-702 | the supervisor's timer is the pool's respawn step, into the worker's slot or appended |
| Processor.App.ScaleWorkers | backend/services/cmd/processor-service/worker.go:326-377 | the two loops are the pool's scale step |
| Processor.App.StartWorkers | backend/services/cmd/processor-service/worker.go:380-413 | cancelling and relaunching is the pool's start step |
| Processor.App.SetProcessing | backend/services/cmd/processor-service/control.go:52-75 | ON is a start step, OFF cancels everything and leaves the counters |
| Processor.App.constructor | backend/services/cmd/processor-service/worker.go:379-413 | an App before its first start satisfies the pool invariant |
| Pool.Clamp | backend/services/cmd/processor-service/worker.go:327-331 | a target becomes the nearest worker count from 1 to 5 |
| Pool.ScaleMeaning | backend/services/cmd/processor-service/worker.go:326-377 | with no respawn pending a scale keeps the common prefix of workers, launches new ones only above it, and slots, configured workers, counter and live contexts agree at the clamped target |
| Pool.ScaleCount | backend/services/cmd/processor-service/worker.go:326-377 | a scale to 1 to 5 leaves exactly that many slots, configured, displayed and live workers, to less one, to more five; an ordered pool always one |
| Pool.StartMeaning | backend/services/cmd/processor-service/worker.go:380-413 | with no respawn pending a start replaces every worker by a new one and leaves the pool consistent |
| Pool.CrashKeeps | backend/services/cmd/processor-service/worker.go:632-647 | a crash of a live worker keeps slots, ownership and the agreement of counter, status and crashed worker |
| Pool.RespawnKeeps | backend/services/cmd/processor-service/worker.go:678-702 | so does a respawn, in any order |
| Pool.InvKept | backend/services/cmd/processor-service/worker.go:326-413 | every orderly step keeps the pool invariant |
| Pool.CrashRespawnConserves | backend/services/cmd/processor-service/worker.go:632-702 | over any run of crashes and respawns a pool of n keeps n slots, the counter is the number of live workers and n less the pending respawns, slot i holds processor-(i+1)'s current incarnation, RUNNING iff all live iff no crashed worker, 0 live implies CRASHED, DEGRADED implies 0 < live < n |
| Pool.ReconfigurationLeaksNothing | backend/services/cmd/processor-service/control.go:52-75 | over any orderly run of scale, start, ON/OFF, crash and respawn, with none pending, the live contexts are exactly those in the slots, named 1..k |
| Pool.KeptIffTargetsReach | backend/services/cmd/processor-service/worker.go:346-366 | across scalings worker i keeps its original incarnation iff every clamped target was at least i |
| Pool.KeptIffNoTargetBelow | backend/services/cmd/processor-service/worker.go:346-366 | on the targets themselves: worker i + 1 > 1 of an unordered pool survives a run of scalings iff it is at most the fifth and no target is below it; the first always does |
| Pool.GoneForGood | backend/services/cmd/processor-service/worker.go:346-366 | a cancelled context never returns to a slot |
| Pool.CrashedMeansDeadIff | backend/services/cmd/processor-service/worker.go:641-689 | after any run of crashes and respawns a pool that shows CRASHED has nobody alive iff the last step was a crash |
| Pool.CrashShown | backend/services/cmd/processor-service/worker.go:640-689 | the crashed worker on display is the one that crashed last, until all are back |
| Pool.CrashedWithSurvivor | backend/services/cmd/processor-service/worker.go:683-689 | in every pool of n >= 2, n crashes and one respawn show CRASHED with one alive |
| Respawns.FireCounts | backend/services/cmd/processor-service/worker.go:678-702 | any run of timers counts each worker up, starts one loop each and removes no slot |
| Respawns.ReconfiguredCountsTooMany | backend/services/cmd/processor-service/worker.go:683-696 | after a scale or start inside a respawn window and any non-empty run of timers the counter exceeds the configured workers by the timers fired |
| Respawns.ReconfigureDuringRespawn | backend/services/cmd/processor-service/worker.go:683-696 | once all timers have fired, in any order, the live loops are exactly the slots, named 1..k, iff it was a scale and no waiting worker's name exceeds its target; the counter is too high in every case |
| Respawns.RestartLeaks | backend/services/cmd/processor-service/worker.go:683-696 | after a start and all timers there are as many live loops without a slot as timers |
| Respawns.OffThenStart | backend/services/cmd/processor-service/control.go:52-75 | OFF and then ON is a start, with timers pending or not |
| Respawns.FromNothing | backend/services/cmd/processor-service/worker.go:690-696 | timers that fire into an empty pool leave it tidy iff there is one for every configured worker and they fire in name order |
| Respawns.OffDuringRespawn | backend/services/cmd/processor-service/control.go:66-75 | after OFF inside a respawn window and all timers, in any order, as many workers live as timers were pending, and the pool is consistent iff all workers had crashed and the timers fire in name order |
| Respawns.StrayCrash | backend/services/cmd/processor-service/worker.go:683-696 | with no timer running, a crash and its respawn leave the pool consistent iff the crashed worker was live in it |
| Respawns.RetiredWorkerCrash | backend/services/cmd/processor-service/worker.go:683-696 | in particular a worker retired by a scale-down that crashes afterwards makes the pool inconsistent |
| Respawns.NeverNegative | backend/services/cmd/processor-service/worker.go:632-635 | over any run, however disorderly, the goroutine counter stays at or above zero |
| Arming.InvRun | backend/services/cmd/processor-service/worker.go:434-462 | whoever has struck is a worker of the pool, has struck once, and the scenario is disarmed |
| Arming.StrikesAtMostOncePerWorker | backend/services/cmd/processor-service/worker.go:599-602 | under any interleaving of unlocked reads and later disarms a once-scenario strikes at most w times, no worker twice |
| Arming.EveryWorkerCanStrike | backend/services/cmd/processor-service/worker.go:626-630 | w strikes do happen when everyone reads before anyone disarms |
| Routing.SetCustom | backend/services/internal/messaging/publisher.go:80-85 | custom headers win over the base headers, the empty key is skipped, the order of the loop does not matter |
| Routing.BuildMessage | backend/services/internal/messaging/publisher.go:36-87 | subject, headers and body of the published message |
| Routing.AcceptMeaning | backend/services/internal/jobs/service.go:34-43 | a job without an id is refused; an empty type becomes generic-message, an empty mode JETSTREAM, and nothing else changes |
| Routing.HeaderMeaning | backend/services/internal/messaging/publisher.go:36-87 | subject and every header of the published message: the caller's own, else the publisher's five with their defaults, else absent |
| Routing.ExactlyOneEngine | backend/services/internal/messaging/consumer.go:41-48 | for all header and body strings, exactly when one engine and only one executes a stored message |
| Routing.OtherSubjects | backend/services/internal/messaging/consumer.go:33-34 | a message on another subject is executed by neither engine |
| Routing.SubmittedJobRoutes | backend/services/internal/jobs/service.go:34-57 | an accepted ordinary job is executed by the Core engine iff its mode is CORE, else by the JetStream engine iff stored |
| Routing.EveryJobExecutedOnce | backend/services/internal/messaging/publisher.go:53-122 | over any sequence of submissions, accepted, deduplicated or refused by the broker, the Core engine executes the CORE jobs not refused and the JetStream engine the others that were stored, each once |
| Routing.Assigned | backend/services/cmd/processor-service/worker.go:42-46 | the index lies in 1..n for the n read at that message |
| Routing.NextWorker | backend/services/cmd/processor-service/worker.go:45-46 | the first message goes to worker 1, each next one to the next worker, after the last to worker 1 |
| Routing.CoreHandler.Handle | backend/services/cmd/processor-service/worker.go:26-148 | JETSTREAM jobs are ignored; others advance the wrapping counter, count the job's attempts and fail as simulated |
| Routing.FairUntilWrap | backend/services/cmd/processor-service/worker.go:38-46 | any k consecutive messages give each worker floor(k/n) or ceil(k/n) while the counter does not wrap |
| Routing.FairAcrossWrap | backend/services/cmd/processor-service/worker.go:45-46 | fair for every window iff n divides 2^64 |
| Routing.WrapServesTwice | backend/services/cmd/processor-service/worker.go:45-46 | otherwise a concrete window around the wrap is unfair |
| Strings.DecimalInjective | backend/services/internal/jobs/service.go:166-166 | decimal printing is injective |
| Strings.DecimalReads | backend/services/internal/jobs/service.go:166-166 | the printed digits, without leading zero, are read back as the number |
| Batches.TraceAt | backend/services/internal/jobs/service.go:164-166 | the i-th of any interleaved draws prints the counter plus i + 1, modulo 2^64 |
| Batches.JobIdInjective | backend/services/internal/jobs/service.go:206-207 | ids agree iff kind and number do |
| Batches.IdsCollideIff | backend/services/internal/jobs/service.go:150-207 | across any interleaving of concurrent batches two ids agree iff they are of one kind and a multiple of 2^64 draws apart |
| Batches.IdsDistinct | backend/services/internal/jobs/service.go:150-207 | the ids of any 2^64 draws are distinct |
| Batches.NumbersGrowIff | backend/services/internal/jobs/service.go:164-166 | the printed numbers increase from draw to draw, within each batch and across batches, iff none of them wraps |
| Batches.HistoryIsTheStatuses | backend/services/internal/jobs/store.go:22-48 | after any additions a history is the old one plus exactly that job's statuses in order, the status is its last item, type and mode never change |
| Batches.RecordOfNew | backend/services/internal/jobs/store.go:22-48 | a new job's record has the type and mode it was first added with, and the trace and status last given |
| Batches.BatchGainsPrefix | backend/services/internal/jobs/service.go:178-183 | a batch cut short leaves exactly its published prefix in the store, each job with one status |
| Batches.BatchWrites | backend/services/internal/jobs/service.go:152-233 | each published job of a batch has its kind's prefix and number as id, its kind's mode and status, and the requested or its kind's type |
| Batches.FirstRefused | backend/services/internal/jobs/service.go:220-222 | where a batch stops: its first refused position, or its end |
| Concurrency.TicketIdsDiffer | backend/services/internal/jobs/service.go:165-207 | two different draws of fewer than 2^64 never give the same id, of whatever kinds |
| Concurrency.RunKeeps | backend/services/internal/jobs/service.go:164-183 | any interleaving of draws, publishes and records, each a step of its own, keeps each batch's tickets ascending, all batches' tickets disjoint, and the store equal to the old one plus what was recorded |
| Concurrency.InterleavedBatches | backend/services/internal/jobs/service.go:150-233 | however concurrent batches interleave and wherever some are cut short, the store gains exactly one status for every id some batch published and recorded, and nothing else |
| Batches.Service.SubmitOne | backend/services/internal/jobs/service.go:164-183 | draw, publish, record; a refused publish burns its number |
| Batches.Service.SubmitNext | backend/services/internal/jobs/service.go:164-183 | one iteration takes a batch from its first i jobs to its first i + 1, or leaves the store alone |
| Batches.Service.PublishUntilRefused | backend/services/internal/jobs/service.go:204-226 | the loop publishes and records in order up to the first refusal |
| Batches.Service.SubmitBatch | backend/services/internal/jobs/service.go:152-233 | response, store and counter after a batch, complete or cut short; default count and type |
| Strings.LessTotal | backend/control/internal/activity/tracker.go:213-221 | string order is a strict total order (trichotomy) |
| Strings.LessTransitive | backend/control/internal/activity/tracker.go:213-221 | string order is transitive |
| Strings.LessMeaning | backend/control/internal/activity/tracker.go:213-221 | string order is decided by the first difference, a proper prefix coming first |
| Strings.ClockOrder | backend/control/internal/activity/tracker.go:174-174 | HH:MM:SS strings order as the times of day they print, and print them injectively |
| Strings.ClockReads | backend/control/internal/activity/tracker.go:174-174 | a time stamp is HH:MM:SS and its digits are read back as the time of day |
| Sorting.StableSortSorts | backend/control/internal/activity/tracker.go:213-221 | under a strict weak order the result is sorted and elements the comparator cannot tell apart keep their order |
| Sorting.StableSortUnique | backend/control/internal/activity/tracker.go:213-221 | there is only one such result, whatever the algorithm |
| Sorting.StableSortPermutes | backend/control/internal/activity/tracker.go:210-221 | it is a permutation |
| Sorting.SliceStable | backend/control/internal/activity/tracker.go:213-213 | sorting the slice in place yields that result |
| Tracker.BeforeIsStrictOrder | backend/control/internal/activity/tracker.go:213-221 | the three-key comparator is a strict total order on keys |
| Tracker.PrecedesIsStrictWeak | backend/control/internal/activity/tracker.go:213-221 | it is a strict weak order on activities, alike iff all three keys agree |
| Tracker.WeightRanksStages | backend/control/internal/activity/tracker.go:145-158 | every status has the weight of its stage: unlisted, submission, reception, work, conclusion |
| Tracker.SortedIsDisplayed | backend/control/internal/activity/tracker.go:213-221 | of two entries shown the upper has the later time stamp; in one second the smaller job id; in one job the heavier status |
| Tracker.LaterStageOnTop | backend/control/internal/activity/tracker.go:145-221 | of two entries of one job in one second the one at the later stage is shown on top |
| Tracker.SamePick | backend/control/internal/activity/tracker.go:213-221 | entries equal in all three keys are shown in buffer order |
| Tracker.SortedByTimeOfDay | backend/control/internal/activity/tracker.go:174-215 | what is shown descends in time of day |
| Tracker.DatesRideAlong | backend/control/internal/activity/tracker.go:206-224 | sorting the entries with their dates attached and dropping the dates is sorting the entries |
| Tracker.NewestFirstIff | backend/control/internal/activity/tracker.go:174-221 | a buffer is shown newest first, up to equal printed times, iff no older entry has a later time of day than a newer one |
| Tracker.ShownNewestFirstIff | backend/control/internal/activity/tracker.go:161-224 | the same for the buffer after any run of adds and clears at non-decreasing seconds |
| Tracker.MidnightReverses | backend/control/internal/activity/tracker.go:174-215 | of two events at different times of day the newer is shown first iff its time of day is later, and the older iff it is earlier |
| Tracker.AddKeeps | backend/control/internal/activity/tracker.go:161-194 | an added event keeps buffer and cache in agreement with the history |
| Tracker.RunShowsHistory | backend/control/internal/activity/tracker.go:161-203 | after any adds and clears the buffer is the newest 200 of the history since the last clear, each type that of a naive scan of the uncapped history, evicted events included |
| Tracker.RunShowsEvents | backend/control/internal/activity/tracker.go:161-203 | entry by entry and field by field: the newest 200 events since the last clear, newest first |
| Tracker.ActivityTracker.AddEvent | backend/control/internal/activity/tracker.go:161-194 | is the specification's add step |
| Tracker.ActivityTracker.ClearActivities | backend/control/internal/activity/tracker.go:198-203 | is the specification's clear step |
| Tracker.ActivityTracker.GetActivities | backend/control/internal/activity/tracker.go:206-224 | a permutation of the buffer, which keeps its order: later time stamps on top, then job ids ascending, then heavier statuses on top, then buffer order |
| Observer.RunInv | backend/control/internal/messaging/observer.go:31-65 | always at most 100 events, one per message and subject, receivers non-empty and duplicate-free |
| Observer.RunTells | backend/control/internal/messaging/observer.go:31-65 | always the hundred events opened last, in opening order, each with the message, subject and time of the call that opened it and the first job id and all receivers given since; what makes room is the event opened first |
| Observer.FaithfulIffFewKeys | backend/control/internal/messaging/observer.go:61-64 | the receivers shown are exactly the subscriptions that called, iff at most 100 distinct (message, subject) pairs were seen |
| Observer.OrderDoesNotMatter | backend/control/internal/messaging/observer.go:31-65 | within that bound the receivers shown do not depend on the order of the callbacks |
| Observer.ObservedEvent.Receive | backend/control/internal/messaging/observer.go:37-48 | merging a callback fills a missing job id and adds the subscription once |
| Observer.SubjectObserver.Lookup | backend/control/internal/messaging/observer.go:36-37 | the first event with the key, or the end |
| Observer.SubjectObserver.RecordEvent | backend/control/internal/messaging/observer.go:31-65 | is the specification's step on what the event objects show: merge in place, or append and evict the oldest |
| Observer.SubjectObserver.GetEvents | backend/control/internal/messaging/observer.go:68-83 | pairwise distinct fresh objects showing the same, without message ids |

## Left out

- The NATS client and server, HTTP and gin, the JSON codec, tracing and Loki: outside code. The broker is the documented contract, JSON a decoded value, a failed call a parameter.
- AckPolicy none and all, and deleting the consumer to change it: nothing in the repository sets a policy other than explicit. An Ack, Nak or Term whose sending fails, and metadata errors, are left out too.
- The `.(int)` branches of the payload knobs: a decoded JSON number is always a float. Converting a float beyond the int range is unbounded here.
- The pull loop's fetch errors, reconnects and idle sleeps. A batch of one or two messages counts as that many single fetches.
- The trace contexts, traceparent headers, local worker events and load counters written along the way.
- PUT /processor/state and POST /processor/restart: they set display counters to constants.
- Publish errors after which the message was stored all the same, and the length of the deduplication window: any earlier dead letter id may be recognised, however old.
- Purging, cleaning up, recreating or reconfiguring the streams.
- One loop iteration of `ReprocessDLQ` is one step of the system, so sweeps interleave between letters, not within one.
- The subject-to-status table of `ProcessLifecycleEvent`, `DetermineCategory` and `DetermineAction`: tables of labels.
- `ReplayJobs`, queue groups, `EventTracker`, validation, scheduling, status and config handlers: easy beside the rest.
- The saga subjects: only labels remain. The copies of jobs, publisher and consumer under backend/control: near duplicates.
- The frontend.
- Delivery.InvRun: assumes that ordinary decisions, one second of work, come before AckWait ends, and single fetches; batches are in `OutOfOrder`.
- Conservation.JobsConserved: assumes that no publish to JOBS_DLQ fails, which `LostIff` shows to be needed, and accounts for ids, so of two jobs that share one the second may go unnoticed. A batch Ack counts as completion, since the batch handler does not look at the job's failure knobs.
- Pool.ReconfigurationLeaksNothing: assumes that no reconfiguration falls inside a respawn window and that only live workers crash. `Respawns` shows what happens otherwise, and exactly when it does no harm: for one reconfiguration and the timers pending at it, or one stray crash. Longer chains of such accidents are not analysed.
- Processor.App.HandleJetStreamMsg: others act on the consumer while the handler sleeps, but not on the App's own fields; `Arming` and `Pool` cover those interleavings. Contexts are numbers, and what a goroutine does after its launch is in `System`.
- Processor.App.RunScenario: like HandleJetStreamMsg, others do not change the App's fields in the slow seven seconds.
- Processor.App.JudgeJob: likewise.
- Processor.App.ReadScenario: reads the armed scenario and the once flag together, as the source does under its read lock; what happens between reading and disarming is in `Arming`.
- DeadLetters.Streams.GetDLQMessages: the display fields it fills in (timestamp and original subject) are not modelled.
- Tracker.ActivityTracker.AddEvent: the category and action labels of an entry are not modelled.
- Batches.BatchGainsPrefix: one batch alone; batches at the same time are in `Concurrency`.
- Batches.Service.PublishUntilRefused: likewise.
- Batches.Service.SubmitBatch: likewise.
- Concurrency.InterleavedBatches: runs of up to 2^64 steps, after which ids repeat (`IdsCollideIff`).
- Sorting.SliceStable: an insertion sort stands for the library's algorithm; the result is proved unique.
- Observer.SubjectObserver.GetEvents: a receiver list is a value here, so the backing array the source copies is not modelled.
- Processor.App.constructor: stands for the App before `startWorkers`; the display counter's initial value is not relied on.
