// Which engine executes a submitted job, and which Core worker gets it.

module Routing {
  import opened Options
  import opened Jobs
  import opened Worker

  /** A job as POST /jobs hands it to SubmitJob: beside the Job itself, what the caller may set about the message. */
  datatype Submission = Submission(
    job: Job, subject: string, contentType: string, source: string, msgId: string, headers: Header)

  type Header = map<string, string>

  function Get(h: Header, key: string): string {
    if key in h then h[key] else ""
  }

  /** What is published: the subject, the headers, the body. */
  datatype Published = Published(subject: string, header: Header, job: Job)

  function ModeOf(s: Submission): string {
    if s.job.mode == "" then "JETSTREAM" else s.job.mode
  }

  /** SubmitJob refuses a job without an id and fills in type and mode. */
  function Accept(s: Submission): Option<Submission> {
    if s.job.id == "" then None
    else Some(s.(job := s.job.(kind := if s.job.kind == "" then "generic-message" else s.job.kind, mode := ModeOf(s))))
  }

  function Or(s: string, default: string): string {
    if s == "" then default else s
  }

  function BaseHeader(s: Submission, messageId: string): Header {
    var h: Header := map["Content-Type" := Or(s.contentType, "application/json")];
    var i := if s.msgId != "" then h["Nats-Msg-Id" := s.msgId] else h;
    i["X-Message-Id" := messageId]["X-Source" := Or(s.source, "job-service")]["X-Delivery-Mode" := ModeOf(s)]
  }

  function Custom(headers: Header): Header {
    map k | k in headers && k != "" :: headers[k]
  }

  function Publish(s: Submission, messageId: string): Published {
    Published(Or(s.subject, "jobs.submitted"), BaseHeader(s, messageId) + Custom(s.headers), s.job)
  }

  /** The loop over the custom headers, in whatever order Go walks the map. */
  method SetCustom(base: Header, headers: Header) returns (h: Header)
    ensures h == base + Custom(headers)
  {
    h := base;
    var keys := headers.Keys;
    while keys != {}
      invariant keys <= headers.Keys
      invariant h == base + map k | k in headers && k !in keys && k != "" :: headers[k]
      decreases |keys|
    {
      var k :| k in keys;
      if k != "" { h := h[k := headers[k]]; }
      keys := keys - {k};
    }
    assert (map k | k in headers && k !in keys && k != "" :: headers[k]) == Custom(headers);
  }

  /** PublishJobSubmitted, up to the broker. */
  method BuildMessage(s: Submission, messageId: string) returns (p: Published)
    ensures p == Publish(s, messageId)
  {
    var subject := if s.subject == "" then "jobs.submitted" else s.subject;
    var h: Header := map["Content-Type" := Or(s.contentType, "application/json")];
    if s.msgId != "" { h := h["Nats-Msg-Id" := s.msgId]; }
    h := h["X-Message-Id" := messageId];
    h := h["X-Source" := Or(s.source, "job-service")];
    h := h["X-Delivery-Mode" := ModeOf(s)];
    h := SetCustom(h, s.headers);
    p := Published(subject, h, s.job);
  }

  /** What SubmitJob makes of a job: an error without an id; else the job with its type and mode filled in if empty. */
  lemma AcceptMeaning(s: Submission)
    ensures Accept(s).None? <==> s.job.id == ""
    ensures Accept(s).Some? ==>
              var t := Accept(s).value;
              && t == s.(job := s.job.(kind := t.job.kind, mode := t.job.mode))
              && t.job.kind == (if s.job.kind != "" then s.job.kind else "generic-message")
              && t.job.mode == (if s.job.mode != "" then s.job.mode else "JETSTREAM")
  {
  }

  /** The published message, header by header: the caller's own first, then the publisher's five, then nothing. */
  lemma HeaderMeaning(s: Submission, messageId: string, key: string)
    ensures var p := Publish(s, messageId);
            && p.job == s.job && p.subject == (if s.subject != "" then s.subject else "jobs.submitted")
            && if key in s.headers && key != "" then key in p.header && p.header[key] == s.headers[key]
               else if key == "X-Delivery-Mode" then
                 key in p.header && p.header[key] == if s.job.mode != "" then s.job.mode else "JETSTREAM"
               else if key == "X-Source" then
                 key in p.header && p.header[key] == if s.source != "" then s.source else "job-service"
               else if key == "Content-Type" then
                 key in p.header && p.header[key] == if s.contentType != "" then s.contentType else "application/json"
               else if key == "X-Message-Id" then key in p.header && p.header[key] == messageId
               else if key == "Nats-Msg-Id" then
                 (key in p.header <==> s.msgId != "") && (s.msgId != "" ==> p.header[key] == s.msgId)
               else key !in p.header
  {
    var names := ["X-Delivery-Mode", "X-Source", "Content-Type", "X-Message-Id", "Nats-Msg-Id"];
    assert |names[0]| == 15 && |names[1]| == 8 && |names[2]| == 12 && |names[3]| == 12 && |names[4]| == 11;
    assert names[2][0] == 'C' && names[3][0] == 'X';
  }

  /** The Core engine: the subscription's filter, then the handler's own. */
  predicate CoreExecutes(p: Published) {
    var mode := if Get(p.header, "X-Delivery-Mode") == "" then p.job.mode else Get(p.header, "X-Delivery-Mode");
    p.subject == "jobs.submitted" && mode != "JETSTREAM" && p.job.mode != "JETSTREAM"
  }

  /** The JetStream engine sees what the stream JOBS stored; it acknowledges CORE messages away unexecuted. */
  predicate JetStreamExecutes(p: Published, stored: bool) {
    p.subject == "jobs.submitted" && stored && !Discarded(Message(Get(p.header, "X-Delivery-Mode"), Some(p.job)))
  }

  function Executions(p: Published, stored: bool): nat {
    (if CoreExecutes(p) then 1 else 0) + (if JetStreamExecutes(p, stored) then 1 else 0)
  }

  /** The two engines see exactly one of them execute a stored message on jobs.submitted, except in these cases: a
      header contradicting the body's mode, and a header and a body naming two modes neither engine knows. */
  lemma ExactlyOneEngine(p: Published)
    requires p.subject == "jobs.submitted"
    ensures var header, body := Get(p.header, "X-Delivery-Mode"), p.job.mode;
            Executions(p, true) == 1 <==>
              if body == "JETSTREAM" then header != "" && header != "CORE"
              else if body == "CORE" then header != "JETSTREAM"
              else header in {"", "CORE", "JETSTREAM"}
  {
  }

  /** A message on any other subject is executed by neither. */
  lemma OtherSubjects(p: Published, stored: bool)
    requires p.subject != "jobs.submitted"
    ensures Executions(p, stored) == 0
  {
  }

  /** An ordinary submission: one of the two modes or none, no custom mode header, the default subject. */
  predicate Plain(s: Submission) {
    && Accept(s).Some? && s.job.mode in {"", "CORE", "JETSTREAM"}
    && "X-Delivery-Mode" !in s.headers && s.subject in {"", "jobs.submitted"}
  }

  /** What SubmitJob accepts is executed exactly once if stored: CORE by the Core engine, the rest by the JetStream
      engine. A deduplicated JetStream job is not executed at all. */
  lemma SubmittedJobRoutes(s: Submission, messageId: string, stored: bool)
    requires Plain(s)
    ensures var p := Publish(Accept(s).value, messageId);
            && (CoreExecutes(p) <==> s.job.mode == "CORE")
            && (JetStreamExecutes(p, stored) <==> s.job.mode != "CORE" && stored)
            && Executions(p, stored) == if s.job.mode == "CORE" || stored then 1 else 0
  {
  }

  /** The broker's answer to a publish: accepted, recognised as a duplicate and not stored, or an error. */
  datatype Answer = Accepted | Deduplicated | Refused

  /** The messages a sequence of submissions publishes. */
  function Publishes(ss: seq<Submission>, ids: seq<string>): (ps: seq<Published>)
    requires |ids| == |ss| && forall k | 0 <= k < |ss| :: Plain(ss[k])
    ensures |ps| == |ss|
  {
    if ss == [] then [] else
    assert Plain(ss[0]);
    [Publish(Accept(ss[0]).value, ids[0])] + Publishes(ss[1..], ids[1..])
  }

  /** How many of them the Core subscription executes: it gets whatever was not refused. */
  function CoreRuns(ps: seq<Published>, answers: seq<Answer>): nat
    requires |answers| == |ps|
  {
    if ps == [] then 0 else
    (if CoreExecutes(ps[0]) && !answers[0].Refused? then 1 else 0) + CoreRuns(ps[1..], answers[1..])
  }

  /** How many the JetStream workers execute: they get what was stored. */
  function JetStreamRuns(ps: seq<Published>, answers: seq<Answer>): nat
    requires |answers| == |ps|
  {
    if ps == [] then 0 else
    (if JetStreamExecutes(ps[0], answers[0].Accepted?) then 1 else 0) + JetStreamRuns(ps[1..], answers[1..])
  }

  function CoreJobs(ss: seq<Submission>, answers: seq<Answer>): nat
    requires |answers| == |ss|
  {
    if ss == [] then 0 else
    (if ss[0].job.mode == "CORE" && !answers[0].Refused? then 1 else 0) + CoreJobs(ss[1..], answers[1..])
  }

  function StoredJobs(ss: seq<Submission>, answers: seq<Answer>): nat
    requires |answers| == |ss|
  {
    if ss == [] then 0 else
    (if ss[0].job.mode != "CORE" && answers[0].Accepted? then 1 else 0) + StoredJobs(ss[1..], answers[1..])
  }

  /** Over any sequence of submissions, however the broker answers each, the Core engine executes the CORE jobs that
      were not refused and the JetStream engine the other jobs that were stored, each once. */
  lemma {:induction false} EveryJobExecutedOnce(ss: seq<Submission>, ids: seq<string>, answers: seq<Answer>)
    requires |ids| == |ss| == |answers| && forall k | 0 <= k < |ss| :: Plain(ss[k])
    ensures CoreRuns(Publishes(ss, ids), answers) == CoreJobs(ss, answers)
    ensures JetStreamRuns(Publishes(ss, ids), answers) == StoredJobs(ss, answers)
  {
    if ss == [] {
    } else {
      EveryJobExecutedOnce(ss[1..], ids[1..], answers[1..]);
      SubmittedJobRoutes(ss[0], ids[0], answers[0].Accepted?);
      assert Publishes(ss, ids)[1..] == Publishes(ss[1..], ids[1..]);
    }
  }

  // Round-robin over the Core workers. The counter is a uint64 and wraps around.

  const TWO64: nat := 0x1_0000_0000_0000_0000

  /** (AddUint64(&counter, 1) - 1) % workers + 1, with the counter before the call. */
  function Assigned(counter: nat, workers: int): (w: nat)
    ensures 1 <= w <= if workers <= 0 then 1 else workers
  {
    counter % TWO64 % (if workers <= 0 then 1 else workers) + 1
  }

  class CoreHandler {
    var counter: nat
    var attempts: map<string, nat>

    constructor (start: nat)
      ensures counter == start && attempts == map[]
    {
      counter, attempts := start, map[];
    }

    /** buildCoreJobHandler's callback, for the worker count read at this message. */
    method Handle(job: Job, workers: int) returns (worker: Option<nat>, failed: bool)
      modifies this
      ensures worker == if job.mode == "JETSTREAM" then None else Some(Assigned(old(counter), workers))
      ensures counter == if worker.Some? then (old(counter) + 1) % TWO64 else old(counter)
      ensures var n := (if job.id in old(attempts) then old(attempts)[job.id] else 0) + 1;
              && attempts == (if worker.Some? then old(attempts)[job.id := n] else old(attempts))
              && failed == (worker.Some? && Fails(job, n))
    {
      if job.mode == "JETSTREAM" { return None, false; }
      var count := if workers <= 0 then 1 else workers;
      counter := (counter + 1) % TWO64;
      worker := Some((counter + TWO64 - 1) % TWO64 % count + 1);
      Wrapped(old(counter));
      var n := (if job.id in attempts then attempts[job.id] else 0) + 1;
      attempts := attempts[job.id := n];
      failed := Failing(job) && (FailureCount(job) == 0 || n <= FailureCount(job));
    }

    static lemma Wrapped(c: nat)
      ensures ((c + 1) % TWO64 + TWO64 - 1) % TWO64 == c % TWO64
    {
    }
  }

  /** The assignment goes round: worker 1 first, then the next, after the last the first again. */
  lemma NextWorker(counter: nat, n: nat)
    requires n >= 1 && counter + 1 < TWO64
    ensures Assigned(0, n) == 1
    ensures Assigned(counter + 1, n) == if Assigned(counter, n) == n then 1 else Assigned(counter, n) + 1
  {
    AssignedIs(0, n);
    AssignedIs(counter, n);
    AssignedIs(counter + 1, n);
    NextRemainder(counter, n);
    DivMod(0, n, 0, 0);
  }

  lemma AssignedIs(counter: nat, n: nat)
    requires n >= 1 && counter < TWO64
    ensures Assigned(counter, n) == counter % n + 1
  {
  }

  lemma NextRemainder(y: nat, n: nat)
    requires n >= 1
    ensures (y + 1) % n == if y % n + 1 == n then 0 else y % n + 1
  {
    var q, r := y / n, y % n;
    assert y == n * q + r;
    if r + 1 < n {
      DivMod(y + 1, n, q, r + 1);
    } else {
      assert n * (q + 1) == n * q + n;
      DivMod(y + 1, n, q + 1, 0);
    }
  }

  /** Of the k messages from this counter on, how many worker w gets. */
  function Share(counter: nat, k: nat, n: nat, w: nat): nat
    requires n >= 1
  {
    if k == 0 then 0 else Share(counter, k - 1, n, w) + if Assigned(counter + k - 1, n) == w then 1 else 0
  }

  predicate Fair(counter: nat, k: nat, n: nat)
    requires n >= 1
  {
    forall w | 1 <= w <= n :: Share(counter, k, n, w) == k / n || Share(counter, k, n, w) == (k + n - 1) / n
  }

  lemma DivMod(a: int, n: nat, q: int, r: int)
    requires n >= 1 && a == n * q + r && 0 <= r < n
    ensures a / n == q && a % n == r
  {
    var d := a / n - q;
    assert a == n * (a / n) + a % n;
    assert n * d == r - a % n;
    assert (d >= 1 ==> n * d >= n) && (d <= -1 ==> n * d + n <= 0);
  }

  /** How many numbers below y leave remainder w - 1. */
  function Below(y: nat, n: nat, w: nat): int
    requires 1 <= w <= n
  {
    (y + n - w) / n
  }

  lemma BelowNext(y: nat, n: nat, w: nat)
    requires 1 <= w <= n
    ensures Below(y + 1, n, w) == Below(y, n, w) + if y % n + 1 == w then 1 else 0
  {
    BelowIs(y, n, w, y / n, y % n);
    if y % n + 1 < n {
      DivMod(y + 1, n, y / n, y % n + 1);
      BelowIs(y + 1, n, w, y / n, y % n + 1);
    } else {
      assert n * (y / n + 1) == n * (y / n) + n;
      BelowIs(y + 1, n, w, y / n + 1, 0);
    }
  }

  /** Of q whole rounds and r further numbers. */
  lemma BelowIs(y: nat, n: nat, w: nat, q: nat, r: nat)
    requires 1 <= w <= n && y == n * q + r && r < n
    ensures Below(y, n, w) == if r >= w then q + 1 else q
  {
    if r >= w {
      assert n * (q + 1) == n * q + n;
      DivMod(y + n - w, n, q + 1, r - w);
    } else {
      DivMod(y + n - w, n, q, r + n - w);
    }
  }

  /** The counter behaves as if it never wrapped. */
  ghost predicate Seamless(counter: nat, k: nat, n: nat)
    requires n >= 1
  {
    forall j | counter <= j < counter + k :: Assigned(j, n) == j % n + 1
  }

  lemma {:induction false} ShareIsBelow(counter: nat, k: nat, n: nat, w: nat)
    requires 1 <= w <= n && Seamless(counter, k, n)
    ensures Share(counter, k, n, w) == Below(counter + k, n, w) - Below(counter, n, w)
  {
    if k == 0 {
    } else {
      ShareIsBelow(counter, k - 1, n, w);
      BelowNext(counter + k - 1, n, w);
    }
  }

  lemma SpreadOf(a: nat, k: nat, n: nat)
    requires n >= 1
    ensures (a + k) / n - a / n == k / n || (a + k) / n - a / n == (k + n - 1) / n
  {
    var qa, ra, qk, rk := a / n, a % n, k / n, k % n;
    assert a == n * qa + ra && k == n * qk + rk;
    assert n * (qa + qk) == n * qa + n * qk && n * (qa + qk + 1) == n * (qa + qk) + n && n * (qk + 1) == n * qk + n;
    if ra + rk < n {
      DivMod(a + k, n, qa + qk, ra + rk);
    } else {
      DivMod(a + k, n, qa + qk + 1, ra + rk - n);
      DivMod(k + n - 1, n, qk + 1, rk - 1);
    }
  }

  lemma SeamlessIsFair(counter: nat, k: nat, n: nat)
    requires n >= 1 && Seamless(counter, k, n)
    ensures Fair(counter, k, n)
  {
    forall w | 1 <= w <= n ensures Share(counter, k, n, w) == k / n || Share(counter, k, n, w) == (k + n - 1) / n {
      ShareIsBelow(counter, k, n, w);
      SpreadOf(counter + n - w, k, n);
    }
  }

  /** Round-robin is fair over any k consecutive messages as long as the uint64 counter does not wrap among them. */
  lemma FairUntilWrap(counter: nat, k: nat, n: nat)
    requires n >= 1 && counter + k <= TWO64
    ensures Fair(counter, k, n)
  {
    SeamlessIsFair(counter, k, n);
  }

  lemma {:induction false} ShareGrows(counter: nat, k: nat, l: nat, n: nat, w: nat)
    requires n >= 1 && k <= l
    ensures Share(counter, k, n, w) <= Share(counter, l, n, w)
    decreases l
  {
    if k == l {
    } else {
      ShareGrows(counter, k, l - 1, n, w);
    }
  }

  lemma ModMod(j: nat, total: nat, n: nat)
    requires n >= 1 && total >= 1 && total % n == 0
    ensures j % total % n == j % n
  {
    var m, q, s := total / n, j / total, j % total;
    assert total == n * m && j == total * q + s && s == n * (s / n) + s % n;
    assert total * q == n * (m * q);
    assert n * (m * q + s / n) == n * (m * q) + n * (s / n);
    DivMod(j, n, m * q + s / n, s % n);
  }

  /** total minus its remainder, and total itself, both count as multiples of n under a counter that wraps at total. */
  lemma AroundWrap(total: nat, n: nat)
    requires n >= 1 && total >= 1 && total % n != 0
    ensures total - total % n >= 0
    ensures (total - total % n) % total % n == 0 && total % total % n == 0
  {
    var r, q := total % n, total / n;
    assert total == n * q + r && r <= total;
    var c := total - r;
    DivMod(c, n, q, 0);
    DivMod(c, total, 0, c);
    DivMod(total, total, 1, 0);
    DivMod(0, n, 0, 0);
  }

  lemma DividesIsSeamless(j: nat, n: nat)
    requires n >= 1 && TWO64 % n == 0
    ensures Assigned(j, n) == j % n + 1
  {
    ModMod(j, TWO64, n);
  }

  /** Twice worker 1 within r + 1 <= n messages is not fair. */
  lemma ServedTwice(c: nat, r: nat, n: nat)
    requires 1 <= r < n && Assigned(c, n) == 1 && Assigned(c + r, n) == 1
    ensures !Fair(c, r + 1, n)
  {
    ShareGrows(c, 1, r, n, 1);
    assert Share(c, 1, n, 1) == Share(c, 0, n, 1) + 1;
    assert Share(c, r + 1, n, 1) == Share(c, r, n, 1) + 1 >= 2;
    assert (r + 1) / n <= 1 by { if r + 1 == n { DivMod(r + 1, n, 1, 0); } else { DivMod(r + 1, n, 0, r + 1); } }
    DivMod(r + 1 + n - 1, n, 1, r);
  }

  lemma AssignedAroundWrap(n: nat)
    requires n >= 1 && TWO64 % n != 0
    ensures Assigned(TWO64 - TWO64 % n, n) == 1 && Assigned(TWO64, n) == 1
  {
    AroundWrap(TWO64, n);
  }

  /** Start r before the wrap, where r is what 2^64 leaves: r + 1 messages suffice to serve worker 1 twice. */
  lemma WrapServesTwice(n: nat)
    requires n >= 1 && TWO64 % n != 0
    ensures !Fair(TWO64 - TWO64 % n, TWO64 % n + 1, n)
  {
    var r := TWO64 % n;
    AssignedAroundWrap(n);
    ServedTwice(TWO64 - r, r, n);
  }

  /** Across the wrap it is fair for every window exactly when the worker count divides 2^64: for 1, 2 and 4 of the
      admissible counts, not for 3 and 5. */
  lemma FairAcrossWrap(n: nat)
    requires n >= 1
    ensures (forall counter: nat, k: nat :: Fair(counter, k, n)) <==> TWO64 % n == 0
  {
    if TWO64 % n == 0 {
      forall counter: nat, k: nat ensures Fair(counter, k, n) { DividesIsFair(counter, k, n); }
    } else {
      WrapServesTwice(n);
    }
  }

  lemma DividesIsFair(counter: nat, k: nat, n: nat)
    requires n >= 1 && TWO64 % n == 0
    ensures Fair(counter, k, n)
  {
    forall j: nat ensures Assigned(j, n) == j % n + 1 { DividesIsSeamless(j, n); }
    SeamlessIsFair(counter, k, n);
  }
}
