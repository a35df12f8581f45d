// The activity log: a capped newest-first buffer with a job-type cache, read back through a stable sort.

module Tracker {
  import opened Strings
  import opened Sorting

  const CAP: nat := 200

  /** The arguments of one AddEvent call, and the time of day at which it happens, as printed. */
  datatype Event = Event(jobId: string, status: string, deliveries: int, subject: string, worker: string, mode: string,
                         sequence: nat, msgId: string, jobType: string, timestamp: string)

  datatype Activity = Activity(
    timestamp: string, jobId: string, event: string, subject: string, worker: string, deliveries: int,
    mode: string, sequence: nat, msgId: string, jobType: string)

  function Entry(e: Event, jobType: string): Activity {
    Activity(e.timestamp, e.jobId, e.status, e.subject, e.worker, e.deliveries, e.mode, e.sequence, e.msgId, jobType)
  }

  datatype State = State(activities: seq<Activity>, jobTypes: map<string, string>)

  datatype Step = Add(e: Event) | Clear

  function Next(s: State, step: Step): State {
    match step
    case Clear => State([], map[])
    case Add(e) =>
      var jobType := if e.jobType != "" then e.jobType else if e.jobId in s.jobTypes then s.jobTypes[e.jobId] else "";
      var all := [Entry(e, jobType)] + s.activities;
      State(if |all| > CAP then all[..CAP] else all,
            if e.jobType != "" then s.jobTypes[e.jobId := e.jobType] else s.jobTypes)
  }

  function Run(steps: seq<Step>): State {
    if steps == [] then State([], map[]) else Next(Run(steps[..|steps| - 1]), steps[|steps| - 1])
  }

  // What the log should show, from the full history.

  /** The events since the last clear, oldest first, with no cap. */
  function Since(steps: seq<Step>): seq<Event> {
    if steps == [] then [] else
    match steps[|steps| - 1]
    case Clear => []
    case Add(e) => Since(steps[..|steps| - 1]) + [e]
  }

  /** A naive scan for the latest type given for a job; "" if none was. */
  function LatestType(h: seq<Event>, id: string): string {
    if h == [] then "" else
    var e := h[|h| - 1];
    if e.jobId == id && e.jobType != "" then e.jobType else LatestType(h[..|h| - 1], id)
  }

  function EntryAt(h: seq<Event>, k: nat): Activity
    requires k < |h|
  {
    Entry(h[k], LatestType(h[..k + 1], h[k].jobId))
  }

  predicate Shows(s: State, h: seq<Event>) {
    && |s.activities| == (if |h| > CAP then CAP else |h|)
    && (forall i | 0 <= i < |s.activities| :: s.activities[i] == EntryAt(h, |h| - 1 - i))
    && (forall id | id in s.jobTypes :: s.jobTypes[id] == LatestType(h, id) != "")
  }

  /** The cache holds every known type, so a missing id has none. */
  ghost predicate Caches(s: State, h: seq<Event>) {
    forall id :: id in s.jobTypes <==> LatestType(h, id) != ""
  }

  lemma LatestTypeAppend(h: seq<Event>, e: Event, id: string)
    ensures LatestType(h + [e], id) == if e.jobId == id && e.jobType != "" then e.jobType else LatestType(h, id)
  {
  }

  /** The type AddEvent picks is the latest one. */
  lemma AddPicksLatest(s: State, h: seq<Event>, e: Event)
    requires Shows(s, h) && Caches(s, h)
    ensures Next(s, Add(e)).activities != [] && Next(s, Add(e)).activities[0] == EntryAt(h + [e], |h|)
  {
    LatestTypeAppend(h, e, e.jobId);
    assert (h + [e])[..|h| + 1] == h + [e];
    assert e.jobId in s.jobTypes <==> LatestType(h, e.jobId) != "";
  }

  lemma AddKeepsTypes(s: State, h: seq<Event>, e: Event, id: string)
    requires Shows(s, h) && Caches(s, h)
    ensures var t := Next(s, Add(e));
            && (id in t.jobTypes <==> LatestType(h + [e], id) != "")
            && (id in t.jobTypes ==> t.jobTypes[id] == LatestType(h + [e], id))
  {
  }

  lemma AddKeepsEntry(s: State, h: seq<Event>, e: Event, i: nat)
    requires Shows(s, h) && 1 <= i < |Next(s, Add(e)).activities|
    ensures i <= |h| && Next(s, Add(e)).activities[i] == EntryAt(h + [e], |h| - i)
  {
    var g := h + [e];
    assert Next(s, Add(e)).activities[i] == s.activities[i - 1] == EntryAt(h, |h| - i);
    assert g[..|h| - i + 1] == h[..|h| - i + 1] && g[|h| - i] == h[|h| - i];
  }

  lemma AddKeeps(s: State, h: seq<Event>, e: Event)
    requires Shows(s, h) && Caches(s, h)
    ensures Shows(Next(s, Add(e)), h + [e]) && Caches(Next(s, Add(e)), h + [e])
  {
    var t, g := Next(s, Add(e)), h + [e];
    AddPicksLatest(s, h, e);
    forall id
      ensures (id in t.jobTypes <==> LatestType(g, id) != "")
      ensures id in t.jobTypes ==> t.jobTypes[id] == LatestType(g, id)
    {
      AddKeepsTypes(s, h, e, id);
    }
    forall i | 0 <= i < |t.activities| ensures t.activities[i] == EntryAt(g, |g| - 1 - i) {
      if i > 0 { AddKeepsEntry(s, h, e, i); }
    }
  }

  /** After any adds and clears the buffer is the newest 200 of the history since the last clear, newest first, and
      each entry's type is what a scan of the whole history up to that event finds, dropped entries included. */
  lemma {:induction false} RunShowsHistory(steps: seq<Step>)
    ensures Shows(Run(steps), Since(steps)) && Caches(Run(steps), Since(steps))
  {
    if steps == [] {
    } else {
      RunShowsHistory(steps[..|steps| - 1]);
      match steps[|steps| - 1]
      case Clear =>
      case Add(e) => AddKeeps(Run(steps[..|steps| - 1]), Since(steps[..|steps| - 1]), e);
    }
  }

  // Reading the log back.

  /** getStatusWeight */
  function Weight(status: string): nat {
    match status
    case "SCHEDULED" | "PUBLISHED" | "STORED" | "REQUEST_SENT" | "DEDUPLICATED" | "REPROCESSED" | "SAGA_STARTED"
       | "SAGA_TRIGGERED" | "OP1_RESERVE" | "OP2_PAYMENT" => 1
    case "RECEIVED" | "DELIVERED" | "REQUEST_RECEIVED" | "REDELIVERED" | "SAGA_STEP" | "SAGA_COMPENSATING"
       | "OP1_COMPLETED" | "OP1_FAILED" | "OP2_COMPLETED" | "OP2_FAILED" | "OP1_COMPENSATING" | "OP1_COMPENSATED" => 2
    case "PROCESSING" | "REPLY_SENT" | "NAK_WITH_DELAY" | "ACK_TIMEOUT_SIMULATED" => 3
    case "COMPLETED" | "FAILED" | "ACKED" | "NO CONSUMER" | "REPLY_RECEIVED" | "REQUEST_TIMEOUT" | "REPLAYED"
       | "DLQ_PUBLISHED" | "SAGA_COMPLETED" | "SAGA_COMPENSATED" | "SAGA_FAILED" => 4
    case _ => 0
  }

  /** The stages of a job's life, as statuses. */
  datatype Stage = Unlisted | Submission | Reception | Work | Conclusion

  ghost predicate At(status: string, stage: Stage)
    decreases if stage.Unlisted? then 1 else 0
  {
    match stage
    case Submission =>
      status in ["PUBLISHED", "STORED", "SCHEDULED", "DEDUPLICATED", "REPROCESSED", "REQUEST_SENT",
                 "SAGA_STARTED", "SAGA_TRIGGERED", "OP1_RESERVE", "OP2_PAYMENT"]
    case Reception =>
      status in ["DELIVERED", "RECEIVED", "REDELIVERED", "REQUEST_RECEIVED", "SAGA_STEP", "SAGA_COMPENSATING",
                 "OP1_COMPLETED", "OP1_FAILED", "OP1_COMPENSATING", "OP1_COMPENSATED", "OP2_COMPLETED", "OP2_FAILED"]
    case Work =>
      status in ["PROCESSING", "REPLY_SENT", "NAK_WITH_DELAY", "ACK_TIMEOUT_SIMULATED"]
    case Conclusion =>
      status in ["ACKED", "COMPLETED", "FAILED", "DLQ_PUBLISHED", "REPLAYED", "REPLY_RECEIVED", "REQUEST_TIMEOUT",
                 "NO CONSUMER", "SAGA_COMPLETED", "SAGA_COMPENSATED", "SAGA_FAILED"]
    case Unlisted =>
      !At(status, Submission) && !At(status, Reception) && !At(status, Work) && !At(status, Conclusion)
  }

  function Rank(stage: Stage): nat {
    match stage
    case Unlisted => 0
    case Submission => 1
    case Reception => 2
    case Work => 3
    case Conclusion => 4
  }

  lemma WeightRanksStages(status: string, stage: Stage)
    requires At(status, stage)
    ensures Weight(status) == Rank(stage)
  {
  }

  /** What the comparator looks at. */
  datatype Key = Key(timestamp: string, jobId: string, weight: nat)

  function KeyOf(a: Activity): Key {
    Key(a.timestamp, a.jobId, Weight(a.event))
  }

  /** Later timestamps first, then job ids ascending, then heavier statuses first. */
  predicate Before(a: Key, b: Key) {
    if a.timestamp != b.timestamp then Less(b.timestamp, a.timestamp)
    else if a.jobId != b.jobId then Less(a.jobId, b.jobId)
    else a.weight > b.weight
  }

  /** The comparator is a strict total order on keys, hence a strict weak order on activities. */
  lemma BeforeIsStrictOrder(a: Key, b: Key, c: Key)
    ensures !Before(a, a)
    ensures Before(a, b) && Before(b, c) ==> Before(a, c)
    ensures a != b ==> Before(a, b) != Before(b, a)
  {
    LessTotal(a.timestamp, b.timestamp);
    LessTotal(b.timestamp, c.timestamp);
    LessTotal(a.timestamp, c.timestamp);
    LessTotal(a.jobId, b.jobId);
    LessTotal(b.jobId, c.jobId);
    LessTotal(a.jobId, c.jobId);
    if Less(b.timestamp, a.timestamp) && Less(c.timestamp, b.timestamp) {
      LessTransitive(c.timestamp, b.timestamp, a.timestamp);
    }
    if Less(a.jobId, b.jobId) && Less(b.jobId, c.jobId) { LessTransitive(a.jobId, b.jobId, c.jobId); }
  }

  predicate Precedes(a: Activity, b: Activity) {
    Before(KeyOf(a), KeyOf(b))
  }

  lemma PrecedesIsStrictWeak()
    ensures StrictWeak(Precedes)
    ensures forall a, b :: Alike(Precedes, a, b) <==> KeyOf(a) == KeyOf(b)
  {
    forall a: Activity, b: Activity, c: Activity
      ensures !Precedes(a, a)
      ensures Precedes(a, b) && Precedes(b, c) ==> Precedes(a, c)
      ensures Alike(Precedes, a, b) <==> KeyOf(a) == KeyOf(b)
    {
      BeforeIsStrictOrder(KeyOf(a), KeyOf(b), KeyOf(c));
    }
  }

  /** What the reader sees comes in descending time of day. */
  lemma SortedByTimeOfDay(r: seq<Activity>, i: nat, j: nat, t: nat, u: nat)
    requires Sorted(r, Precedes) && i < j < |r| && t < DAY && u < DAY
    requires r[i].timestamp == Clock(t) && r[j].timestamp == Clock(u)
    ensures t >= u
  {
    ClockOrder(t, u);
    assert !Precedes(r[j], r[i]);
  }

  // When newest-first does hold. Entries do not carry a date, so this is about entries with the second they stand for.

  datatype Dated = Dated(entry: Activity, at: nat)

  /** The buffer as adds fill it: newest first, each entry stamped with its second's time of day. */
  predicate Recorded(log: seq<Dated>) {
    && (forall i | 0 <= i < |log| :: log[i].entry.timestamp == Clock(log[i].at % DAY))
    && (forall i, j | 0 <= i < j < |log| :: log[i].at >= log[j].at)
  }

  function Entries(log: seq<Dated>): (r: seq<Activity>)
    ensures |r| == |log| && forall i | 0 <= i < |log| :: r[i] == log[i].entry
  {
    seq(|log|, i requires 0 <= i < |log| => log[i].entry)
  }

  predicate DatedPrecedes(a: Dated, b: Dated) {
    Precedes(a.entry, b.entry)
  }

  lemma DatedPrecedesIsStrictWeak()
    ensures StrictWeak(DatedPrecedes)
  {
    PrecedesIsStrictWeak();
    forall a, b, c | Alike(DatedPrecedes, a, b) && Alike(DatedPrecedes, b, c) ensures Alike(DatedPrecedes, a, c) {
      assert Alike(Precedes, a.entry, b.entry) && Alike(Precedes, b.entry, c.entry);
    }
  }

  lemma PlaceDated(log: seq<Dated>, d: Dated, j: nat)
    requires j <= |log|
    ensures Place(log, d, DatedPrecedes, j) == Place(Entries(log), d.entry, Precedes, j)
  {
  }

  lemma InsertDated(log: seq<Dated>, d: Dated)
    ensures Entries(Insert(log, d, DatedPrecedes)) == Insert(Entries(log), d.entry, Precedes)
  {
    PlaceDated(log, d, |log|);
    var p := Place(log, d, DatedPrecedes, |log|);
    EntriesConcat(log[..p] + [d], log[p..]);
    EntriesConcat(log[..p], [d]);
    assert Entries(log[..p]) == Entries(log)[..p] && Entries(log[p..]) == Entries(log)[p..];
    assert Entries([d]) == [d.entry];
  }

  lemma EntriesConcat(x: seq<Dated>, y: seq<Dated>)
    ensures Entries(x + y) == Entries(x) + Entries(y)
  {
  }

  /** The dates ride along: what GetActivities returns is the sorted dated log without its dates. */
  lemma {:induction false} DatesRideAlong(log: seq<Dated>)
    ensures Entries(StableSort(log, DatedPrecedes)) == StableSort(Entries(log), Precedes)
  {
    if log == [] {
    } else {
      var n := |log| - 1;
      DatesRideAlong(log[..n]);
      InsertDated(StableSort(log[..n], DatedPrecedes), log[n]);
      assert Entries(log)[..n] == Entries(log[..n]) && Entries(log)[n] == log[n].entry;
    }
  }

  /** Newest first, up to entries with the same printed time. */
  predicate NewestFirst(log: seq<Dated>) {
    forall i, j | 0 <= i < j < |log| :: log[i].at >= log[j].at || log[i].at % DAY == log[j].at % DAY
  }

  /** No older entry has a later time of day than a newer one: no midnight in between that shows. */
  predicate NoneLaterInItsDay(log: seq<Dated>) {
    forall i, j | 0 <= i < j < |log| :: log[j].at % DAY <= log[i].at % DAY
  }

  lemma SortedDescends(log: seq<Dated>, r: seq<Dated>)
    requires Recorded(log) && Sorted(r, DatedPrecedes) && multiset(r) == multiset(log)
    ensures forall i | 0 <= i < |r| :: r[i] in log
    ensures forall i, j | 0 <= i < j < |r| :: r[i].at % DAY >= r[j].at % DAY
  {
    forall i | 0 <= i < |r| ensures r[i] in log {
      assert r[i] in multiset(r);
    }
    forall i, j | 0 <= i < j < |r| ensures r[i].at % DAY >= r[j].at % DAY {
      ClockOrder(r[i].at % DAY, r[j].at % DAY);
      assert !DatedPrecedes(r[j], r[i]);
    }
  }

  /** The activity log is shown newest first, up to equal printed times, exactly when no older entry has a later time
      of day than a newer one. */
  lemma NewestFirstIff(log: seq<Dated>, r: seq<Dated>)
    requires Recorded(log) && r == StableSort(log, DatedPrecedes)
    ensures Entries(r) == StableSort(Entries(log), Precedes)
    ensures NewestFirst(r) <==> NoneLaterInItsDay(log)
  {
    DatesRideAlong(log);
    DatedPrecedesIsStrictWeak();
    StableSortSorts(log, DatedPrecedes);
    StableSortPermutes(log, DatedPrecedes);
    SortedNewestFirst(log, r);
  }

  lemma SortedNewestFirst(log: seq<Dated>, r: seq<Dated>)
    requires Recorded(log) && Sorted(r, DatedPrecedes) && multiset(r) == multiset(log)
    ensures NewestFirst(r) <==> NoneLaterInItsDay(log)
  {
    SortedDescends(log, r);
    if NoneLaterInItsDay(log) {
      forall i, j | 0 <= i < j < |r| ensures r[i].at >= r[j].at || r[i].at % DAY == r[j].at % DAY {
        if r[i].at < r[j].at { NewerIsEarlier(log, r[j], r[i]); }
      }
    } else {
      var i, j :| 0 <= i < j < |log| && log[j].at % DAY > log[i].at % DAY;
      LaterShownFirst(log, r, log[i], log[j]);
    }
  }

  lemma LaterShownFirst(log: seq<Dated>, r: seq<Dated>, newer: Dated, older: Dated)
    requires multiset(r) == multiset(log) && newer in log && older in log
    requires forall i, j | 0 <= i < j < |r| :: r[i].at % DAY >= r[j].at % DAY
    requires newer.at >= older.at && older.at % DAY > newer.at % DAY
    ensures !NewestFirst(r)
  {
    assert newer in multiset(r) && older in multiset(r);
    var p :| 0 <= p < |r| && r[p] == newer;
    var q :| 0 <= q < |r| && r[q] == older;
    assert q < p;
  }

  lemma NewerIsEarlier(log: seq<Dated>, newer: Dated, older: Dated)
    requires Recorded(log) && NoneLaterInItsDay(log) && newer in log && older in log && newer.at > older.at
    ensures newer.at % DAY >= older.at % DAY
  {
  }

  /** The seconds at which the events of a history happened. */
  predicate Clocked(h: seq<Event>, at: seq<nat>) {
    && |at| == |h|
    && (forall k | 0 <= k < |h| :: h[k].timestamp == Clock(at[k] % DAY))
    && (forall j, k | 0 <= j < k < |h| :: at[j] <= at[k])
  }

  function DatedBuffer(s: State, at: seq<nat>): (log: seq<Dated>)
    requires |s.activities| <= |at|
    ensures |log| == |s.activities|
    ensures forall i | 0 <= i < |log| :: log[i] == Dated(s.activities[i], at[|at| - 1 - i])
  {
    seq(|s.activities|, i requires 0 <= i < |s.activities| => Dated(s.activities[i], at[|at| - 1 - i]))
  }

  /** Over every run: what GetActivities returns is newest first, up to equal printed times, iff no older event still
      in the buffer has a later time of day than a newer one. */
  lemma ShownNewestFirstIff(steps: seq<Step>, at: seq<nat>)
    requires Clocked(Since(steps), at)
    ensures |Run(steps).activities| <= |at|
    ensures var log := DatedBuffer(Run(steps), at);
            && Entries(log) == Run(steps).activities
            && Entries(StableSort(log, DatedPrecedes)) == StableSort(Run(steps).activities, Precedes)
            && (NewestFirst(StableSort(log, DatedPrecedes)) <==> NoneLaterInItsDay(log))
  {
    RunShowsHistory(steps);
    var log := DatedBuffer(Run(steps), at);
    BufferIsRecorded(Run(steps), Since(steps), at);
    assert Entries(log) == Run(steps).activities;
    NewestFirstIff(log, StableSort(log, DatedPrecedes));
  }

  lemma BufferIsRecorded(s: State, h: seq<Event>, at: seq<nat>)
    requires Clocked(h, at) && Shows(s, h)
    ensures |s.activities| <= |at| && Recorded(DatedBuffer(s, at))
  {
    var log := DatedBuffer(s, at);
    forall i | 0 <= i < |log| ensures log[i].entry.timestamp == Clock(log[i].at % DAY) {
      assert s.activities[i] == EntryAt(h, |h| - 1 - i);
    }
  }

  /** Two events, a before b: the newer one is shown first iff its time of day is the later one, so across midnight the
      older one is on top. */
  lemma MidnightReverses(before: Activity, after: Activity, a: nat, b: nat)
    requires a < b && a % DAY != b % DAY
    requires before.timestamp == Clock(a % DAY) && after.timestamp == Clock(b % DAY)
    ensures StableSort([after, before], Precedes) == [after, before] <==> a % DAY < b % DAY
    ensures StableSort([after, before], Precedes) == [before, after] <==> a % DAY > b % DAY
  {
    ClockOrder(a % DAY, b % DAY);
    ClockOrder(b % DAY, a % DAY);
    if a % DAY > b % DAY {
      PairSorts(after, before, Precedes);
    } else {
      PairStays(after, before, Precedes);
    }
  }

  // The order shown, key by key.

  /** The entries with these three keys, in the order they have. */
  function Pick(s: seq<Activity>, timestamp: string, jobId: string, weight: nat): seq<Activity> {
    if s == [] then [] else
    (if s[0].timestamp == timestamp && s[0].jobId == jobId && Weight(s[0].event) == weight then [s[0]] else [])
      + Pick(s[1..], timestamp, jobId, weight)
  }

  lemma {:induction false} PickIsLike(s: seq<Activity>, k: Activity)
    ensures Pick(s, k.timestamp, k.jobId, Weight(k.event)) == Like(s, Precedes, k)
  {
    if s == [] {
    } else {
      PrecedesIsStrictWeak();
      PickIsLike(s[1..], k);
    }
  }

  lemma {:induction false} PickNothing(s: seq<Activity>, timestamp: string, jobId: string, weight: nat)
    requires forall i | 0 <= i < |s| ::
               !(s[i].timestamp == timestamp && s[i].jobId == jobId && Weight(s[i].event) == weight)
    ensures Pick(s, timestamp, jobId, weight) == []
  {
    if s == [] {
    } else {
      PickNothing(s[1..], timestamp, jobId, weight);
    }
  }

  lemma SamePick(s: seq<Activity>, r: seq<Activity>, timestamp: string, jobId: string, weight: nat)
    requires StablySorts(s, r, Precedes) && multiset(r) == multiset(s)
    ensures Pick(r, timestamp, jobId, weight) == Pick(s, timestamp, jobId, weight)
  {
    if i :| 0 <= i < |s| && s[i].timestamp == timestamp && s[i].jobId == jobId && Weight(s[i].event) == weight {
      PickIsLike(s, s[i]);
      PickIsLike(r, s[i]);
      assert Like(r, Precedes, s[i]) == Like(s, Precedes, s[i]);
    } else {
      forall i | 0 <= i < |r|
        ensures !(r[i].timestamp == timestamp && r[i].jobId == jobId && Weight(r[i].event) == weight)
      {
        assert r[i] in multiset(r);
        assert r[i] in s;
      }
      PickNothing(s, timestamp, jobId, weight);
      PickNothing(r, timestamp, jobId, weight);
    }
  }

  /** The later second on top; within it by job id; within a job the later stage on top. */
  predicate Displayed(upper: Activity, lower: Activity) {
    && !Less(upper.timestamp, lower.timestamp)
    && (upper.timestamp == lower.timestamp ==> !Less(lower.jobId, upper.jobId))
    && (upper.timestamp == lower.timestamp && upper.jobId == lower.jobId ==> Weight(upper.event) >= Weight(lower.event))
  }

  lemma SortedIsDisplayed(r: seq<Activity>)
    requires Sorted(r, Precedes)
    ensures forall i, j | 0 <= i < j < |r| :: Displayed(r[i], r[j])
  {
    forall i, j | 0 <= i < j < |r| ensures Displayed(r[i], r[j]) {
      assert !Precedes(r[j], r[i]);
      LessTotal(r[i].timestamp, r[j].timestamp);
      LessTotal(r[i].jobId, r[j].jobId);
    }
  }

  /** Of two entries of one job in one second the one at the later stage is on top, wherever they were before. */
  lemma LaterStageOnTop(r: seq<Activity>, i: nat, j: nat, upper: Stage, lower: Stage)
    requires forall x, y | 0 <= x < y < |r| :: Displayed(r[x], r[y])
    requires i < |r| && j < |r| && r[i].timestamp == r[j].timestamp && r[i].jobId == r[j].jobId
    requires At(r[i].event, upper) && At(r[j].event, lower) && Rank(upper) > Rank(lower)
    ensures i < j
  {
    WeightRanksStages(r[i].event, upper);
    WeightRanksStages(r[j].event, lower);
  }

  /** What an event leaves in the log, field by field: the newest 200 events since the last clear, newest first. */
  lemma RunShowsEvents(steps: seq<Step>, i: nat)
    ensures |Run(steps).activities| == if |Since(steps)| > 200 then 200 else |Since(steps)|
    ensures i < |Run(steps).activities| ==>
              var a, e := Run(steps).activities[i], Since(steps)[|Since(steps)| - 1 - i];
              && a.timestamp == e.timestamp && a.jobId == e.jobId && a.event == e.status && a.subject == e.subject
              && a.worker == e.worker && a.deliveries == e.deliveries && a.mode == e.mode && a.sequence == e.sequence
              && a.msgId == e.msgId && (e.jobType != "" ==> a.jobType == e.jobType)
  {
    RunShowsHistory(steps);
  }

  class ActivityTracker {
    var activities: seq<Activity>
    var jobTypes: map<string, string>

    function Current(): State
      reads this
    {
      State(activities, jobTypes)
    }

    constructor ()
      ensures Current() == Run([])
    {
      activities, jobTypes := [], map[];
    }

    method AddEvent(e: Event)
      modifies this
      ensures Current() == Next(old(Current()), Add(e))
    {
      var jobType := e.jobType;
      if jobType != "" {
        jobTypes := jobTypes[e.jobId := jobType];
      } else if e.jobId in jobTypes {
        jobType := jobTypes[e.jobId];
      }
      activities := [Entry(e, jobType)] + activities;
      if |activities| > CAP {
        activities := activities[..CAP];
      }
    }

    method ClearActivities()
      modifies this
      ensures Current() == Next(old(Current()), Clear)
    {
      activities, jobTypes := [], map[];
    }

    /** A sorted copy; the buffer keeps its order. */
    method GetActivities() returns (r: seq<Activity>)
      ensures StablySorts(activities, r, Precedes) && multiset(r) == multiset(activities)
      ensures forall i, j | 0 <= i < j < |r| :: Displayed(r[i], r[j])
      ensures forall timestamp, jobId, weight ::
                Pick(r, timestamp, jobId, weight) == Pick(activities, timestamp, jobId, weight)
    {
      var a := Copy();
      PrecedesIsStrictWeak();
      SliceStable(a, Precedes);
      r := a[..];
      StableSortSorts(activities, Precedes);
      StableSortPermutes(activities, Precedes);
      SortedIsDisplayed(r);
      forall timestamp, jobId, weight
        ensures Pick(r, timestamp, jobId, weight) == Pick(activities, timestamp, jobId, weight)
      {
        SamePick(activities, r, timestamp, jobId, weight);
      }
    }

    method Copy() returns (a: array<Activity>)
      ensures fresh(a) && a[..] == activities
    {
      var n := |activities|;
      var blank := Activity("", "", "", "", "", 0, "", 0, "", "");
      a := new Activity[n](i requires 0 <= i < n reads this => if i < |activities| then activities[i] else blank);
    }
  }
}
