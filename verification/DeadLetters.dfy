// The dead letter stream JOBS_DLQ: listing it, and ReprocessDLQ, the sweep that repairs and republishes.

module DeadLetters {
  import opened Options
  import opened Jobs
  import opened Worker

  /** One stored entry: not JSON, or the fields the two handlers look at. */
  datatype Letter = Junk | Letter(id: string, kind: string, reason: string, payload: Option<Payload>)

  type Entries = map<nat, Letter>

  /** The sequences at which each broker call (or the JSON encoder) fails during one run. */
  datatype Faults = Faults(
    unreadable: set<nat>, unmarshalable: set<nat>, unpublishable: set<nat>, undeletable: set<nat>)

  const NO_FAULTS := Faults({}, {}, {}, {})

  /** A run of ReprocessDLQ under way: the stream, the messages republished to JOBS, the ids reported, the ids met. */
  datatype Pass = Pass(entries: Entries, sent: seq<Message>, jobs: seq<string>, seen: set<string>)

  function Delete(entries: Entries, q: nat, f: Faults): Entries {
    if q in f.undeletable then entries else entries - {q}
  }

  /** One iteration of the loop, at sequence q. */
  function Visit(p: Pass, q: nat, filter: string, f: Faults, stamp: string): Pass {
    if q !in p.entries || q in f.unreadable then p else
    match p.entries[q]
    case Junk => p
    case Letter(id, kind, _, payload) =>
      if filter != "" && id != filter then p
      else if id == "" || payload.None? || id in p.seen then p.(entries := Delete(p.entries, q, f))
      else if q in f.unmarshalable || q in f.unpublishable then p.(seen := p.seen + {id})
      else
        Pass(Delete(p.entries, q, f), p.sent + [RepairedJob(id, kind, payload.value, stamp)],
             p.jobs + [id], p.seen + {id})
  }

  /** The sweep over the sequences lo <= q < hi; stamps(q) is the time at which q is repaired. */
  function Sweep(entries: Entries, lo: nat, hi: nat, filter: string, f: Faults, stamps: nat -> string): Pass
    requires lo <= hi
    decreases hi - lo
  {
    if lo == hi then Pass(entries, [], [], {})
    else Visit(Sweep(entries, lo, hi - 1, filter, f, stamps), hi - 1, filter, f, stamps(hi - 1))
  }

  // What a run should do, without a loop.

  predicate Matching(entries: Entries, q: nat, filter: string, f: Faults) {
    q in entries && q !in f.unreadable && entries[q].Letter? && (filter == "" || entries[q].id == filter)
  }

  /** A letter that can be replayed. */
  predicate Replayable(entries: Entries, q: nat, filter: string, f: Faults) {
    Matching(entries, q, filter, f) && entries[q].id != "" && entries[q].payload.Some?
  }

  /** The first replayable letter of its job. */
  predicate First(entries: Entries, lo: nat, q: nat, filter: string, f: Faults) {
    Replayable(entries, q, filter, f)
    && forall p | lo <= p < q :: Replayable(entries, p, filter, f) ==> entries[p].id != entries[q].id
  }

  predicate Sent(entries: Entries, lo: nat, q: nat, filter: string, f: Faults) {
    First(entries, lo, q, filter, f) && q !in f.unmarshalable && q !in f.unpublishable
  }

  /** A matching letter leaves the stream unless its deletion fails or it is a job's first letter that could not be
      sent. */
  predicate Leaves(entries: Entries, lo: nat, q: nat, filter: string, f: Faults) {
    && Matching(entries, q, filter, f) && q !in f.undeletable
    && (First(entries, lo, q, filter, f) ==> Sent(entries, lo, q, filter, f))
  }

  /** The letters republished, in stream order. */
  function SentSeqs(entries: Entries, lo: nat, hi: nat, filter: string, f: Faults): (s: seq<nat>)
    requires lo <= hi
    ensures forall i | 0 <= i < |s| :: lo <= s[i] < hi && Sent(entries, lo, s[i], filter, f)
    ensures forall q | lo <= q < hi && Sent(entries, lo, q, filter, f) :: q in s
    ensures forall i, j | 0 <= i < j < |s| :: s[i] < s[j]
    decreases hi - lo
  {
    if lo == hi then [] else
    SentSeqs(entries, lo, hi - 1, filter, f) + if Sent(entries, lo, hi - 1, filter, f) then [hi - 1] else []
  }

  /** What is in the stream once the sequences below k were visited. */
  function Remaining(entries: Entries, lo: nat, k: nat, filter: string, f: Faults): Entries {
    map q | q in entries && !(lo <= q < k && Leaves(entries, lo, q, filter, f)) :: entries[q]
  }

  lemma {:induction false} SweepEntries(
    entries: Entries, lo: nat, hi: nat, filter: string, f: Faults, stamps: nat -> string)
    requires lo <= hi
    ensures var p := Sweep(entries, lo, hi, filter, f, stamps);
            && p.entries == Remaining(entries, lo, hi, filter, f)
            && (forall id :: id in p.seen <==> exists q | lo <= q < hi ::
                Replayable(entries, q, filter, f) && entries[q].id == id)
    decreases hi - lo
  {
    if lo == hi {
    } else {
      var q := hi - 1;
      SweepEntries(entries, lo, q, filter, f, stamps);
      var o, p := Sweep(entries, lo, q, filter, f, stamps), Sweep(entries, lo, hi, filter, f, stamps);
      assert p == Visit(o, q, filter, f, stamps(q));
      assert q in entries ==> q in o.entries && o.entries[q] == entries[q];
      assert Replayable(entries, q, filter, f) ==> (First(entries, lo, q, filter, f) <==> entries[q].id !in o.seen);
      assert p.entries == if Leaves(entries, lo, q, filter, f) then o.entries - {q} else o.entries;
      assert p.seen == if Replayable(entries, q, filter, f) then o.seen + {entries[q].id} else o.seen;
      forall id
        ensures id in p.seen <==> exists q | lo <= q < hi :: Replayable(entries, q, filter, f) && entries[q].id == id
      {
      }
    }
  }

  lemma {:induction false} SweepJobs(
    entries: Entries, lo: nat, hi: nat, filter: string, f: Faults, stamps: nat -> string)
    requires lo <= hi
    ensures var p := Sweep(entries, lo, hi, filter, f, stamps);
            var s := SentSeqs(entries, lo, hi, filter, f);
            && |p.jobs| == |p.sent| == |s|
            && forall i | 0 <= i < |s| :: p.jobs[i] == entries[s[i]].id
                 && p.sent[i] == RepairedJob(entries[s[i]].id, entries[s[i]].kind, entries[s[i]].payload.value,
                     stamps(s[i]))
    decreases hi - lo
  {
    if lo == hi {
    } else {
      var q := hi - 1;
      SweepJobs(entries, lo, q, filter, f, stamps);
      SweepEntries(entries, lo, q, filter, f, stamps);
      var o, p := Sweep(entries, lo, q, filter, f, stamps), Sweep(entries, lo, hi, filter, f, stamps);
      assert p == Visit(o, q, filter, f, stamps(q));
      assert q in entries ==> q in o.entries && o.entries[q] == entries[q];
      assert Replayable(entries, q, filter, f) ==> (First(entries, lo, q, filter, f) <==> entries[q].id !in o.seen);
      if Sent(entries, lo, q, filter, f) {
        assert p.jobs == o.jobs + [entries[q].id];
        assert p.sent == o.sent + [RepairedJob(entries[q].id, entries[q].kind, entries[q].payload.value, stamps(q))];
      } else {
        assert p.jobs == o.jobs && p.sent == o.sent;
      }
    }
  }

  /** ReprocessDLQ refines its declarative reading: what stays in the stream, what is sent and reported and in which
      order, and which ids were met, under any faults. */
  lemma SweepMeaning(entries: Entries, lo: nat, hi: nat, filter: string, f: Faults, stamps: nat -> string)
    requires lo <= hi
    ensures var p := Sweep(entries, lo, hi, filter, f, stamps);
            var s := SentSeqs(entries, lo, hi, filter, f);
            && p.entries == Remaining(entries, lo, hi, filter, f)
            && |p.jobs| == |p.sent| == |s|
            && (forall i | 0 <= i < |s| :: p.jobs[i] == entries[s[i]].id
                  && p.sent[i] == RepairedJob(entries[s[i]].id, entries[s[i]].kind, entries[s[i]].payload.value,
                      stamps(s[i])))
            && (forall id :: id in p.seen <==> exists q | lo <= q < hi ::
                Replayable(entries, q, filter, f) && entries[q].id == id)
  {
    SweepEntries(entries, lo, hi, filter, f, stamps);
    SweepJobs(entries, lo, hi, filter, f, stamps);
  }

  /** What a run sends for a letter: the letter's job, key by key, with mode JETSTREAM, the failure keys gone, and the
      time of the repair. */
  lemma SentCarriesLetter(
    entries: Entries, lo: nat, hi: nat, filter: string, f: Faults, stamps: nat -> string, i: nat)
    requires lo <= hi && i < |SentSeqs(entries, lo, hi, filter, f)|
    ensures var p, q := Sweep(entries, lo, hi, filter, f, stamps), SentSeqs(entries, lo, hi, filter, f)[i];
            && i < |p.sent| && lo <= q < hi && q in entries && entries[q].Letter? && entries[q].payload.Some?
            && Replays(p.sent[i], entries[q].id, entries[q].kind, entries[q].payload.value)
            && p.sent[i].body.value.payload.value["reprocessed_at"] == Str(stamps(q))
  {
    SweepJobs(entries, lo, hi, filter, f, stamps);
    var q := SentSeqs(entries, lo, hi, filter, f)[i];
    assert Sent(entries, lo, q, filter, f);
    RepairReplays(entries[q].id, entries[q].kind, entries[q].payload.value, stamps(q));
  }

  /** What a run does to each entry, in plain terms. One that is unreadable, not JSON or of another job than the one
      asked for stays. One without an id or a payload goes, unsent. Of the others the first of each job is sent, and
      goes unless the sending failed; the later ones go. Whatever goes stays if its deletion fails. */
  lemma EntryFate(entries: Entries, lo: nat, hi: nat, filter: string, f: Faults, stamps: nat -> string, q: nat)
    requires lo <= q < hi && q in entries
    ensures var p, l := Sweep(entries, lo, hi, filter, f, stamps), entries[q];
            if q in f.unreadable || l.Junk? || (filter != "" && l.id != filter) then q in p.entries
            else if l.id == "" || l.payload.None? then q in p.entries <==> q in f.undeletable
            else if exists r | lo <= r < q ::
                      r in entries && r !in f.unreadable && entries[r].Letter? && entries[r].id == l.id
                      && entries[r].payload.Some?
            then q in p.entries <==> q in f.undeletable
            else
              var sendable := q !in f.unmarshalable && q !in f.unpublishable;
              (l.id in p.jobs <==> sendable) && (q in p.entries <==> !sendable || q in f.undeletable)
    ensures "" !in Sweep(entries, lo, hi, filter, f, stamps).jobs
  {
    SweepEntries(entries, lo, hi, filter, f, stamps);
    if entries[q].Letter? { ReportedMeansSent(entries, lo, hi, filter, f, stamps, entries[q].id); }
    ReportedMeansSent(entries, lo, hi, filter, f, stamps, "");
    if First(entries, lo, q, filter, f) { FirstIsEarliest(entries, lo, hi, filter, f, q); }
  }

  lemma FirstIsEarliest(entries: Entries, lo: nat, hi: nat, filter: string, f: Faults, q: nat)
    requires lo <= q < hi && First(entries, lo, q, filter, f)
    ensures forall r | lo <= r < hi && First(entries, lo, r, filter, f) && entries[r].id == entries[q].id :: r == q
  {
  }

  /** Each job is republished at most once per run. */
  lemma EachJobOnce(entries: Entries, lo: nat, hi: nat, filter: string, f: Faults, stamps: nat -> string)
    requires lo <= hi
    ensures var jobs := Sweep(entries, lo, hi, filter, f, stamps).jobs;
            forall i, j | 0 <= i < j < |jobs| :: jobs[i] != jobs[j]
  {
    SweepMeaning(entries, lo, hi, filter, f, stamps);
    var s := SentSeqs(entries, lo, hi, filter, f);
    forall i, j | 0 <= i < j < |s| ensures entries[s[i]].id != entries[s[j]].id {
      assert s[i] < s[j] && Sent(entries, lo, s[i], filter, f) && Sent(entries, lo, s[j], filter, f);
    }
  }

  lemma {:induction false} FirstExists(entries: Entries, lo: nat, q: nat, filter: string, f: Faults) returns (p: nat)
    requires lo <= q && Replayable(entries, q, filter, f)
    ensures lo <= p <= q && First(entries, lo, p, filter, f) && entries[p].id == entries[q].id
    decreases q
  {
    if First(entries, lo, q, filter, f) {
      p := q;
    } else {
      var r :| lo <= r < q && Replayable(entries, r, filter, f) && entries[r].id == entries[q].id;
      p := FirstExists(entries, lo, r, filter, f);
    }
  }

  /** Nothing is lost: a job with a replayable letter is republished, or its first letter is still there. */
  lemma NothingLost(entries: Entries, lo: nat, hi: nat, filter: string, f: Faults, stamps: nat -> string, q: nat)
    requires lo <= q < hi && Replayable(entries, q, filter, f)
    ensures var p := Sweep(entries, lo, hi, filter, f, stamps);
            || entries[q].id in p.jobs
            || exists r | lo <= r <= q && r in p.entries ::
                 Replayable(p.entries, r, filter, f) && p.entries[r].id == entries[q].id
  {
    SweepMeaning(entries, lo, hi, filter, f, stamps);
    var p := Sweep(entries, lo, hi, filter, f, stamps);
    var s := SentSeqs(entries, lo, hi, filter, f);
    var r := FirstExists(entries, lo, q, filter, f);
    if Sent(entries, lo, r, filter, f) {
      var i :| 0 <= i < |s| && s[i] == r;
      assert p.jobs[i] == entries[q].id;
    } else {
      assert r in p.entries;
    }
  }

  /** What does not match, or is not JSON, is not touched, and nothing is invented. */
  lemma OthersUntouched(entries: Entries, lo: nat, hi: nat, filter: string, f: Faults, stamps: nat -> string, q: nat)
    requires lo <= hi
    ensures var p := Sweep(entries, lo, hi, filter, f, stamps);
            && (q in p.entries ==> q in entries && p.entries[q] == entries[q])
            && (q in entries && !Matching(entries, q, filter, f) ==> q in p.entries)
  {
  }

  lemma ReportedMeansSent(
    entries: Entries, lo: nat, hi: nat, filter: string, f: Faults, stamps: nat -> string, id: string)
    requires lo <= hi
    ensures id in Sweep(entries, lo, hi, filter, f, stamps).jobs
       <==> exists q | lo <= q < hi :: Sent(entries, lo, q, filter, f) && entries[q].id == id
  {
    SweepJobs(entries, lo, hi, filter, f, stamps);
    var s, jobs := SentSeqs(entries, lo, hi, filter, f), Sweep(entries, lo, hi, filter, f, stamps).jobs;
    forall q | lo <= q < hi && Sent(entries, lo, q, filter, f) ensures entries[q].id in jobs {
      var i :| 0 <= i < |s| && s[i] == q;
      assert jobs[i] == entries[q].id;
    }
  }

  /** A replayable letter of this job that the run could not read or not delete. */
  predicate LeftBehind(entries: Entries, q: nat, f: Faults, id: string) {
    && q in entries && entries[q].Letter? && entries[q].id == id && entries[q].payload.Some?
    && (q in f.unreadable || q in f.undeletable)
  }

  /** Of a reported job only letters left behind remain. */
  lemma RemainingOfReported(entries: Entries, lo: nat, hi: nat, filter: string, f: Faults, id: string, q: nat, r: nat)
    requires lo <= q < hi && Sent(entries, lo, q, filter, f) && entries[q].id == id
    requires lo <= r < hi && r in entries && entries[r].Letter? && entries[r].id == id && entries[r].payload.Some?
    ensures r in Remaining(entries, lo, hi, filter, f) <==> LeftBehind(entries, r, f, id)
  {
  }

  /** Two runs in a row, exactly: a job the first one reported is replayed by a following one without failures iff the
      first left one of its letters behind. */
  lemma ReplayedAgainIff(
    entries: Entries, lo: nat, hi: nat, filter: string, f: Faults,
    stamps: nat -> string, stamps': nat -> string, id: string)
    requires lo <= hi && id in Sweep(entries, lo, hi, filter, f, stamps).jobs
    ensures id in Sweep(Sweep(entries, lo, hi, filter, f, stamps).entries, lo, hi, filter, NO_FAULTS, stamps').jobs
       <==> exists q | lo <= q < hi :: LeftBehind(entries, q, f, id)
  {
    var left := Remaining(entries, lo, hi, filter, f);
    SweepEntries(entries, lo, hi, filter, f, stamps);
    ReportedMeansSent(entries, lo, hi, filter, f, stamps, id);
    ReportedMeansSent(left, lo, hi, filter, NO_FAULTS, stamps', id);
    var q :| lo <= q < hi && Sent(entries, lo, q, filter, f) && entries[q].id == id;
    if r :| lo <= r < hi && LeftBehind(entries, r, f, id) {
      RemainingOfReported(entries, lo, hi, filter, f, id, q, r);
      var p := FirstExists(left, lo, r, filter, NO_FAULTS);
      assert Sent(left, lo, p, filter, NO_FAULTS);
    }
    if r :| lo <= r < hi && Sent(left, lo, r, filter, NO_FAULTS) && left[r].id == id {
      RemainingOfReported(entries, lo, hi, filter, f, id, q, r);
    }
  }

  /** And with no letter of it left behind it is not replayed again whatever fails in the second run. */
  lemma NoDoubleReplay(
    entries: Entries, lo: nat, hi: nat, filter: string, f: Faults, g: Faults,
    stamps: nat -> string, stamps': nat -> string, id: string)
    requires lo <= hi && id in Sweep(entries, lo, hi, filter, f, stamps).jobs
    requires forall q | lo <= q < hi :: !LeftBehind(entries, q, f, id)
    ensures id !in Sweep(Sweep(entries, lo, hi, filter, f, stamps).entries, lo, hi, filter, g, stamps').jobs
  {
    var left := Remaining(entries, lo, hi, filter, f);
    SweepEntries(entries, lo, hi, filter, f, stamps);
    ReportedMeansSent(entries, lo, hi, filter, f, stamps, id);
    ReportedMeansSent(left, lo, hi, filter, g, stamps', id);
    var q :| lo <= q < hi && Sent(entries, lo, q, filter, f) && entries[q].id == id;
    forall r | lo <= r < hi && Sent(left, lo, r, filter, g) ensures left[r].id != id {
      if left[r].id == id { RemainingOfReported(entries, lo, hi, filter, f, id, q, r); }
    }
  }

  lemma {:induction false} NothingMatching(
    entries: Entries, lo: nat, hi: nat, filter: string, f: Faults, stamps: nat -> string)
    requires lo <= hi
    requires forall q | lo <= q < hi :: !Matching(entries, q, filter, f)
    ensures Sweep(entries, lo, hi, filter, f, stamps) == Pass(entries, [], [], {})
    decreases hi - lo
  {
    if lo == hi {
    } else {
      NothingMatching(entries, lo, hi - 1, filter, f, stamps);
      assert !Matching(entries, hi - 1, filter, f);
    }
  }

  /** After a run without failures, a second one finds nothing to do. */
  lemma SecondRunIdle(
    entries: Entries, lo: nat, hi: nat, filter: string, f: Faults, stamps: nat -> string, stamps': nat -> string)
    requires lo <= hi
    ensures var p := Sweep(entries, lo, hi, filter, NO_FAULTS, stamps);
            Sweep(p.entries, lo, hi, filter, f, stamps') == Pass(p.entries, [], [], {})
  {
    var left := Remaining(entries, lo, hi, filter, NO_FAULTS);
    SweepEntries(entries, lo, hi, filter, NO_FAULTS, stamps);
    forall q | lo <= q < hi ensures !Matching(left, q, filter, f) {
      if Matching(left, q, filter, f) {
        assert Matching(entries, q, filter, NO_FAULTS);
        assert Leaves(entries, lo, q, filter, NO_FAULTS);
        assert false;
      }
    }
    NothingMatching(left, lo, hi, filter, f, stamps');
  }

  // The listing.

  /** GetDLQMessages shows an entry with an id and either a payload or a failure reason. */
  predicate Listed(entries: Entries, q: nat, unreadable: set<nat>) {
    && q in entries && q !in unreadable && entries[q].Letter? && entries[q].id != ""
    && (entries[q].payload.Some? || entries[q].reason != "")
  }

  /** Everything a run can replay is listed. Of what is listed, exactly the letters without a payload are not replayed:
      a run deletes those without sending them. */
  lemma ListedVersusReplayable(entries: Entries, lo: nat, hi: nat, q: nat, f: Faults, stamps: nat -> string)
    requires lo <= q < hi
    ensures Replayable(entries, q, "", f) ==> Listed(entries, q, f.unreadable)
    ensures Listed(entries, q, f.unreadable) ==> (Replayable(entries, q, "", f) <==> entries[q].payload.Some?)
    ensures Listed(entries, q, f.unreadable) && entries[q].payload.None? && q !in f.undeletable
            ==> q !in Sweep(entries, lo, hi, "", f, stamps).entries
  {
    SweepMeaning(entries, lo, hi, "", f, stamps);
  }

  /** The same pass after something else had been published before it. */
  function Onto(p: Pass, earlier: seq<Message>): Pass {
    p.(sent := earlier + p.sent)
  }

  lemma SweepStep(
    entries: Entries, lo: nat, q: nat, filter: string, f: Faults, stamps: nat -> string, earlier: seq<Message>)
    requires lo <= q
    ensures Visit(Onto(Sweep(entries, lo, q, filter, f, stamps), earlier), q, filter, f, stamps(q))
         == Onto(Sweep(entries, lo, q + 1, filter, f, stamps), earlier)
  {
  }

  // The two streams as the handlers see them, and the handlers.

  class Streams {
    var entries: Entries   // JOBS_DLQ
    var first: nat
    var last: nat
    var jobs: seq<Message> // published to JOBS
    var events: seq<string> // ids of the REPROCESSED events sent

    ghost predicate Valid()
      reads this
    {
      first <= last + 1 && forall q | q in entries :: first <= q <= last
    }

    constructor ()
      ensures Valid() && entries == map[] && jobs == [] && events == []
    {
      entries, first, last, jobs, events := map[], 1, 0, [], [];
    }

    method GetMsg(q: nat, f: Faults) returns (m: Option<Letter>)
      ensures m == if q in entries && q !in f.unreadable then Some(entries[q]) else None
    {
      m := if q in entries && q !in f.unreadable then Some(entries[q]) else None;
    }

    method DeleteMsg(q: nat, f: Faults)
      modifies this`entries
      ensures entries == Delete(old(entries), q, f)
    {
      entries := Delete(entries, q, f);
    }

    method Publish(m: Message, q: nat, f: Faults) returns (ok: bool)
      modifies this`jobs
      ensures ok <==> q !in f.unpublishable
      ensures jobs == if ok then old(jobs) + [m] else old(jobs)
    {
      ok := q !in f.unpublishable;
      if ok { jobs := jobs + [m]; }
    }

    /** A publish on jobs.dlq; `stored` is false when it fails or is dropped as a duplicate. */
    method Append(l: Letter, stored: bool)
      requires Valid()
      modifies this`entries, this`last
      ensures Valid() && first == old(first)
      ensures last == old(last) + (if stored then 1 else 0)
      ensures entries == if stored then old(entries)[old(last) + 1 := l] else old(entries)
    {
      if stored {
        last := last + 1;
        entries := entries[last := l];
      }
    }

    method RepairPayload(p: Payload, stamp: string) returns (r: Payload)
      ensures r == Repair(p, stamp)
      ensures forall key | !Reserved(key) :: (key in r <==> key in p) && (key in r ==> r[key] == p[key])
    {
      r := map[];
      var keys := p.Keys;
      while keys != {}
        invariant keys <= p.Keys
        invariant r == map k | k in p && k !in keys && k != "simulate_failure" && k != "simulate_failure_count" :: p[k]
        decreases |keys|
      {
        var k :| k in keys;
        if k != "simulate_failure" && k != "simulate_failure_count" {
          r := r[k := p[k]];
        }
        keys := keys - {k};
      }
      r := r["reprocessed_at" := Str(stamp)]["recovered_from_dlq" := Bool(true)];
    }

    /** The body of the loop. */
    method ReprocessEntry(q: nat, filter: string, f: Faults, stamp: string, reprocessed: seq<string>, seen: set<string>)
      returns (reprocessed': seq<string>, seen': set<string>)
      modifies this`entries, this`jobs, this`events
      ensures reprocessed <= reprocessed' && events == old(events) + reprocessed'[|reprocessed|..]
      ensures Pass(entries, jobs, reprocessed', seen')
          == Visit(Pass(old(entries), old(jobs), reprocessed, seen), q, filter, f, stamp)
    {
      reprocessed', seen' := reprocessed, seen;
      var raw := GetMsg(q, f);
      if raw.None? || raw.value.Junk? { return; }
      var item := raw.value;
      if filter != "" && item.id != filter { return; }
      if item.id == "" || item.payload.None? {
        DeleteMsg(q, f);
        return;
      }
      if item.id in seen {
        DeleteMsg(q, f);
        return;
      }
      seen' := seen + {item.id};
      var payload := RepairPayload(item.payload.value, stamp);
      if q in f.unmarshalable { return; }
      var ok := Publish(Message("JETSTREAM", Some(Job(item.id, item.kind, "JETSTREAM", Some(payload)))), q, f);
      if !ok { return; }
      DeleteMsg(q, f);
      events := events + [item.id];
      reprocessed' := reprocessed + [item.id];
    }

    /** The loop over the stored range. */
    method ReprocessRange(filter: string, f: Faults, stamps: nat -> string) returns (reprocessed: seq<string>)
      requires first <= last + 1
      modifies this`entries, this`jobs, this`events
      ensures exists seen :: Pass(entries, jobs, reprocessed, seen)
                == Onto(Sweep(old(entries), first, last + 1, filter, f, stamps), old(jobs))
      ensures events == old(events) + reprocessed
    {
      reprocessed := [];
      var seen: set<string> := {};
      var q := first;
      ghost var p := Sweep(entries, first, q, filter, f, stamps);
      while q <= last
        invariant first <= q <= last + 1
        invariant p == Sweep(old(entries), first, q, filter, f, stamps)
        invariant Pass(entries, jobs, reprocessed, seen) == Onto(p, old(jobs))
        invariant events == old(events) + reprocessed
        decreases last + 1 - q
      {
        ghost var before := reprocessed;
        SweepStep(old(entries), first, q, filter, f, stamps, old(jobs));
        reprocessed, seen := ReprocessEntry(q, filter, f, stamps(q), reprocessed, seen);
        assert reprocessed == before + reprocessed[|before|..];
        q := q + 1;
        p := Sweep(old(entries), first, q, filter, f, stamps);
      }
    }

    method ReprocessDLQ(filter: string, f: Faults, stamps: nat -> string) returns (reprocessed: seq<string>)
      requires Valid()
      modifies this`entries, this`jobs, this`events
      ensures Valid()
      ensures var p := Sweep(old(entries), first, last + 1, filter, f, stamps);
              entries == p.entries && jobs == old(jobs) + p.sent && reprocessed == p.jobs
      ensures events == old(events) + reprocessed
    {
      if |entries| == 0 {
        NothingMatching(entries, first, last + 1, filter, f, stamps);
        return [];
      }
      reprocessed := ReprocessRange(filter, f, stamps);
      SweepEntries(old(entries), first, last + 1, filter, f, stamps);
    }

    method GetDLQMessages(f: Faults) returns (messages: seq<(nat, Letter)>)
      requires Valid()
      ensures forall i | 0 <= i < |messages| ::
          Listed(entries, messages[i].0, f.unreadable) && messages[i].1 == entries[messages[i].0]
      ensures forall i, j | 0 <= i < j < |messages| :: messages[i].0 < messages[j].0
      ensures forall q | Listed(entries, q, f.unreadable) :: (q, entries[q]) in messages
      ensures forall q, l :: (q, l) in messages <==>
                && q in entries && q !in f.unreadable && l == entries[q]
                && l.Letter? && l.id != "" && (l.payload.Some? || l.reason != "")
    {
      messages := [];
      if |entries| == 0 { return; }
      var q := first;
      while q <= last
        invariant first <= q <= last + 1
        invariant forall i | 0 <= i < |messages| ::
            messages[i].0 < q && Listed(entries, messages[i].0, f.unreadable) && messages[i].1 == entries[messages[i].0]
        invariant forall i, j | 0 <= i < j < |messages| :: messages[i].0 < messages[j].0
        invariant forall p | 0 <= p < q && Listed(entries, p, f.unreadable) :: (p, entries[p]) in messages
        decreases last + 1 - q
      {
        var raw := GetMsg(q, f);
        if raw.Some? && raw.value.Letter? {
          var item := raw.value;
          if item.id != "" && (item.payload.Some? || item.reason != "") {
            messages := messages + [(q, item)];
          }
        }
        q := q + 1;
      }
    }
  }
}
