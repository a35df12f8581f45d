// Batches submitted at the same time: their draws, publishes and records interleave.

module Concurrency {
  import opened Options
  import opened Batches

  /** A batch under way. Its ids are known by their tickets, the positions of their draws in the common counter: those
      published and recorded, the one in hand and whether it has been published yet, and the one that was refused. */
  datatype Batch = Batch(
    kind: Kind, size: nat, jobType: string, published: seq<nat>, drawn: Option<nat>, sent: bool, refused: Option<nat>)

  datatype Desk = Desk(start: nat, draws: nat, store: Store, batches: seq<Batch>)

  datatype Step = Take(b: nat) | Send(b: nat, ok: bool) | Enter(b: nat)

  function TicketId(start: nat, kind: Kind, ticket: nat): string {
    JobId(kind, Drawn(start, ticket + 1))
  }

  /** The id in a batch's hand. */
  function DrawnId(d: Desk, i: nat): string
    requires i < |d.batches| && d.batches[i].drawn.Some?
  {
    TicketId(d.start, d.batches[i].kind, d.batches[i].drawn.value)
  }

  predicate Enabled(d: Desk, step: Step) {
    step.b < |d.batches|
    && var b := d.batches[step.b];
       match step
       case Take(_) => b.drawn.None? && b.refused.None? && |b.published| < b.size
       case Send(_, _) => b.drawn.Some? && !b.sent
       case Enter(_) => b.drawn.Some? && b.sent
  }

  /** A batch draws its next id; it publishes the id it drew, or is refused and stops; it records the job it
      published. */
  function Next(d: Desk, step: Step): Desk {
    if !Enabled(d, step) then d else
    var b := d.batches[step.b];
    match step
    case Take(i) => d.(draws := d.draws + 1, batches := d.batches[i := b.(drawn := Some(d.draws), sent := false)])
    case Send(i, ok) =>
      if ok then d.(batches := d.batches[i := b.(sent := true)])
      else d.(batches := d.batches[i := b.(drawn := None, refused := b.drawn)])
    case Enter(i) =>
      d.(store := Added(d.store, AdditionOf(DrawnId(d, i), b.kind, b.jobType)),
         batches := d.batches[i := b.(published := b.published + [b.drawn.value], drawn := None, sent := false)])
  }

  function Run(d: Desk, steps: seq<Step>): Desk
    decreases |steps|
  {
    if steps == [] then d else Run(Next(d, steps[0]), steps[1..])
  }

  predicate Holds(b: Batch, ticket: nat) {
    ticket in b.published || b.drawn == Some(ticket) || b.refused == Some(ticket)
  }

  /** The batch's tickets ascend, the one in hand being the last. */
  ghost predicate Ordered(b: Batch, draws: nat) {
    && (forall j, k | 0 <= j < k < |b.published| :: b.published[j] < b.published[k])
    && (forall ticket: nat | Holds(b, ticket) :: ticket < draws)
    && (b.drawn.Some? ==> b.refused.None? && forall k | 0 <= k < |b.published| :: b.published[k] < b.drawn.value)
    && |b.published| + (if b.drawn.Some? then 1 else 0) <= b.size
  }

  ghost predicate Disjoint(batches: seq<Batch>) {
    forall b, c, ticket: nat | 0 <= b < c < |batches| :: !(Holds(batches[b], ticket) && Holds(batches[c], ticket))
  }

  predicate Publishes(d: Desk, id: string) {
    exists b, k | 0 <= b < |d.batches| && 0 <= k < |d.batches[b].published| ::
      TicketId(d.start, d.batches[b].kind, d.batches[b].published[k]) == id
  }

  /** What a recorded publish leaves in the store. */
  predicate Recorded(before: Store, d: Desk, b: Batch, ticket: nat) {
    var id := TicketId(d.start, b.kind, ticket);
    id in d.store && HistoryOf(d.store, id) == HistoryOf(before, id) + [Status(b.kind)]
  }

  /** The store has gained one status for every published job, and nothing else. */
  ghost predicate Gained(before: Store, d: Desk) {
    && (forall b, k | 0 <= b < |d.batches| && 0 <= k < |d.batches[b].published| ::
          Recorded(before, d, d.batches[b], d.batches[b].published[k]))
    && (forall id | !Publishes(d, id) ::
          HistoryOf(d.store, id) == HistoryOf(before, id) && (id in d.store <==> id in before))
  }

  ghost predicate Orderly(before: Store, d: Desk) {
    && StoreValid(d.store)
    && (forall b | 0 <= b < |d.batches| :: Ordered(d.batches[b], d.draws))
    && Disjoint(d.batches)
    && Gained(before, d)
  }

  lemma DrawsDiffer(start: nat, ticket: nat, ticket': nat)
    requires ticket < ticket' < TWO64
    ensures (start + ticket + 1) % TWO64 != (start + ticket' + 1) % TWO64
  {
  }

  lemma TicketIdsDiffer(start: nat, kind: Kind, kind': Kind, ticket: nat, ticket': nat)
    requires ticket < ticket' < TWO64
    ensures TicketId(start, kind, ticket) != TicketId(start, kind', ticket')
  {
    DrawnIs(start, ticket + 1);
    DrawnIs(start, ticket' + 1);
    DrawsDiffer(start, ticket, ticket');
    JobIdInjective(kind, kind', (start + ticket + 1) % TWO64, (start + ticket' + 1) % TWO64);
  }

  /** What has been published and recorded is the same. */
  predicate SameBooks(d: Desk, e: Desk) {
    && e.start == d.start && e.store == d.store && |e.batches| == |d.batches|
    && forall b | 0 <= b < |d.batches| ::
         e.batches[b].published == d.batches[b].published && e.batches[b].kind == d.batches[b].kind
  }

  lemma SameGains(before: Store, d: Desk, e: Desk)
    requires Gained(before, d) && SameBooks(d, e)
    ensures Gained(before, e)
  {
  }

  lemma TakeKeepsOrder(d: Desk, i: nat)
    requires Enabled(d, Take(i)) && Disjoint(d.batches) && forall b | 0 <= b < |d.batches| ::
        Ordered(d.batches[b], d.draws)
    ensures var e := Next(d, Take(i));
            Disjoint(e.batches) && forall b | 0 <= b < |e.batches| :: Ordered(e.batches[b], e.draws)
  {
    var e := Next(d, Take(i));
    forall b | 0 <= b < |e.batches| ensures Ordered(e.batches[b], e.draws) {
      assert Ordered(d.batches[b], d.draws);
      assert forall ticket: nat | Holds(e.batches[b], ticket) :: Holds(d.batches[b], ticket) || ticket == d.draws;
      var published := d.batches[b].published;
      assert forall k | 0 <= k < |published| :: Holds(d.batches[b], published[k]);
    }
    forall b, c, ticket: nat | 0 <= b < c < |e.batches|
      ensures !(Holds(e.batches[b], ticket) && Holds(e.batches[c], ticket))
    {
      assert Ordered(d.batches[b], d.draws) && Ordered(d.batches[c], d.draws);
      assert !(Holds(d.batches[b], ticket) && Holds(d.batches[c], ticket));
    }
  }

  lemma HandKeepsOrder(d: Desk, step: Step)
    requires !step.Take? && Enabled(d, step) && Disjoint(d.batches)
    requires forall b | 0 <= b < |d.batches| :: Ordered(d.batches[b], d.draws)
    ensures var e := Next(d, step);
            Disjoint(e.batches) && forall b | 0 <= b < |e.batches| :: Ordered(e.batches[b], e.draws)
  {
    var e := Next(d, step);
    forall b | 0 <= b < |e.batches| ensures Ordered(e.batches[b], e.draws) {
      assert Ordered(d.batches[b], d.draws);
      assert forall ticket: nat | Holds(e.batches[b], ticket) :: Holds(d.batches[b], ticket);
    }
    forall b, c, ticket: nat | 0 <= b < c < |e.batches|
      ensures !(Holds(e.batches[b], ticket) && Holds(e.batches[c], ticket))
    {
      assert !(Holds(d.batches[b], ticket) && Holds(d.batches[c], ticket));
    }
  }

  /** The id in a batch's hand is no one's published id. */
  lemma DrawnIsNew(before: Store, d: Desk, i: nat, b: nat, k: nat)
    requires Orderly(before, d) && d.draws <= TWO64 && i < |d.batches| && d.batches[i].drawn.Some?
    requires b < |d.batches| && k < |d.batches[b].published|
    ensures TicketId(d.start, d.batches[b].kind, d.batches[b].published[k])
         != DrawnId(d, i)
  {
    var t, u := d.batches[b].published[k], d.batches[i].drawn.value;
    assert Ordered(d.batches[b], d.draws) && Ordered(d.batches[i], d.draws);
    assert Holds(d.batches[b], t) && Holds(d.batches[i], u);
    assert t != u by {
      if b != i {
        var lo, hi := if b < i then b else i, if b < i then i else b;
        assert !(Holds(d.batches[lo], u) && Holds(d.batches[hi], u));
      }
    }
    if t < u {
      TicketIdsDiffer(d.start, d.batches[b].kind, d.batches[i].kind, t, u);
    } else {
      TicketIdsDiffer(d.start, d.batches[i].kind, d.batches[b].kind, u, t);
    }
  }

  /** Recording adds one id to the published ones. */
  lemma RecordsOneMore(d: Desk, i: nat, id: string)
    requires Enabled(d, Enter(i))
    ensures Publishes(Next(d, Enter(i)), id) <==>
              Publishes(d, id) || id == DrawnId(d, i)
  {
    var e := Next(d, Enter(i));
    var n := |d.batches[i].published|;
    assert e.batches[i].published[n] == d.batches[i].drawn.value;
    if Publishes(d, id) {
      var b, k :| 0 <= b < |d.batches| && 0 <= k < |d.batches[b].published|
                  && TicketId(d.start, d.batches[b].kind, d.batches[b].published[k]) == id;
      assert e.batches[b].kind == d.batches[b].kind && e.batches[b].published[k] == d.batches[b].published[k];
    }
    if Publishes(e, id) {
      var b, k :| 0 <= b < |e.batches| && 0 <= k < |e.batches[b].published|
                  && TicketId(e.start, e.batches[b].kind, e.batches[b].published[k]) == id;
      if k < |d.batches[b].published| {
        assert TicketId(d.start, d.batches[b].kind, d.batches[b].published[k]) == id;
      }
    }
  }

  lemma DrawnUnpublished(before: Store, d: Desk, i: nat)
    requires Orderly(before, d) && d.draws <= TWO64 && Enabled(d, Enter(i))
    ensures !Publishes(d, DrawnId(d, i))
  {
    forall b, k | 0 <= b < |d.batches| && 0 <= k < |d.batches[b].published|
      ensures TicketId(d.start, d.batches[b].kind, d.batches[b].published[k]) != DrawnId(d, i)
    {
      DrawnIsNew(before, d, i, b, k);
    }
  }

  lemma StillRecorded(before: Store, d: Desk, i: nat, b: nat, k: nat)
    requires Orderly(before, d) && d.draws <= TWO64 && Enabled(d, Enter(i))
    requires b < |d.batches| && k < |d.batches[b].published|
    ensures var e := Next(d, Enter(i));
            && e.batches[b].kind == d.batches[b].kind && d.batches[b].published <= e.batches[b].published
            && Recorded(before, e, e.batches[b], d.batches[b].published[k])
  {
    assert Recorded(before, d, d.batches[b], d.batches[b].published[k]);
    DrawnIsNew(before, d, i, b, k);
  }

  lemma RecordKeepsGained(before: Store, d: Desk, i: nat)
    requires Orderly(before, d) && d.draws <= TWO64 && Enabled(d, Enter(i))
    ensures Gained(before, Next(d, Enter(i)))
  {
    var e := Next(d, Enter(i));
    var batch := d.batches[i];
    DrawnUnpublished(before, d, i);
    AddJobKeeps(d.store, AdditionOf(DrawnId(d, i), batch.kind, batch.jobType));
    forall b, k | 0 <= b < |e.batches| && 0 <= k < |e.batches[b].published|
      ensures Recorded(before, e, e.batches[b], e.batches[b].published[k])
    {
      if k < |d.batches[b].published| {
        StillRecorded(before, d, i, b, k);
      }
    }
    forall other | !Publishes(e, other)
      ensures HistoryOf(e.store, other) == HistoryOf(before, other) && (other in e.store <==> other in before)
    {
      RecordsOneMore(d, i, other);
    }
  }

  lemma RecordKeeps(before: Store, d: Desk, i: nat)
    requires Orderly(before, d) && d.draws <= TWO64 && Enabled(d, Enter(i))
    ensures Orderly(before, Next(d, Enter(i)))
  {
    HandKeepsOrder(d, Enter(i));
    RecordKeepsGained(before, d, i);
    AddJobKeeps(d.store, AdditionOf(DrawnId(d, i), d.batches[i].kind, d.batches[i].jobType));
  }

  lemma SendKeeps(before: Store, d: Desk, i: nat, ok: bool)
    requires Orderly(before, d) && Enabled(d, Send(i, ok))
    ensures Orderly(before, Next(d, Send(i, ok)))
  {
    HandKeepsOrder(d, Send(i, ok));
    SameGains(before, d, Next(d, Send(i, ok)));
  }

  lemma TakeKeeps(before: Store, d: Desk, i: nat)
    requires Orderly(before, d) && Enabled(d, Take(i))
    ensures Orderly(before, Next(d, Take(i)))
  {
    TakeKeepsOrder(d, i);
    SameGains(before, d, Next(d, Take(i)));
  }

  lemma StepKeeps(before: Store, d: Desk, step: Step)
    requires Orderly(before, d) && d.draws <= TWO64
    ensures Orderly(before, Next(d, step)) && Next(d, step).draws <= d.draws + 1
  {
    if Enabled(d, step) {
      match step
      case Take(i) => TakeKeeps(before, d, i);
      case Send(i, ok) => SendKeeps(before, d, i, ok);
      case Enter(i) => RecordKeeps(before, d, i);
    }
  }

  lemma {:induction false} RunKeeps(before: Store, d: Desk, steps: seq<Step>)
    requires Orderly(before, d) && d.draws + |steps| <= TWO64
    ensures Orderly(before, Run(d, steps))
    decreases |steps|
  {
    if steps == [] {
    } else {
      StepKeeps(before, d, steps[0]);
      RunKeeps(before, Next(d, steps[0]), steps[1..]);
    }
  }

  /** However the draws, publishes and records of several batches interleave, and wherever some of them are cut short:
      the store has gained, for each job some batch published, exactly that batch's status, and nothing else; no
      ticket is drawn twice; and each batch's tickets ascend. */
  lemma InterleavedBatches(before: Store, start: nat, batches: seq<Batch>, steps: seq<Step>)
    requires StoreValid(before) && |steps| <= TWO64
    requires forall b | 0 <= b < |batches| ::
               batches[b].published == [] && batches[b].drawn.None? && batches[b].refused.None?
    ensures var t := Run(Desk(start, 0, before, batches), steps);
            && StoreValid(t.store) && Gained(before, t) && Disjoint(t.batches)
            && forall b | 0 <= b < |t.batches| :: Ordered(t.batches[b], t.draws)
  {
    var d := Desk(start, 0, before, batches);
    assert forall id :: !Publishes(d, id);
    RunKeeps(before, d, steps);
  }
}
