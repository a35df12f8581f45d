// handleOutOfOrderBatch: three fetched messages acknowledged in the order 1, 3, 2 while other workers
// carry on, message 2 kept alive by heartbeats for ten seconds.

module OutOfOrder {
  import opened Broker

  /** The batch: indices of the three messages, when each was handed out, when the handler started, and how long
      its first consumer.Info call took. Times are milliseconds. */
  datatype Batch = Batch(s1: nat, s2: nat, s3: nat, d1: nat, d2: nat, d3: nat, start: nat, info: nat)

  /** Three messages the consumer has handed out, in any sequence order: redeliveries queue up in an order of their
      own. */
  predicate Distinct<M>(c: Consumer<M>, b: Batch) {
    b.s1 != b.s2 && b.s2 != b.s3 && b.s1 != b.s3 && b.s1 < |c.cells| && b.s2 < |c.cells| && b.s3 < |c.cells|
  }

  /** The batch as the fetch leaves it: handed out within the two seconds before the start, Info within its second. */
  predicate Fetched<M>(c: Consumer<M>, b: Batch) {
    && Valid(c) && Distinct(c, b)
    && !c.cells[b.s1].settled && !c.cells[b.s2].settled && !c.cells[b.s3].settled
    && c.cells[b.s1].readyAt == b.d1 + ACK_WAIT
    && c.cells[b.s2].readyAt == b.d2 + ACK_WAIT
    && c.cells[b.s3].readyAt == b.d3 + ACK_WAIT
    && b.d1 <= b.d2 <= b.d3 <= b.start <= b.d1 + 2000
    && b.info <= 1000
  }

  /** When the handler performs its k-th broker call. */
  function At(b: Batch, k: nat): nat
    requires k <= 5
  {
    if k == 0 then b.start
    else if k == 1 then b.start + 500
    else b.start + 500 + b.info + (if k == 2 then 1000 else if k == 3 then 4000 else if k == 4 then 8000 else 10000)
  }

  function Own<M>(b: Batch, k: nat): Op<M>
    requires 1 <= k <= 5
  {
    if k == 1 then Settle(b.s1)
    else if k == 2 then Settle(b.s3)
    else if k == 3 then Postpone(b.s2, At(b, 3) + ACK_WAIT)
    else if k == 4 then Postpone(b.s2, At(b, 4) + ACK_WAIT)
    else Settle(b.s2)
  }

  /** The message was handed out before: an earlier holder may still acknowledge or Nak it. */
  predicate HasEarlierHolder<M>(c: Consumer<M>, i: nat) {
    i < |c.cells| && c.cells[i].count >= 2
  }

  predicate InBatch(b: Batch, i: nat) {
    i == b.s1 || i == b.s2 || i == b.s3
  }

  /** What others may do between two times: store, try to fetch anything, acknowledge anything, and send heartbeats or
      Naks about what they hold, which includes a message of the batch that they held before. Whether those earlier
      holders may Nak is left open: a worker that decides within AckWait does so before the message is fetched again,
      and only its late Ack or a heartbeat can still arrive. */
  predicate Foreign<M>(c: Consumer<M>, b: Batch, op: Op<M>, naks: bool, from: nat, to: nat) {
    match op
    case Store(_) => true
    case Deliver(_, now) => from <= now <= to
    case Settle(_) => true
    case Postpone(i, readyAt) =>
      InBatch(b, i) ==> readyAt >= from + ACK_WAIT || (naks && HasEarlierHolder(c, i) && readyAt >= from)
  }

  ghost predicate ForeignGaps<M>(c: Consumer<M>, b: Batch, gaps: seq<seq<Op<M>>>, naks: bool) {
    |gaps| == 5
    && forall k, j | 0 <= k < 5 && 0 <= j < |gaps[k]| :: Foreign(c, b, gaps[k][j], naks, At(b, k), At(b, k + 1))
  }

  /** The broker after the handler's first k calls, each preceded by a gap of foreign operations. */
  function Weave<M>(c: Consumer<M>, b: Batch, gaps: seq<seq<Op<M>>>, k: nat): (d: Consumer<M>)
    requires Valid(c) && k <= 5 && |gaps| == 5
    ensures Valid(d)
  {
    if k == 0 then c else
    var before := Exec(Weave(c, b, gaps, k - 1), gaps[k - 1]);
    ApplyKeeps(before, Own(b, k));
    Apply(before, Own(b, k))
  }

  /** The handler's timing: message 1 half a second in; after Info returned, message 3 one second and message 2 ten
      seconds later, and no pause between two signs of life of message 2 that AckWait would not allow. */
  lemma HeldTenSeconds(b: Batch)
    ensures At(b, 1) == b.start + 500
    ensures At(b, 2) == At(b, 1) + b.info + 1000
    ensures At(b, 5) == At(b, 1) + b.info + 10000
    ensures At(b, 3) == At(b, 1) + b.info + 4000 && At(b, 4) == At(b, 3) + 4000 && At(b, 4) - At(b, 3) < ACK_WAIT
    ensures At(b, 5) - At(b, 4) < ACK_WAIT
    ensures At(b, 2) < At(b, 3)
  {
  }

  lemma {:induction false} WeaveExtends<M>(c: Consumer<M>, b: Batch, gaps: seq<seq<Op<M>>>, k: nat)
    requires Valid(c) && k <= 5 && |gaps| == 5
    ensures Extends(c, Weave(c, b, gaps, k))
  {
    if k == 0 {
    } else {
      WeaveExtends(c, b, gaps, k - 1);
      ExecSafe(Weave(c, b, gaps, k - 1), gaps[k - 1]);
      ApplyKeeps(Exec(Weave(c, b, gaps, k - 1), gaps[k - 1]), Own(b, k));
    }
  }

  // Heartbeats.

  /** No one can Nak message i. */
  predicate NoNak<M>(c: Consumer<M>, naks: bool, i: nat) {
    naks ==> !HasEarlierHolder(c, i)
  }

  predicate Touches<M>(op: Op<M>, i: nat) {
    (op.Settle? || op.Postpone?) && op.i == i
  }

  ghost predicate Untouched<M>(ops: seq<Op<M>>, i: nat) {
    forall j | 0 <= j < |ops| :: !Touches(ops[j], i)
  }

  /** The message is settled or not due before `due`. */
  predicate Safe(cell: Cell, due: nat) {
    cell.settled || cell.readyAt >= due
  }

  /** A message of the batch that is settled, or due only after the gap, is not handed out in it. */
  lemma {:induction false} GapKeeps<M>(
    c: Consumer<M>, b: Batch, d: Consumer<M>, ops: seq<Op<M>>, naks: bool, i: nat, from: nat, to: nat, due: nat)
    requires Valid(d) && i < |d.cells| && InBatch(b, i) && NoNak(c, naks, i)
    requires d.cells[i].settled || (Safe(d.cells[i], due) && to < due <= from + ACK_WAIT)
    requires forall j | 0 <= j < |ops| :: Foreign(c, b, ops[j], naks, from, to)
    ensures var e := Exec(d, ops);
            && i < |e.cells| && e.cells[i].count == d.cells[i].count
            && (d.cells[i].settled ==> e.cells[i] == d.cells[i]) && Safe(e.cells[i], due)
            && (Untouched(ops, i) ==> e.cells[i] == d.cells[i])
    decreases |ops|
  {
    if ops == [] {
    } else {
      ApplyKeeps(d, ops[0]);
      assert Foreign(c, b, ops[0], naks, from, to);
      assert Untouched(ops, i) ==> !Touches(ops[0], i) && Untouched(ops[1..], i);
      GapKeeps(c, b, Apply(d, ops[0]), ops[1..], naks, i, from, to, due);
    }
  }

  /** What the handler's k-th call does to message i. */
  function Called(b: Batch, k: nat, i: nat, cell: Cell): Cell
    requires 1 <= k <= 5
  {
    if cell.settled then cell
    else if (k == 1 && i == b.s1) || (k == 2 && i == b.s3) || (k == 5 && i == b.s2) then cell.(settled := true)
    else if 3 <= k <= 4 && i == b.s2 then cell.(readyAt := At(b, k) + ACK_WAIT)
    else cell
  }

  lemma CallStep<M>(d: Consumer<M>, b: Batch, k: nat, i: nat)
    requires Valid(d) && Distinct(d, b) && 1 <= k <= 5 && i < |d.cells|
    ensures var e := Apply(d, Own(b, k)); |e.cells| == |d.cells| && e.cells[i] == Called(b, k, i, d.cells[i])
  {
  }

  lemma WeaveCell<M>(c: Consumer<M>, b: Batch, gaps: seq<seq<Op<M>>>, k: nat, i: nat)
    requires Fetched(c, b) && |gaps| == 5 && 1 <= k <= 5 && i < |c.cells|
    ensures var e, d := Exec(Weave(c, b, gaps, k - 1), gaps[k - 1]), Weave(c, b, gaps, k);
            i < |e.cells| && i < |d.cells| && d.cells[i] == Called(b, k, i, e.cells[i])
  {
    WeaveExtends(c, b, gaps, k - 1);
    ExecSafe(Weave(c, b, gaps, k - 1), gaps[k - 1]);
    CallStep(Exec(Weave(c, b, gaps, k - 1), gaps[k - 1]), b, k, i);
  }

  /** Which of the handler's own calls acknowledges a message of the batch. */
  function OwnAck(b: Batch, i: nat): nat {
    if i == b.s1 then 1 else if i == b.s3 then 2 else 5
  }

  /** When a message of the batch is due after k calls, as the handler arranges it. */
  function Due(b: Batch, k: nat, i: nat): nat
    requires k <= 5
  {
    if i == b.s1 then b.d1 + ACK_WAIT
    else if i == b.s3 then b.d3 + ACK_WAIT
    else if k <= 2 then b.d2 + ACK_WAIT
    else if k == 3 then At(b, 3) + ACK_WAIT
    else At(b, 4) + ACK_WAIT
  }

  /** Nobody but the handler acknowledges, Naks or heartbeats message i in the first k gaps. */
  ghost predicate LeftAlone<M>(gaps: seq<seq<Op<M>>>, k: nat, i: nat)
    requires k <= |gaps|
  {
    k > 0 ==> LeftAlone(gaps, k - 1, i) && Untouched(gaps[k - 1], i)
  }

  lemma DueInTime<M>(c: Consumer<M>, b: Batch, k: nat, i: nat)
    requires Fetched(c, b) && 1 <= k <= 5 && InBatch(b, i) && k <= OwnAck(b, i)
    requires i == b.s2 ==> b.start - b.d2 + b.info < 500
    ensures At(b, k) < Due(b, k - 1, i) <= At(b, k - 1) + ACK_WAIT
  {
  }

  /** Message i after k calls: handed out no more often, and due late enough or settled; and, if the others left it
      alone, exactly as the handler arranged it. */
  predicate Held(b: Batch, k: nat, i: nat, count: nat, cell: Cell, alone: bool)
    requires k <= 5
  {
    && cell.count == count && Safe(cell, Due(b, k, i)) && (k >= OwnAck(b, i) ==> cell.settled)
    && (alone ==> cell == Cell(count, Due(b, k, i), k >= OwnAck(b, i)))
  }

  /** From one call to the next: d is the message before the gap, e after it. */
  lemma HeldStep(b: Batch, k: nat, i: nat, count: nat, d: Cell, e: Cell, before: bool, alone: bool)
    requires 1 <= k <= 5 && InBatch(b, i) && b.s1 != b.s2 && b.s2 != b.s3 && b.s1 != b.s3
    requires Held(b, k - 1, i, count, d, before)
    requires e.count == d.count && (d.settled ==> e == d) && Safe(e, Due(b, k - 1, i)) && (alone ==> before && e == d)
    ensures Held(b, k, i, count, Called(b, k, i, e), alone)
  {
  }

  /** The batch under heartbeats: with batch-fill delay f = start - d2 and Info latency i, f + i < 500 ms keeps
      message 2 from being handed out again before it is acknowledged, whatever others do short of a Nak. Messages 1
      and 3 are safe anyway. */
  lemma {:induction false} BatchHeld<M>(
    c: Consumer<M>, b: Batch, gaps: seq<seq<Op<M>>>, naks: bool, k: nat, i: nat)
    requires Fetched(c, b) && ForeignGaps(c, b, gaps, naks) && k <= 5
    requires InBatch(b, i) && NoNak(c, naks, i)
    requires i == b.s2 ==> b.start - b.d2 + b.info < 500
    ensures var d := Weave(c, b, gaps, k);
            i < |d.cells| && Held(b, k, i, c.cells[i].count, d.cells[i], LeftAlone(gaps, k, i))
  {
    if k == 0 {
    } else {
      BatchHeld(c, b, gaps, naks, k - 1, i);
      if k <= OwnAck(b, i) { DueInTime(c, b, k, i); }
      var d := Weave(c, b, gaps, k - 1);
      var e := Exec(d, gaps[k - 1]);
      GapKeeps(c, b, d, gaps[k - 1], naks, i, At(b, k - 1), At(b, k), Due(b, k - 1, i));
      WeaveCell(c, b, gaps, k, i);
      HeldStep(b, k, i, c.cells[i].count, d.cells[i], e.cells[i], LeftAlone(gaps, k - 1, i), LeftAlone(gaps, k, i));
    }
  }

  /** Messages 1 and 3 are acknowledged before they can be handed out again, however the second one fares. */
  lemma FirstAndThirdInTime<M>(c: Consumer<M>, b: Batch, gaps: seq<seq<Op<M>>>, naks: bool)
    requires Fetched(c, b) && ForeignGaps(c, b, gaps, naks)
    ensures NoNak(c, naks, b.s1) ==>
              var d := Weave(c, b, gaps, 1);
              b.s1 < |d.cells| && d.cells[b.s1].settled && d.cells[b.s1].count == c.cells[b.s1].count
    ensures NoNak(c, naks, b.s3) ==>
              var d := Weave(c, b, gaps, 2);
              b.s3 < |d.cells| && d.cells[b.s3].settled && d.cells[b.s3].count == c.cells[b.s3].count
  {
    if NoNak(c, naks, b.s1) { BatchHeld(c, b, gaps, naks, 1, b.s1); }
    if NoNak(c, naks, b.s3) { BatchHeld(c, b, gaps, naks, 2, b.s3); }
  }

  /** Someone takes message 2 away. */
  ghost predicate Snatched<M>(c: Consumer<M>, b: Batch, gaps: seq<seq<Op<M>>>, naks: bool, k: nat)
    requires Fetched(c, b) && k <= 5
  {
    ForeignGaps(c, b, gaps, naks)
    && var d := Weave(c, b, gaps, k); b.s2 < |d.cells| && d.cells[b.s2].count != c.cells[b.s2].count
  }

  /** A peer's fetch of message 2 just before the first heartbeat. */
  function LateFetch<M>(b: Batch): seq<seq<Op<M>>> {
    [[], [], [Deliver(b.s2, At(b, 3))], [], []]
  }

  lemma NothingCalled<M>(c: Consumer<M>, b: Batch, k: nat)
    requires Fetched(c, b) && k <= 2
    ensures var d := Weave(c, b, LateFetch(b), k); b.s2 < |d.cells| && d.cells[b.s2] == c.cells[b.s2]
  {
    if k == 0 {
    } else {
      NothingCalled(c, b, k - 1);
      WeaveCell(c, b, LateFetch(b), k, b.s2);
    }
  }

  /** Too late: if f + i reaches 500 ms, some peer's fetch before the first heartbeat takes message 2 away. */
  lemma HeartbeatTooLate<M>(c: Consumer<M>, b: Batch, naks: bool)
    requires Fetched(c, b) && b.start - b.d2 + b.info >= 500
    ensures Snatched(c, b, LateFetch(b), naks, 3)
  {
    var d := Weave<M>(c, b, LateFetch(b), 2);
    var fetch: Op<M> := Deliver(b.s2, At(b, 3));
    NothingCalled(c, b, 2);
    assert Exec(d, [fetch]) == Exec(Apply(d, fetch), []);
    WeaveCell(c, b, LateFetch(b), 3, b.s2);
  }

  /** Nor do heartbeats help against the late Nak of an earlier holder, followed by anyone's fetch. */
  lemma EarlierHolderNaks<M>(c: Consumer<M>, b: Batch) returns (gaps: seq<seq<Op<M>>>)
    requires Fetched(c, b) && HasEarlierHolder(c, b.s2)
    ensures Snatched(c, b, gaps, true, 1)
  {
    var ops: seq<Op<M>> := [Postpone(b.s2, b.start), Deliver(b.s2, b.start)];
    gaps := [ops, [], [], [], []];
    assert ForeignGaps(c, b, gaps, true);
    var d := Apply(c, ops[0]);
    ApplyKeeps(c, ops[0]);
    assert Exec(c, ops) == Exec(d, ops[1..]) == Exec(Apply(d, ops[1..][0]), ops[1..][1..]) == Apply(d, ops[1]);
    assert Weave(c, b, gaps, 0) == c;
  }

  /** The heartbeat bound, exactly: message 2 is safe from redelivery iff f + i < 500 ms; if earlier holders may Nak,
      iff besides there is none. */
  lemma HeartbeatBound<M>(c: Consumer<M>, b: Batch, naks: bool)
    requires Fetched(c, b)
    ensures (forall gaps: seq<seq<Op<M>>>, k: nat | k <= 5 :: !Snatched(c, b, gaps, naks, k))
       <==> b.start - b.d2 + b.info < 500 && NoNak(c, naks, b.s2)
  {
    if b.start - b.d2 + b.info >= 500 {
      HeartbeatTooLate(c, b, naks);
    } else if !NoNak(c, naks, b.s2) {
      var gaps := EarlierHolderNaks(c, b);
    } else {
      forall gaps: seq<seq<Op<M>>>, k: nat | k <= 5 ensures !Snatched(c, b, gaps, naks, k) {
        if ForeignGaps(c, b, gaps, naks) { BatchHeld(c, b, gaps, naks, k, b.s2); }
      }
    }
  }

  // The floor. Here the others may do anything at all, at any time.

  predicate Settles<M>(op: Op<M>, i: nat) {
    op.Settle? && op.i == i
  }

  lemma {:induction false} ExecSettles<M>(c: Consumer<M>, ops: seq<Op<M>>, i: nat)
    requires Valid(c) && i < |c.cells|
    ensures var d := Exec(c, ops);
            i < |d.cells| && (d.cells[i].settled <==> c.cells[i].settled || SomeSettles(ops, i))
    decreases |ops|
  {
    if ops == [] {
    } else {
      var d := Apply(c, ops[0]);
      ApplyKeeps(c, ops[0]);
      ExecSettles(d, ops[1..], i);
      assert d.cells[i].settled <==> c.cells[i].settled || Settles(ops[0], i);
      assert forall j | 1 <= j < |ops| :: ops[j] == ops[1..][j - 1];
    }
  }

  predicate SomeSettles<M>(ops: seq<Op<M>>, i: nat) {
    exists j | 0 <= j < |ops| :: Settles(ops[j], i)
  }

  /** Somebody else acknowledges message i in the first k gaps. */
  predicate OthersSettle<M>(gaps: seq<seq<Op<M>>>, k: nat, i: nat)
    requires k <= |gaps|
  {
    k > 0 && (OthersSettle(gaps, k - 1, i) || SomeSettles(gaps[k - 1], i))
  }

  /** The settled bit of a message of the batch: its own call came, or somebody else acknowledged it. */
  lemma {:induction false} WeaveSettles<M>(c: Consumer<M>, b: Batch, gaps: seq<seq<Op<M>>>, k: nat, i: nat)
    requires Fetched(c, b) && |gaps| == 5 && k <= 5 && InBatch(b, i)
    ensures var d := Weave(c, b, gaps, k);
            i < |d.cells| && (d.cells[i].settled <==> k >= OwnAck(b, i) || OthersSettle(gaps, k, i))
  {
    if k == 0 {
    } else {
      WeaveSettles(c, b, gaps, k - 1, i);
      assert k == OwnAck(b, i) <==> Settles(Own<M>(b, k), i);
      ExecSettles(Weave(c, b, gaps, k - 1), gaps[k - 1], i);
      WeaveCell(c, b, gaps, k, i);
    }
  }

  /** The batch's highest message. */
  function Top(b: Batch): nat {
    if b.s1 > b.s2 && b.s1 > b.s3 then b.s1 else if b.s2 > b.s3 then b.s2 else b.s3
  }

  lemma BatchSettled<M>(c: Consumer<M>, b: Batch, gaps: seq<seq<Op<M>>>)
    requires Fetched(c, b) && |gaps| == 5
    ensures var d := Weave(c, b, gaps, 5);
            b.s1 < |d.cells| && b.s2 < |d.cells| && b.s3 < |d.cells|
            && d.cells[b.s1].settled && d.cells[b.s2].settled && d.cells[b.s3].settled
  {
    WeaveSettles(c, b, gaps, 5, b.s1);
    WeaveSettles(c, b, gaps, 5, b.s2);
    WeaveSettles(c, b, gaps, 5, b.s3);
  }

  /** Hole safety, for any batch amid any activity: until somebody acknowledges message 2 the floor stays at or below
      it, however much above it is settled; once the batch is done all three are settled, and the floor is past the
      whole batch exactly when everything below its highest message was settled. The announced value "floor = s3" needs
      the neighbours' consent. */
  lemma HolePinsFloor<M>(c: Consumer<M>, b: Batch, gaps: seq<seq<Op<M>>>, k: nat)
    requires Fetched(c, b) && |gaps| == 5 && k <= 4
    ensures !OthersSettle(gaps, k, b.s2) ==> Weave(c, b, gaps, k).floor <= b.s2
    ensures var d, top := Weave(c, b, gaps, 5), Top(b);
            && IsFloor(d.cells, d.floor)
            && b.s1 < |d.cells| && b.s2 < |d.cells| && b.s3 < |d.cells|
            && d.cells[b.s1].settled && d.cells[b.s2].settled && d.cells[b.s3].settled
            && ((forall i | 0 <= i < top :: d.cells[i].settled) <==> d.floor > top)
            && (d.floor == top + 1 <==> (forall i | 0 <= i < top :: d.cells[i].settled)
                                        && (top + 1 < |d.cells| ==> !d.cells[top + 1].settled))
  {
    WeaveSettles(c, b, gaps, k, b.s2);
    BatchSettled(c, b, gaps);
    FloorAbove(Weave(c, b, gaps, 5).cells, Weave(c, b, gaps, 5).floor, Top(b));
  }

  lemma FloorAbove(cells: seq<Cell>, floor: nat, i: nat)
    requires IsFloor(cells, floor) && i < |cells| && cells[i].settled
    ensures floor > i <==> forall j | 0 <= j < i :: cells[j].settled
    ensures floor == i + 1 <==>
              (forall j | 0 <= j < i :: cells[j].settled) && (i + 1 < |cells| ==> !cells[i + 1].settled)
  {
  }

  /** The documented picture: three adjacent messages right above the floor. In sequence numbers the AckFloor reads s1
      after the first and after the second Ack, and through both heartbeats, and at least s3 after the last, whatever
      else happens in between short of somebody acknowledging message 2. */
  lemma AdjacentBatch<M>(c: Consumer<M>, b: Batch, gaps: seq<seq<Op<M>>>, k: nat)
    requires Fetched(c, b) && |gaps| == 5 && 1 <= k <= 4
    requires c.floor == b.s1 && b.s2 == b.s1 + 1 && b.s3 == b.s1 + 2
    ensures Weave(c, b, gaps, k).floor == b.s1 + 1 <==> !OthersSettle(gaps, k, b.s2)
    ensures var d := Weave(c, b, gaps, 5);
            && d.floor >= b.s3 + 1
            && (d.floor == b.s3 + 1 <==> (b.s3 + 1 < |d.cells| ==> !d.cells[b.s3 + 1].settled))
  {
    WeaveSettles(c, b, gaps, k, b.s1);
    WeaveSettles(c, b, gaps, k, b.s2);
    WeaveExtends(c, b, gaps, k);
    PrefixSettled(c, Weave(c, b, gaps, k));
    FloorBetween(Weave(c, b, gaps, k).cells, Weave(c, b, gaps, k).floor, b.s1);
    BatchSettled(c, b, gaps);
    WeaveExtends(c, b, gaps, 5);
    PrefixSettled(c, Weave(c, b, gaps, 5));
    FloorAbove(Weave(c, b, gaps, 5).cells, Weave(c, b, gaps, 5).floor, b.s3);
  }

  lemma PrefixSettled<M>(c: Consumer<M>, d: Consumer<M>)
    requires Valid(c) && Extends(c, d)
    ensures forall i | 0 <= i < c.floor :: d.cells[i].settled
  {
  }

  lemma FloorBetween(cells: seq<Cell>, floor: nat, i: nat)
    requires IsFloor(cells, floor) && i + 1 < |cells| && cells[i].settled
    requires forall j | 0 <= j < i :: cells[j].settled
    ensures floor == i + 1 <==> !cells[i + 1].settled
  {
  }
}
