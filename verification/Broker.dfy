// The broker's contract for one stream and its pull consumer with explicit acknowledgement: delivery
// counts, AckWait deadlines, the settled set and the contiguous AckFloor.
// A stream sequence number s is index s - 1 here; Last, Delivered and AckFloor are |log|, |cells| and floor.

module Broker {

  const ACK_WAIT: nat := 5000 // milliseconds

  /** What the consumer knows about a delivered message. */
  datatype Cell = Cell(count: nat, readyAt: nat, settled: bool)

  datatype Consumer<M> = Consumer(log: seq<M>, cells: seq<Cell>, floor: nat)

  datatype Op<M> =
    | Store(m: M)                     // append to the stream
    | Deliver(i: nat, now: nat)       // hand a message out, new or again
    | Settle(i: nat)                  // Ack or Term, however late
    | Postpone(i: nat, readyAt: nat)  // Nak, NakWithDelay or InProgress

  /** The message may be handed out now: never delivered yet and next in line, or overdue and not settled. */
  predicate Deliverable<M>(c: Consumer<M>, i: nat, now: nat) {
    (i == |c.cells| < |c.log|) || (i < |c.cells| && !c.cells[i].settled && c.cells[i].readyAt <= now)
  }

  predicate Enabled<M>(c: Consumer<M>, op: Op<M>) {
    match op
    case Store(_) => true
    case Deliver(i, now) => Deliverable(c, i, now)
    case Settle(i) => i < |c.cells|
    case Postpone(i, _) => i < |c.cells|
  }

  /** The floor after position f settled: run over the settled cells that wait above it. */
  function Cascade(cells: seq<Cell>, f: nat): (g: nat)
    requires f <= |cells|
    ensures f <= g <= |cells|
    ensures forall k | f <= k < g :: cells[k].settled
    ensures g < |cells| ==> !cells[g].settled
    decreases |cells| - f
  {
    if f < |cells| && cells[f].settled then Cascade(cells, f + 1) else f
  }

  function DoDeliver<M>(c: Consumer<M>, i: nat, now: nat): Consumer<M>
    requires Deliverable(c, i, now)
  {
    if i == |c.cells| then c.(cells := c.cells + [Cell(1, now + ACK_WAIT, false)])
    else c.(cells := c.cells[i := Cell(c.cells[i].count + 1, now + ACK_WAIT, false)])
  }

  function DoSettle<M>(c: Consumer<M>, i: nat): Consumer<M>
    requires i < |c.cells| && c.floor <= |c.cells|
  {
    if c.cells[i].settled then c else
    var cells := c.cells[i := c.cells[i].(settled := true)];
    Consumer(c.log, cells, if i == c.floor then Cascade(cells, c.floor) else c.floor)
  }

  function DoPostpone<M>(c: Consumer<M>, i: nat, readyAt: nat): Consumer<M>
    requires i < |c.cells|
  {
    if c.cells[i].settled then c else c.(cells := c.cells[i := c.cells[i].(readyAt := readyAt)])
  }

  /** One operation; an operation that is not enabled changes nothing. */
  function Apply<M>(c: Consumer<M>, op: Op<M>): Consumer<M>
    requires c.floor <= |c.cells|
  {
    if !Enabled(c, op) then c else
    match op
    case Store(m) => c.(log := c.log + [m])
    case Deliver(i, now) => DoDeliver(c, i, now)
    case Settle(i) => DoSettle(c, i)
    case Postpone(i, readyAt) => DoPostpone(c, i, readyAt)
  }

  /** AckFloor as documented: the length of the longest contiguous settled prefix. */
  predicate IsFloor(cells: seq<Cell>, f: nat) {
    && f <= |cells|
    && (forall k | 0 <= k < f :: cells[k].settled)
    && (f < |cells| ==> !cells[f].settled)
  }

  predicate Valid<M>(c: Consumer<M>) {
    && IsFloor(c.cells, c.floor)
    && |c.cells| <= |c.log|
    && (forall i | 0 <= i < |c.cells| :: c.cells[i].count >= 1)
  }

  /** What the future may not take back: the log, the watermarks, and everything about a settled message,
      its delivery count included, so a settled message is never handed out again. */
  ghost predicate Extends<M>(c: Consumer<M>, d: Consumer<M>) {
    && c.log <= d.log
    && |c.cells| <= |d.cells|
    && c.floor <= d.floor
    && (forall i | 0 <= i < |c.cells| :: c.cells[i].count <= d.cells[i].count)
    && (forall i | 0 <= i < |c.cells| && c.cells[i].settled :: d.cells[i] == c.cells[i])
  }

  lemma ApplyKeeps<M>(c: Consumer<M>, op: Op<M>)
    requires Valid(c)
    ensures Valid(Apply(c, op)) && Extends(c, Apply(c, op))
  {
  }

  function Exec<M>(c: Consumer<M>, ops: seq<Op<M>>): (d: Consumer<M>)
    requires Valid(c)
    ensures Valid(d)
    decreases |ops|
  {
    if ops == [] then c else
    ApplyKeeps(c, ops[0]);
    Exec(Apply(c, ops[0]), ops[1..])
  }

  /** At-least-once safety over every interleaving of publishes, deliveries, expiries, early and late
      acknowledgements: the incremental AckFloor is the contiguous settled prefix, AckFloor <= Delivered <= Last,
      nothing moves back, and no settled message is delivered again. */
  lemma {:induction false} ExecSafe<M>(c: Consumer<M>, ops: seq<Op<M>>)
    requires Valid(c)
    ensures var d := Exec(c, ops); Extends(c, d) && IsFloor(d.cells, d.floor) && d.floor <= |d.cells| <= |d.log|
    decreases |ops|
  {
    if ops == [] {
    } else {
      ApplyKeeps(c, ops[0]);
      ExecSafe(Apply(c, ops[0]), ops[1..]);
    }
  }

  /** A late or repeated Ack changes nothing. */
  lemma SettleIdempotent<M>(c: Consumer<M>, i: nat)
    requires Valid(c) && i < |c.cells|
    ensures DoSettle(DoSettle(c, i), i) == DoSettle(c, i)
  {
  }

  lemma SettleCells<M>(c: Consumer<M>, i: nat)
    requires i < |c.cells| && c.floor <= |c.cells|
    ensures DoSettle(c, i).cells == c.cells[i := c.cells[i].(settled := true)] && DoSettle(c, i).log == c.log
  {
  }

  /** The order of two Acks leaves no trace: neither in the settled set nor in the floor. */
  lemma SettleCommutes<M>(c: Consumer<M>, i: nat, j: nat)
    requires Valid(c) && i < |c.cells| && j < |c.cells|
    ensures DoSettle(DoSettle(c, i), j) == DoSettle(DoSettle(c, j), i)
  {
    ApplyKeeps(c, Settle(i));
    ApplyKeeps(c, Settle(j));
    ApplyKeeps(DoSettle(c, i), Settle(j));
    ApplyKeeps(DoSettle(c, j), Settle(i));
    var d, e := DoSettle(DoSettle(c, i), j), DoSettle(DoSettle(c, j), i);
    SettleCells(c, i);
    SettleCells(c, j);
    SettleCells(DoSettle(c, i), j);
    SettleCells(DoSettle(c, j), i);
    assert d.cells == e.cells;
    assert IsFloor(d.cells, d.floor) && IsFloor(d.cells, e.floor);
  }
}
