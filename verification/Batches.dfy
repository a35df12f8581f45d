// Batch submission: job ids drawn from one shared counter, and the job store's append-only history.

module Batches {
  import opened Options
  import opened Strings

  const TWO64: nat := 0x1_0000_0000_0000_0000

  /** SubmitQueueJobs or SubmitStreamJobs. */
  datatype Kind = Queue | Stream

  function Prefix(kind: Kind): string {
    match kind
    case Queue => "job-q-"
    case Stream => "job-js-"
  }

  function Status(kind: Kind): string {
    match kind
    case Queue => "PUBLISHED"
    case Stream => "SUBMITTED"
  }

  /** 100+seq on a uint64. */
  function Number(draw: nat): nat {
    (100 + draw) % TWO64
  }

  /** fmt.Sprintf("job-q-%d", 100+seq), or its stream sibling. */
  function JobId(kind: Kind, draw: nat): string {
    Prefix(kind) + Decimal(Number(draw))
  }

  /** atomic.AddUint64(&queueJobSeq, 1) */
  function Draw(counter: nat): nat {
    (counter + 1) % TWO64
  }

  /** The ids of a sequence of draws, each made by some running batch. */
  function Trace(counter: nat, draws: seq<Kind>): (ids: seq<string>)
    ensures |ids| == |draws|
    decreases |draws|
  {
    if draws == [] then [] else [JobId(draws[0], Draw(counter))] + Trace(Draw(counter), draws[1..])
  }

  lemma {:induction false} TraceAt(counter: nat, draws: seq<Kind>, i: nat)
    requires i < |draws|
    ensures Trace(counter, draws)[i] == JobId(draws[i], (counter + i + 1) % TWO64)
    decreases i
  {
    if i == 0 {
    } else {
      TraceAt(Draw(counter), draws[1..], i - 1);
      SumMod(counter + 1, i);
    }
  }

  lemma SumMod(a: nat, b: nat)
    ensures (a % TWO64 + b) % TWO64 == (a + b) % TWO64
  {
  }

  lemma Congruent(a: nat, b: nat)
    requires a <= b
    ensures a % TWO64 == b % TWO64 <==> (b - a) % TWO64 == 0
  {
  }

  lemma PrefixesDisjoint(a: string, b: string)
    ensures Prefix(Queue) + a != Prefix(Stream) + b
  {
    assert (Prefix(Queue) + a)[4] == 'q' && (Prefix(Stream) + b)[4] == 'j';
  }

  lemma JobIdInjective(k: Kind, l: Kind, c: nat, d: nat)
    requires c < TWO64 && d < TWO64
    ensures JobId(k, c) == JobId(l, d) <==> k == l && c == d
  {
    if JobId(k, c) == JobId(l, d) {
      var x, y := Decimal(Number(c)), Decimal(Number(d));
      if k != l {
        PrefixesDisjoint(if k == Queue then x else y, if k == Queue then y else x);
      }
      assert x == JobId(k, c)[|Prefix(k)|..] && y == JobId(l, d)[|Prefix(l)|..];
      DecimalInjective(Number(c), Number(d));
    }
  }

  /** Ids are unique across any interleaving of batches: two draws give the same id exactly when they are of the same
      kind and a multiple of 2^64 draws apart. */
  lemma IdsCollideIff(counter: nat, draws: seq<Kind>, i: nat, j: nat)
    requires i <= j < |draws|
    ensures Trace(counter, draws)[i] == Trace(counter, draws)[j] <==> draws[i] == draws[j] && (j - i) % TWO64 == 0
  {
    TraceAt(counter, draws, i);
    TraceAt(counter, draws, j);
    JobIdInjective(draws[i], draws[j], (counter + i + 1) % TWO64, (counter + j + 1) % TWO64);
    Congruent(counter + i + 1, counter + j + 1);
  }

  /** In particular no two of up to 2^64 draws collide. */
  lemma IdsDistinct(counter: nat, draws: seq<Kind>)
    requires |draws| <= TWO64
    ensures forall i, j | 0 <= i < j < |draws| :: Trace(counter, draws)[i] != Trace(counter, draws)[j]
  {
    forall i, j | 0 <= i < j < |draws| ensures Trace(counter, draws)[i] != Trace(counter, draws)[j] {
      IdsCollideIff(counter, draws, i, j);
    }
  }

  /** The number in the i-th of the ids drawn from here on. */
  function NumberAt(counter: nat, i: nat): nat {
    Number((counter + i + 1) % TWO64)
  }

  lemma NumberAtIs(counter: nat, i: nat)
    ensures NumberAt(counter, i) == ((101 + counter) % TWO64 + i) % TWO64
  {
  }

  /** The numbers of n draws increase, across batches and so within each, exactly when none of them wraps to zero. */
  lemma NumbersGrowIff(counter: nat, n: nat)
    ensures (forall i, j | 0 <= i < j < n :: NumberAt(counter, i) < NumberAt(counter, j))
       <==> (101 + counter) % TWO64 + n <= TWO64
  {
    var x := (101 + counter) % TWO64;
    forall i: nat ensures NumberAt(counter, i) == (x + i) % TWO64 { NumberAtIs(counter, i); }
    if x + n > TWO64 {
      WrapsAt(x);
      assert NumberAt(counter, TWO64 - 1 - x) > NumberAt(counter, TWO64 - x);
    } else {
      forall i | 0 <= i < n ensures NumberAt(counter, i) == x + i { NoWrap(x + i); }
    }
  }

  lemma NoWrap(y: nat)
    requires y < TWO64
    ensures y % TWO64 == y
  {
  }

  lemma WrapsAt(x: nat)
    requires x < TWO64
    ensures (x + (TWO64 - 1 - x)) % TWO64 == TWO64 - 1
    ensures (x + (TWO64 - x)) % TWO64 == 0
  {
  }

  // The store.

  datatype Record = Record(kind: string, mode: string, trace: string, status: string, history: seq<string>)

  type Store = map<string, Record>

  /** JobStore.AddJob */
  function AddJob(s: Store, id: string, kind: string, mode: string, trace: string, status: string): Store {
    var detail := if id in s then s[id] else Record(kind, mode, trace, status, []);
    s[id := detail.(status := status, trace := if trace != "" then trace else detail.trace,
        history := detail.history + [status])]
  }

  predicate StoreValid(s: Store) {
    forall id | id in s :: s[id].history != [] && s[id].status == s[id].history[|s[id].history| - 1]
  }

  /** Histories only grow, and what a record says beside its status and trace never changes. */
  ghost predicate StoreExtends(s: Store, t: Store) {
    forall id | id in s :: id in t && s[id].history <= t[id].history && t[id].kind == s[id].kind
        && t[id].mode == s[id].mode
  }

  datatype Addition = Addition(id: string, kind: string, mode: string, trace: string, status: string)

  function Added(s: Store, a: Addition): Store {
    AddJob(s, a.id, a.kind, a.mode, a.trace, a.status)
  }

  function AddAll(s: Store, adds: seq<Addition>): Store {
    if adds == [] then s else Added(AddAll(s, adds[..|adds| - 1]), adds[|adds| - 1])
  }

  /** The statuses given to one job, in order. */
  function StatusesOf(adds: seq<Addition>, id: string): seq<string> {
    if adds == [] then [] else
    StatusesOf(adds[..|adds| - 1], id) + if adds[|adds| - 1].id == id then [adds[|adds| - 1].status] else []
  }

  lemma AddJobKeeps(s: Store, a: Addition)
    requires StoreValid(s)
    ensures var t := Added(s, a);
            && StoreValid(t) && StoreExtends(s, t)
            && t.Keys == s.Keys + {a.id}
            && t[a.id].history == (if a.id in s then s[a.id].history else []) + [a.status]
  {
  }

  lemma {:induction false} AddAllKeeps(s: Store, adds: seq<Addition>)
    requires StoreValid(s)
    ensures StoreValid(AddAll(s, adds)) && StoreExtends(s, AddAll(s, adds))
  {
    if adds == [] {
    } else {
      var n := |adds| - 1;
      AddAllKeeps(s, adds[..n]);
      AddJobKeeps(AddAll(s, adds[..n]), adds[n]);
    }
  }

  function HistoryOf(s: Store, id: string): seq<string> {
    if id in s then s[id].history else []
  }

  lemma {:induction false} Histories(s: Store, adds: seq<Addition>, id: string)
    ensures HistoryOf(AddAll(s, adds), id) == HistoryOf(s, id) + StatusesOf(adds, id)
    ensures id in AddAll(s, adds) <==> id in s || StatusesOf(adds, id) != []
  {
    if adds == [] {
    } else {
      var n := |adds| - 1;
      var a, t := adds[n], AddAll(s, adds[..n]);
      Histories(s, adds[..n], id);
      assert AddAll(s, adds) == Added(t, a);
      assert HistoryOf(AddAll(s, adds), id) == HistoryOf(t, id) + if a.id == id then [a.status] else [];
      assert (HistoryOf(s, id) + StatusesOf(adds[..n], id)) + [a.status]
          == HistoryOf(s, id) + (StatusesOf(adds[..n], id) + [a.status]);
    }
  }

  /** After any additions a job's history is what it was plus exactly the statuses given to it, and its status is the
      last. */
  lemma HistoryIsTheStatuses(s: Store, adds: seq<Addition>, id: string)
    requires StoreValid(s)
    ensures var t := AddAll(s, adds);
            && StoreValid(t) && StoreExtends(s, t)
            && (id in t <==> id in s || StatusesOf(adds, id) != [])
            && HistoryOf(t, id) == HistoryOf(s, id) + StatusesOf(adds, id)
  {
    AddAllKeeps(s, adds);
    Histories(s, adds, id);
  }

  /** The trace id last given to a job. */
  function LatestTrace(adds: seq<Addition>, id: string): string {
    if adds == [] then "" else
    var a := adds[|adds| - 1];
    if a.id == id && a.trace != "" then a.trace else LatestTrace(adds[..|adds| - 1], id)
  }

  /** The record of a job that was new with this addition: type and mode as then given, trace and status as last
      given. */
  predicate RecordIs(t: Store, first: Addition, trace: string, status: string) {
    && first.id in t && t[first.id].kind == first.kind && t[first.id].mode == first.mode
    && t[first.id].trace == trace && t[first.id].status == status
  }

  lemma RecordNext(t: Store, first: Addition, trace: string, status: string, a: Addition)
    requires RecordIs(t, first, trace, status)
    ensures RecordIs(Added(t, a), first, if a.id == first.id && a.trace != "" then a.trace else trace,
                     if a.id == first.id then a.status else status)
  {
  }

  function LatestStatus(adds: seq<Addition>, id: string): string {
    if adds == [] then "" else
    if adds[|adds| - 1].id == id then adds[|adds| - 1].status else LatestStatus(adds[..|adds| - 1], id)
  }

  /** What the record of a new job says: type and mode as first submitted, the trace and the status last given. */
  lemma {:induction false} RecordOfNew(s: Store, adds: seq<Addition>, i: nat)
    requires i < |adds| && adds[i].id !in s && forall j | 0 <= j < i :: adds[j].id != adds[i].id
    ensures RecordIs(AddAll(s, adds), adds[i], LatestTrace(adds, adds[i].id), LatestStatus(adds, adds[i].id))
    decreases |adds|
  {
    var n, id := |adds| - 1, adds[i].id;
    if i == n {
      NoStatuses(adds[..n], id);
      Histories(s, adds[..n], id);
    } else {
      assert adds[..n][i] == adds[i];
      RecordOfNew(s, adds[..n], i);
      RecordNext(AddAll(s, adds[..n]), adds[i], LatestTrace(adds[..n], id), LatestStatus(adds[..n], id), adds[n]);
    }
  }

  lemma {:induction false} NoStatuses(adds: seq<Addition>, id: string)
    requires forall j | 0 <= j < |adds| :: adds[j].id != id
    ensures StatusesOf(adds, id) == [] && LatestTrace(adds, id) == ""
  {
    if adds == [] {
    } else {
      NoStatuses(adds[..|adds| - 1], id);
    }
  }

  datatype Response = Published(ids: seq<string>) | PublishFailed(id: string)

  function JobType(kind: Kind, requested: string): string {
    if requested != "" then requested else if kind == Queue then "queue-task" else "image-processing"
  }

  function AdditionOf(id: string, kind: Kind, jobType: string): Addition {
    Addition(id, jobType, if kind == Queue then "CORE" else "JETSTREAM", "", Status(kind))
  }

  function Additions(ids: seq<string>, kind: Kind, jobType: string): seq<Addition> {
    seq(|ids|, k requires 0 <= k < |ids| => AdditionOf(ids[k], kind, jobType))
  }

  lemma {:induction false} AdditionsStatuses(ids: seq<string>, kind: Kind, jobType: string, id: string)
    requires forall i, j | 0 <= i < j < |ids| :: ids[i] != ids[j]
    ensures StatusesOf(Additions(ids, kind, jobType), id) == if id in ids then [Status(kind)] else []
  {
    if ids == [] {
    } else {
      var n := |ids| - 1;
      var last := ids[n];
      AdditionsStatuses(ids[..n], kind, jobType, id);
      AdditionsSnoc(ids[..n], kind, jobType, last);
      StatusesSnoc(Additions(ids[..n], kind, jobType), AdditionOf(last, kind, jobType), id);
      assert ids == ids[..n] + [last];
      assert last !in ids[..n];
    }
  }

  lemma StatusesSnoc(adds: seq<Addition>, a: Addition, id: string)
    ensures StatusesOf(adds + [a], id) == StatusesOf(adds, id) + if a.id == id then [a.status] else []
  {
  }

  /** The batch position at which publishing first fails, or the batch size. */
  function FirstRefused(n: nat, refused: set<nat>): (k: nat)
    ensures k <= n && (k < n ==> k in refused)
    ensures forall j | 0 <= j < k :: j !in refused
  {
    if n == 0 then 0 else
    var k := FirstRefused(n - 1, refused);
    if k < n - 1 || n - 1 in refused then k else n
  }

  lemma FirstRefusedIs(n: nat, refused: set<nat>, i: nat)
    requires i <= n && (i < n ==> i in refused) && forall j | 0 <= j < i :: j !in refused
    ensures FirstRefused(n, refused) == i
  {
  }

  /** The ids a batch of n draws. */
  function BatchIds(counter: nat, kind: Kind, n: nat): seq<string> {
    Trace(counter, seq(n, _ => kind))
  }

  lemma BatchLength(counter: nat, kind: Kind, n: nat)
    ensures |BatchIds(counter, kind, n)| == n
  {
  }

  /** The counter after k draws. */
  function Drawn(counter: nat, k: nat): nat {
    if k == 0 then counter else Draw(Drawn(counter, k - 1))
  }

  lemma {:induction false} DrawnIs(counter: nat, k: nat)
    ensures Drawn(counter, k) == if k == 0 then counter else (counter + k) % TWO64
  {
    if k <= 1 {
    } else {
      DrawnIs(counter, k - 1);
      SumMod(counter + k - 1, 1);
    }
  }

  lemma NextId(counter: nat, kind: Kind, n: nat, i: nat)
    requires i < n
    ensures |BatchIds(counter, kind, n)| == n
    ensures BatchIds(counter, kind, n)[i] == JobId(kind, Drawn(counter, i + 1))
  {
    TraceAt(counter, seq(n, _ => kind), i);
    DrawnIs(counter, i + 1);
  }

  /** After a batch of fewer than 2^64 new ids the store holds, beside what it held, exactly the published prefix,
      each with the one status it was published under. */
  lemma BatchGainsPrefix(s: Store, counter: nat, kind: Kind, n: nat, k: nat, jobType: string, id: string)
    requires StoreValid(s) && k <= n <= TWO64
    requires forall i | 0 <= i < n :: BatchIds(counter, kind, n)[i] !in s
    ensures var ids := BatchIds(counter, kind, n)[..k];
            var t := AddAll(s, Additions(ids, kind, jobType));
            && (id in t <==> id in s || id in ids)
            && (id in s ==> t[id].history == s[id].history)
            && (id in ids ==> t[id].history == [Status(kind)] && t[id].status == Status(kind))
  {
    var all := BatchIds(counter, kind, n);
    IdsDistinct(counter, seq(n, _ => kind));
    AdditionsStatuses(all[..k], kind, jobType, id);
    HistoryIsTheStatuses(s, Additions(all[..k], kind, jobType), id);
  }

  /** What a batch writes for its i-th published job: the id by its kind and draw, and a record of that kind's mode and
      status and of the requested type, or the kind's own. */
  lemma BatchWrites(s: Store, counter: nat, kind: Kind, n: nat, k: nat, requested: string, i: nat)
    requires StoreValid(s) && i < k <= n <= TWO64
    requires forall j | 0 <= j < n :: BatchIds(counter, kind, n)[j] !in s
    ensures var ids := BatchIds(counter, kind, n);
            var t := AddAll(s, Additions(ids[..k], kind, JobType(kind, requested)));
            && ids[i] == (if kind.Queue? then "job-q-" else "job-js-")
                         + Decimal((101 + counter + i) % 0x1_0000_0000_0000_0000)
            && ids[i] in t
            && t[ids[i]].mode == (if kind.Queue? then "CORE" else "JETSTREAM")
            && t[ids[i]].status == (if kind.Queue? then "PUBLISHED" else "SUBMITTED")
            && t[ids[i]].history == [t[ids[i]].status]
            && t[ids[i]].kind == if requested != "" then requested
                                 else if kind.Queue? then "queue-task" else "image-processing"
  {
    BatchIdIs(counter, kind, n, i);
    BatchRecord(s, BatchIds(counter, kind, n)[..k], kind, JobType(kind, requested), i) by {
      IdsDistinct(counter, seq(n, _ => kind));
    }
  }

  lemma BatchIdIs(counter: nat, kind: Kind, n: nat, i: nat)
    requires i < n
    ensures |BatchIds(counter, kind, n)| == n
    ensures BatchIds(counter, kind, n)[i] == Prefix(kind) + Decimal((101 + counter + i) % TWO64)
  {
    TraceAt(counter, seq(n, _ => kind), i);
    NumberAtIs(counter, i);
    SumMod(101 + counter, i);
  }

  lemma BatchRecord(s: Store, ids: seq<string>, kind: Kind, jobType: string, i: nat)
    requires StoreValid(s) && i < |ids| && ids[i] !in s && forall x, y | 0 <= x < y < |ids| :: ids[x] != ids[y]
    ensures var t := AddAll(s, Additions(ids, kind, jobType));
            && ids[i] in t && t[ids[i]].kind == jobType && t[ids[i]].history == [Status(kind)]
            && t[ids[i]].mode == (if kind == Queue then "CORE" else "JETSTREAM") && t[ids[i]].status == Status(kind)
  {
    var adds := Additions(ids, kind, jobType);
    assert forall j | 0 <= j < |adds| :: adds[j].id == ids[j];
    RecordOfNew(s, adds, i);
    AdditionsStatuses(ids, kind, jobType, ids[i]);
    HistoryIsTheStatuses(s, adds, ids[i]);
  }

  /** The first i jobs of a batch of n have been published and recorded. */
  predicate Submitted(
    before: Store, start: nat, kind: Kind, n: nat, jobType: string,
    i: nat, published: seq<string>, store: Store, counter: nat)
  {
    && |BatchIds(start, kind, n)| == n && i <= n && published == BatchIds(start, kind, n)[..i]
    && counter == Drawn(start, i) && store == AddAll(before, Additions(published, kind, jobType))
  }

  lemma SubmittedOneMore(
    before: Store, start: nat, kind: Kind, n: nat, jobType: string,
    i: nat, published: seq<string>, store: Store, counter: nat)
    requires Submitted(before, start, kind, n, jobType, i, published, store, counter) && i < n
    ensures var id := JobId(kind, Draw(counter));
            && id == BatchIds(start, kind, n)[i] && Draw(counter) == Drawn(start, i + 1)
            && Submitted(before, start, kind, n, jobType, i + 1, published + [id],
                         Added(store, AdditionOf(id, kind, jobType)), Draw(counter))
  {
    NextId(start, kind, n, i);
    AddAllSnoc(before, published, kind, jobType, JobId(kind, Draw(counter)));
    PrefixGrows(BatchIds(start, kind, n), i);
  }

  class Service {
    var queueJobSeq: nat
    var store: Store

    constructor ()
      ensures queueJobSeq == 0 && store == map[]
    {
      queueJobSeq, store := 0, map[];
    }

    /** One iteration: draw, publish, record. */
    method SubmitOne(kind: Kind, jobType: string, ok: bool) returns (id: string)
      modifies this
      ensures queueJobSeq == Draw(old(queueJobSeq)) && id == JobId(kind, queueJobSeq)
      ensures store == if ok then Added(old(store), AdditionOf(id, kind, jobType)) else old(store)
    {
      queueJobSeq := Draw(queueJobSeq);
      id := JobId(kind, queueJobSeq);
      if ok {
        store := AddJob(store, id, jobType, if kind == Queue then "CORE" else "JETSTREAM", "", Status(kind));
      }
    }

    /** The same, for the job at position i of a batch under way. */
    method SubmitNext(
      ghost before: Store, ghost start: nat, kind: Kind, ghost n: nat, jobType: string,
      ghost i: nat, ghost published: seq<string>, ok: bool)
      returns (id: string)
      requires i < n && Submitted(before, start, kind, n, jobType, i, published, store, queueJobSeq)
      modifies this
      ensures id == BatchIds(start, kind, n)[i] && queueJobSeq == Drawn(start, i + 1)
      ensures ok ==> Submitted(before, start, kind, n, jobType, i + 1, published + [id], store, queueJobSeq)
      ensures !ok ==> store == old(store)
    {
      SubmittedOneMore(before, start, kind, n, jobType, i, published, store, queueJobSeq);
      id := SubmitOne(kind, jobType, ok);
    }

    /** The loop: publish until the first refusal. */
    method PublishUntilRefused(n: nat, kind: Kind, jobType: string, refused: set<nat>)
      returns (published: seq<string>, failed: Option<string>)
      modifies this
      ensures Submitted(old(store), old(queueJobSeq), kind, n, jobType, |published|, published, store,
                        Drawn(old(queueJobSeq), |published|))
      ensures forall j | 0 <= j < |published| :: j !in refused
      ensures failed.None? ==> |published| == n && queueJobSeq == Drawn(old(queueJobSeq), n)
      ensures failed.Some? ==>
                && |published| < n && |published| in refused && queueJobSeq == Drawn(old(queueJobSeq), |published| + 1)
                && failed.value == BatchIds(old(queueJobSeq), kind, n)[|published|]
    {
      published := [];
      BatchLength(queueJobSeq, kind, n);
      var i := 0;
      while i < n
        invariant i == |published| <= n
        invariant Submitted(old(store), old(queueJobSeq), kind, n, jobType, i, published, store, queueJobSeq)
        invariant forall j | 0 <= j < i :: j !in refused
      {
        var id := SubmitNext(old(store), old(queueJobSeq), kind, n, jobType, i, published, i !in refused);
        if i in refused {
          return published, Some(id);
        }
        published := published + [id];
        i := i + 1;
      }
      failed := None;
    }

    /** SubmitQueueJobs and SubmitStreamJobs; `refused` are the batch positions (from 0) whose publish fails. The batch
        stops at the first of them: the store has gained exactly the jobs before it, the counter is one past it. */
    method SubmitBatch(kind: Kind, count: int, requested: string, refused: set<nat>) returns (r: Response)
      modifies this
      ensures var n := BatchSize(count);
              var k := FirstRefused(n, refused);
              var ids := BatchIds(old(queueJobSeq), kind, n);
              && store == AddAll(old(store), Additions(ids[..k], kind, JobType(kind, requested)))
              && r == (if k == n then Published(ids) else PublishFailed(ids[k]))
              && queueJobSeq == Drawn(old(queueJobSeq), if k == n then n else k + 1)
      ensures r.Published? ==> |r.ids| == if count <= 0 then 10 else count
    {
      var n := BatchSize(count);
      var published, failed := PublishUntilRefused(n, kind, JobType(kind, requested), refused);
      FirstRefusedIs(n, refused, |published|);
      r := if failed.Some? then PublishFailed(failed.value) else Published(published);
    }
  }

  function BatchSize(count: int): (n: nat)
    ensures n >= 1
  {
    if count <= 0 then 10 else count
  }

  lemma PrefixGrows(ids: seq<string>, i: nat)
    requires i < |ids|
    ensures ids[..i] + [ids[i]] == ids[..i + 1]
  {
  }

  lemma AddAllSnoc(s: Store, ids: seq<string>, kind: Kind, jobType: string, id: string)
    ensures AddAll(s, Additions(ids + [id], kind, jobType))
        == Added(AddAll(s, Additions(ids, kind, jobType)), AdditionOf(id, kind, jobType))
  {
    var adds, a := Additions(ids, kind, jobType), AdditionOf(id, kind, jobType);
    AdditionsSnoc(ids, kind, jobType, id);
    assert (adds + [a])[..|adds|] == adds;
  }

  lemma AdditionsSnoc(ids: seq<string>, kind: Kind, jobType: string, id: string)
    ensures Additions(ids + [id], kind, jobType) == Additions(ids, kind, jobType) + [AdditionOf(id, kind, jobType)]
  {
  }
}
