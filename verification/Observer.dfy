// The subject observer: one event per message and subject, merged over the subscriptions that received it.

module Observer {

  const CAP: nat := 100

  /** One callback. */
  datatype Call = Call(messageId: string, subscription: string, subject: string, jobId: string, at: nat)

  datatype Seen = Seen(messageId: string, jobId: string, subject: string, receivedBy: seq<string>, at: nat)

  type Key = (string, string)

  function KeyOf(c: Call): Key { (c.messageId, c.subject) }
  function KeyOfSeen(e: Seen): Key { (e.messageId, e.subject) }

  /** The first event with this key, or the length. */
  function Find(v: seq<Seen>, k: Key): (i: nat)
    ensures i <= |v| && (i < |v| ==> KeyOfSeen(v[i]) == k)
    ensures forall j | 0 <= j < i :: KeyOfSeen(v[j]) != k
  {
    if v == [] then 0 else if KeyOfSeen(v[0]) == k then 0 else 1 + Find(v[1..], k)
  }

  lemma FindIs(v: seq<Seen>, k: Key, i: nat)
    requires i <= |v| && (i < |v| ==> KeyOfSeen(v[i]) == k) && forall j | 0 <= j < i :: KeyOfSeen(v[j]) != k
    ensures Find(v, k) == i
  {
  }

  function Merge(e: Seen, c: Call): Seen {
    e.(jobId := if e.jobId == "" then c.jobId else e.jobId,
       receivedBy := if c.subscription in e.receivedBy then e.receivedBy else e.receivedBy + [c.subscription])
  }

  /** RecordEvent */
  function Record(v: seq<Seen>, c: Call): seq<Seen> {
    var i := Find(v, KeyOf(c));
    if i < |v| then v[i := Merge(v[i], c)] else
    var w := v + [Seen(c.messageId, c.jobId, c.subject, [c.subscription], c.at)];
    if |w| > CAP then w[1..] else w
  }

  function Run(calls: seq<Call>): seq<Seen> {
    if calls == [] then [] else Record(Run(calls[..|calls| - 1]), calls[|calls| - 1])
  }

  predicate DuplicateFree(s: seq<string>) {
    forall i, j | 0 <= i < j < |s| :: s[i] != s[j]
  }

  predicate Inv(v: seq<Seen>) {
    && |v| <= CAP
    && (forall i, j | 0 <= i < j < |v| :: KeyOfSeen(v[i]) != KeyOfSeen(v[j]))
    && (forall i | 0 <= i < |v| :: v[i].receivedBy != [] && DuplicateFree(v[i].receivedBy))
  }

  lemma RecordKeeps(v: seq<Seen>, c: Call)
    requires Inv(v)
    ensures Inv(Record(v, c))
  {
  }

  /** In every reachable state: at most 100 events, one per message and subject, each with a non-empty duplicate-free
      list of receivers. */
  lemma {:induction false} RunInv(calls: seq<Call>)
    ensures Inv(Run(calls))
  {
    if calls == [] {
    } else {
      RunInv(calls[..|calls| - 1]);
      RecordKeeps(Run(calls[..|calls| - 1]), calls[|calls| - 1]);
    }
  }

  // What is remembered.

  /** The receivers shown for a key. */
  predicate Shown(v: seq<Seen>, k: Key, subscription: string) {
    exists i | 0 <= i < |v| :: KeyOfSeen(v[i]) == k && subscription in v[i].receivedBy
  }

  predicate Called(calls: seq<Call>, k: Key, subscription: string) {
    exists i | 0 <= i < |calls| :: KeyOf(calls[i]) == k && calls[i].subscription == subscription
  }

  function Keys(calls: seq<Call>): (r: set<Key>)
    ensures forall k :: k in r <==> exists i | 0 <= i < |calls| :: KeyOf(calls[i]) == k
  {
    set i | 0 <= i < |calls| :: KeyOf(calls[i])
  }

  function SeenKeys(v: seq<Seen>): (r: set<Key>)
    ensures forall k :: k in r <==> exists i | 0 <= i < |v| :: KeyOfSeen(v[i]) == k
  {
    set i | 0 <= i < |v| :: KeyOfSeen(v[i])
  }

  /** The receivers shown are exactly the subscriptions that called. */
  ghost predicate Faithful(calls: seq<Call>) {
    forall k, subscription :: Shown(Run(calls), k, subscription) <==> Called(calls, k, subscription)
  }

  lemma {:induction false} DistinctKeys(v: seq<Seen>)
    requires forall i, j | 0 <= i < j < |v| :: KeyOfSeen(v[i]) != KeyOfSeen(v[j])
    ensures |SeenKeys(v)| == |v|
  {
    if v == [] {
    } else {
      var n := |v| - 1;
      DistinctKeys(v[..n]);
      assert SeenKeys(v) == SeenKeys(v[..n]) + {KeyOfSeen(v[n])};
      assert KeyOfSeen(v[n]) !in SeenKeys(v[..n]);
    }
  }

  lemma KeysPrefix(calls: seq<Call>)
    requires calls != []
    ensures Keys(calls) == Keys(calls[..|calls| - 1]) + {KeyOf(calls[|calls| - 1])}
    ensures |Keys(calls[..|calls| - 1])| <= |Keys(calls)|
  {
    var old_, all := Keys(calls[..|calls| - 1]), Keys(calls);
    assert all == old_ + {KeyOf(calls[|calls| - 1])};
    assert all == old_ + (all - old_);
  }

  lemma CalledPrefix(calls: seq<Call>, k: Key, subscription: string)
    requires calls != []
    ensures Called(calls, k, subscription) <==>
              || Called(calls[..|calls| - 1], k, subscription)
              || (KeyOf(calls[|calls| - 1]) == k && calls[|calls| - 1].subscription == subscription)
  {
  }

  lemma RecordShows(v: seq<Seen>, c: Call, k: Key, subscription: string)
    requires Inv(v) && (Find(v, KeyOf(c)) < |v| || |v| < CAP)
    ensures Shown(Record(v, c), k, subscription)
        <==> Shown(v, k, subscription) || (KeyOf(c) == k && c.subscription == subscription)
  {
    var i, w := Find(v, KeyOf(c)), Record(v, c);
    if i < |v| {
      assert KeyOfSeen(w[i]) == KeyOf(c) && c.subscription in w[i].receivedBy;
      if Shown(v, k, subscription) {
        var j :| 0 <= j < |v| && KeyOfSeen(v[j]) == k && subscription in v[j].receivedBy;
        assert KeyOfSeen(w[j]) == k && subscription in w[j].receivedBy;
      }
    } else {
      assert w[|v|].receivedBy == [c.subscription];
      if Shown(v, k, subscription) {
        var j :| 0 <= j < |v| && KeyOfSeen(v[j]) == k && subscription in v[j].receivedBy;
        assert w[j] == v[j];
      }
    }
  }

  lemma {:induction false} FewKeysFaithful(calls: seq<Call>)
    requires |Keys(calls)| <= CAP
    ensures SeenKeys(Run(calls)) == Keys(calls)
    ensures Faithful(calls)
  {
    if calls == [] {
    } else {
      var n := |calls| - 1;
      var v, c := Run(calls[..n]), calls[n];
      KeysPrefix(calls);
      FewKeysFaithful(calls[..n]);
      RunInv(calls[..n]);
      DistinctKeys(v);
      var i := Find(v, KeyOf(c));
      if i == |v| {
        assert KeyOf(c) !in SeenKeys(v);
        assert |Keys(calls)| == |v| + 1;
      }
      RecordKeys(v, c);
      forall k, subscription ensures Shown(Run(calls), k, subscription) <==> Called(calls, k, subscription) {
        RecordShows(v, c, k, subscription);
        CalledPrefix(calls, k, subscription);
      }
    }
  }

  lemma RecordKeys(v: seq<Seen>, c: Call)
    requires Inv(v) && (Find(v, KeyOf(c)) < |v| || |v| < CAP)
    ensures SeenKeys(Record(v, c)) == SeenKeys(v) + {KeyOf(c)}
  {
    var i, w := Find(v, KeyOf(c)), Record(v, c);
    forall k ensures k in SeenKeys(w) <==> k in SeenKeys(v) + {KeyOf(c)} {
      if k in SeenKeys(v) {
        var j :| 0 <= j < |v| && KeyOfSeen(v[j]) == k;
        assert KeyOfSeen(w[j]) == k;
      }
      if k == KeyOf(c) {
        assert if i < |v| then KeyOfSeen(w[i]) == k else KeyOfSeen(w[|v|]) == k;
      }
    }
  }

  lemma Smaller(a: set<Key>, b: set<Key>)
    ensures a <= b ==> |a| <= |b|
  {
    if a <= b { assert b == a + (b - a); }
  }

  /** Nothing is forgotten exactly when at most 100 distinct (message, subject) pairs were seen. */
  lemma FaithfulIffFewKeys(calls: seq<Call>)
    ensures Faithful(calls) <==> |Keys(calls)| <= CAP
  {
    if |Keys(calls)| <= CAP {
      FewKeysFaithful(calls);
    } else {
      var v := Run(calls);
      RunInv(calls);
      DistinctKeys(v);
      Smaller(Keys(calls), SeenKeys(v));
      var k :| k in Keys(calls) && k !in SeenKeys(v);
      var i :| 0 <= i < |calls| && KeyOf(calls[i]) == k;
      assert Called(calls, k, calls[i].subscription);
      assert !Shown(v, k, calls[i].subscription);
    }
  }

  /** So within that bound the receivers of every message do not depend on the order of the callbacks. */
  lemma OrderDoesNotMatter(calls: seq<Call>, calls': seq<Call>, k: Key, subscription: string)
    requires multiset(calls) == multiset(calls') && |Keys(calls)| <= CAP
    ensures Shown(Run(calls), k, subscription) <==> Shown(Run(calls'), k, subscription)
  {
    forall c ensures c in calls <==> c in calls' {
      assert c in multiset(calls) <==> c in multiset(calls');
    }
    forall q ensures q in Keys(calls) <==> q in Keys(calls') {
      if q in Keys(calls) { var i :| 0 <= i < |calls| && KeyOf(calls[i]) == q; assert calls[i] in calls'; }
      if q in Keys(calls') { var i :| 0 <= i < |calls'| && KeyOf(calls'[i]) == q; assert calls'[i] in calls; }
    }
    assert Keys(calls) == Keys(calls');
    FewKeysFaithful(calls);
    FewKeysFaithful(calls');
    CalledMembers(calls, calls', k, subscription);
    CalledMembers(calls', calls, k, subscription);
  }

  lemma CalledMembers(calls: seq<Call>, calls': seq<Call>, k: Key, subscription: string)
    requires forall c | c in calls :: c in calls'
    ensures Called(calls, k, subscription) ==> Called(calls', k, subscription)
  {
    if Called(calls, k, subscription) {
      var i :| 0 <= i < |calls| && KeyOf(calls[i]) == k && calls[i].subscription == subscription;
      assert calls[i] in calls';
    }
  }

  // The state as a function of the whole history.

  /** The last hundred. */
  function Last(fs: seq<nat>): (r: seq<nat>)
    ensures |r| == if |fs| > 100 then 100 else |fs|
    ensures forall x | x in r :: x in fs
  {
    if |fs| > 100 then fs[|fs| - 100..] else fs
  }

  /** One of these calls has the key. */
  predicate AnyAbout(calls: seq<Call>, fs: seq<nat>, k: Key) {
    exists i | 0 <= i < |fs| :: fs[i] < |calls| && KeyOf(calls[fs[i]]) == k
  }

  /** The calls that opened an event: those whose key is not among the hundred events opened last. */
  function Starts(calls: seq<Call>): (fs: seq<nat>)
    ensures forall f | f in fs :: f < |calls|
  {
    if calls == [] then [] else
    var n := |calls| - 1;
    var fs := Starts(calls[..n]);
    if AnyAbout(calls, Last(fs), KeyOf(calls[n])) then fs else fs + [n]
  }

  /** The first job id that a call about k from the f-th on gives. */
  function FirstJobId(calls: seq<Call>, f: nat, k: Key): string {
    if |calls| <= f then "" else
    var c, jobId := calls[|calls| - 1], FirstJobId(calls[..|calls| - 1], f, k);
    if jobId == "" && KeyOf(c) == k then c.jobId else jobId
  }

  /** The subscriptions that called about k from the f-th call on, in the order of their first calls. */
  function Receivers(calls: seq<Call>, f: nat, k: Key): seq<string> {
    if |calls| <= f then [] else
    var c, r := calls[|calls| - 1], Receivers(calls[..|calls| - 1], f, k);
    if KeyOf(c) == k && c.subscription !in r then r + [c.subscription] else r
  }

  /** What the history tells about the event the f-th call opened. */
  function Account(calls: seq<Call>, f: nat): Seen
    requires f < |calls|
  {
    var k := KeyOf(calls[f]);
    Seen(calls[f].messageId, FirstJobId(calls, f, k), calls[f].subject, Receivers(calls, f, k), calls[f].at)
  }

  /** The events are those opened by these calls, as the history tells. */
  ghost predicate Told(calls: seq<Call>, rs: seq<nat>, v: seq<Seen>) {
    |v| == |rs| && forall i | 0 <= i < |v| :: rs[i] < |calls| && v[i] == Account(calls, rs[i])
  }

  ghost predicate Tells(calls: seq<Call>, v: seq<Seen>) {
    Told(calls, Last(Starts(calls)), v)
  }

  /** One more call about another event leaves the account of this one alone. */
  lemma AccountSnoc(calls: seq<Call>, f: nat)
    requires f + 1 < |calls|
    ensures var n := |calls| - 1; var e := Account(calls[..n], f);
            Account(calls, f) == if KeyOf(calls[n]) == KeyOf(calls[f]) then Merge(e, calls[n]) else e
  {
    var n := |calls| - 1;
    assert calls[..n][f] == calls[f];
  }

  lemma AccountNew(calls: seq<Call>)
    requires calls != []
    ensures var c := calls[|calls| - 1];
            Account(calls, |calls| - 1) == Seen(c.messageId, c.jobId, c.subject, [c.subscription], c.at)
  {
    var n := |calls| - 1;
    var k := KeyOf(calls[n]);
    assert FirstJobId(calls[..n], n, k) == "" && Receivers(calls[..n], n, k) == [];
  }

  /** Whether the last call opens an event. */
  lemma OpensIff(calls: seq<Call>, rs: seq<nat>, v: seq<Seen>, k: Key)
    requires calls != [] && Told(calls[..|calls| - 1], rs, v)
    ensures AnyAbout(calls, rs, k) <==> Find(v, k) < |v|
  {
    var n := |calls| - 1;
    forall i | 0 <= i < |rs| ensures rs[i] < n && KeyOfSeen(v[i]) == KeyOf(calls[rs[i]]) {
      assert v[i] == Account(calls[..n], rs[i]) && calls[..n][rs[i]] == calls[rs[i]];
    }
    var i := Find(v, k);
    if i < |v| { assert KeyOf(calls[rs[i]]) == k; }
  }

  /** How the last call changes an event told about before. */
  lemma ToldSnoc(calls: seq<Call>, rs: seq<nat>, v: seq<Seen>, i: nat)
    requires calls != [] && Told(calls[..|calls| - 1], rs, v) && i < |v|
    ensures rs[i] < |calls| - 1
    ensures var c := calls[|calls| - 1];
            Account(calls, rs[i]) == if KeyOf(c) == KeyOfSeen(v[i]) then Merge(v[i], c) else v[i]
  {
    var n := |calls| - 1;
    assert v[i] == Account(calls[..n], rs[i]) && calls[..n][rs[i]] == calls[rs[i]];
    AccountSnoc(calls, rs[i]);
  }

  lemma MergeTold(calls: seq<Call>, rs: seq<nat>, v: seq<Seen>)
    requires calls != [] && Inv(v) && Told(calls[..|calls| - 1], rs, v) && Find(v, KeyOf(calls[|calls| - 1])) < |v|
    ensures Told(calls, rs, Record(v, calls[|calls| - 1]))
  {
    var i := Find(v, KeyOf(calls[|calls| - 1]));
    forall j | 0 <= j < |v|
      ensures rs[j] < |calls| && Record(v, calls[|calls| - 1])[j] == Account(calls, rs[j])
    {
      ToldSnoc(calls, rs, v, j);
      assert j != i ==> KeyOfSeen(v[j]) != KeyOfSeen(v[i]);
    }
  }

  lemma OpenTold(calls: seq<Call>, rs: seq<nat>, v: seq<Seen>)
    requires calls != [] && Inv(v) && Told(calls[..|calls| - 1], rs, v) && Find(v, KeyOf(calls[|calls| - 1])) == |v|
    ensures var all := rs + [|calls| - 1];
            Told(calls, if |rs| == 100 then all[1..] else all, Record(v, calls[|calls| - 1]))
  {
    AccountNew(calls);
    var c, all := calls[|calls| - 1], rs + [|calls| - 1];
    var w := v + [Seen(c.messageId, c.jobId, c.subject, [c.subscription], c.at)];
    forall j | 0 <= j < |w| ensures all[j] < |calls| && w[j] == Account(calls, all[j]) {
      if j < |v| { ToldSnoc(calls, rs, v, j); }
    }
    assert Told(calls, all, w);
    ToldTail(calls, all, w);
  }

  lemma ToldTail(calls: seq<Call>, rs: seq<nat>, v: seq<Seen>)
    requires Told(calls, rs, v) && v != []
    ensures Told(calls, rs[1..], v[1..])
  {
  }

  lemma LastSnoc(fs: seq<nat>, n: nat)
    ensures var all := Last(fs) + [n]; Last(fs + [n]) == if |Last(fs)| == 100 then all[1..] else all
  {
  }

  /** In every reachable state the observer shows the hundred events opened last, in the order they were opened, each
      with the message, subject and time of the call that opened it, the first job id and all the receivers that calls
      about it gave since. So what makes room is always the event opened first. */
  lemma {:induction false} RunTells(calls: seq<Call>)
    ensures Tells(calls, Run(calls))
  {
    if calls == [] {
    } else {
      var n := |calls| - 1;
      RunTells(calls[..n]);
      RunInv(calls[..n]);
      var v, fs := Run(calls[..n]), Starts(calls[..n]);
      OpensIff(calls, Last(fs), v, KeyOf(calls[n]));
      if Find(v, KeyOf(calls[n])) < |v| {
        MergeTold(calls, Last(fs), v);
      } else {
        OpenTold(calls, Last(fs), v);
        LastSnoc(fs, n);
      }
    }
  }

  // The observer and its shared event objects.

  class ObservedEvent {
    const messageId: string
    var jobId: string
    const subject: string
    var receivedBy: seq<string>
    const at: nat

    constructor (messageId: string, jobId: string, subject: string, receivedBy: seq<string>, at: nat)
      ensures this.messageId == messageId && this.jobId == jobId && this.subject == subject
      ensures this.receivedBy == receivedBy && this.at == at
    {
      this.messageId, this.jobId, this.subject, this.receivedBy, this.at := messageId, jobId, subject, receivedBy, at;
    }

    function View(): Seen
      reads this
    {
      Seen(messageId, jobId, subject, receivedBy, at)
    }

    /** Merge one callback into the event. */
    method Receive(c: Call)
      modifies this
      ensures View() == Merge(old(View()), c)
    {
      if jobId == "" { jobId := c.jobId; }
      var j := 0;
      while j < |receivedBy|
        invariant 0 <= j <= |receivedBy| && c.subscription !in receivedBy[..j]
      {
        if receivedBy[j] == c.subscription { return; }
        j := j + 1;
      }
      receivedBy := receivedBy + [c.subscription];
    }
  }

  function ViewAll(events: seq<ObservedEvent>): (v: seq<Seen>)
    reads events
    ensures |v| == |events| && forall i | 0 <= i < |v| :: v[i] == events[i].View()
  {
    if events == [] then [] else [events[0].View()] + ViewAll(events[1..])
  }

  class SubjectObserver {
    var events: seq<ObservedEvent>

    /** No event object is listed twice. */
    ghost predicate Valid()
      reads this
    {
      forall i, j | 0 <= i < j < |events| :: events[i] != events[j]
    }

    constructor ()
      ensures Valid() && ViewAll(events) == Run([])
    {
      events := [];
    }

    method Lookup(messageId: string, subject: string) returns (i: nat)
      ensures i == Find(ViewAll(events), (messageId, subject))
    {
      i := 0;
      ghost var v := ViewAll(events);
      while i < |events|
        invariant 0 <= i <= |events|
        invariant forall j | 0 <= j < i :: KeyOfSeen(v[j]) != (messageId, subject)
      {
        assert v[i] == events[i].View();
        if events[i].messageId == messageId && events[i].subject == subject { break; }
        i := i + 1;
      }
      FindIs(v, (messageId, subject), i);
    }

    method MergeAt(i: nat, c: Call)
      requires Valid() && i < |events|
      modifies events
      ensures Valid() && ViewAll(events) == old(ViewAll(events))[i := Merge(old(ViewAll(events))[i], c)]
    {
      ghost var v := ViewAll(events);
      events[i].Receive(c);
      assert forall j | 0 <= j < |events| && j != i :: events[j].View() == v[j];
    }

    method Append(e: ObservedEvent)
      requires Valid() && e !in events
      modifies this
      ensures Valid()
      ensures var w := old(ViewAll(events)) + [old(e.View())]; ViewAll(events) == if |w| > CAP then w[1..] else w
      ensures forall x | x in events :: x in old(events) || x == e
    {
      events := events + [e];
      if |events| > CAP {
        events := events[1..];
      }
    }

    method RecordEvent(c: Call)
      requires Valid()
      modifies this, events
      ensures Valid() && ViewAll(events) == Record(old(ViewAll(events)), c)
      ensures forall e | e in events :: e in old(events) || fresh(e)
    {
      var i := Lookup(c.messageId, c.subject);
      if i < |events| {
        MergeAt(i, c);
        return;
      }
      var e := new ObservedEvent(c.messageId, c.jobId, c.subject, [c.subscription], c.at);
      Append(e);
    }

    /** Fresh copies, without the message ids. */
    method GetEvents() returns (copies: seq<ObservedEvent>)
      requires Valid()
      ensures forall e | e in copies :: fresh(e)
      ensures forall i, j | 0 <= i < j < |copies| :: copies[i] != copies[j]
      ensures |copies| == |events| && forall i | 0 <= i < |events| ::
          copies[i].View() == events[i].View().(messageId := "")
    {
      copies := [];
      var i := 0;
      while i < |events|
        invariant 0 <= i <= |events| && |copies| == i
        invariant forall e | e in copies :: fresh(e)
        invariant forall j, k | 0 <= j < k < i :: copies[j] != copies[k]
        invariant forall j | 0 <= j < i :: copies[j].View() == events[j].View().(messageId := "")
      {
        var e := events[i];
        var copy := new ObservedEvent("", e.jobId, e.subject, e.receivedBy, e.at);
        copies := copies + [copy];
        i := i + 1;
      }
    }
  }
}
