// What happens to the pool when a reconfiguration, or a crash of a worker no longer in it, meets the supervisor's
// timers: where Pool's assumption of order is needed, and exactly when doing without it does no harm.

module Respawns {
  import opened Pool

  /** A run of timers going off. */
  ghost predicate Timers(s: State, steps: seq<Step>)
    decreases |steps|
  {
    steps == [] || (steps[0].Respawn? && Enabled(s, steps[0]) && Timers(Next(s, steps[0]), steps[1..]))
  }

  function Fire(s: State, steps: seq<Step>): State
    requires Timers(s, steps)
    decreases |steps|
  {
    if steps == [] then s else Fire(Next(s, steps[0]), steps[1..])
  }

  /** The workers whose timers go off, in order. */
  function Fired(s: State, steps: seq<Step>): (ws: seq<nat>)
    requires Timers(s, steps)
    ensures |ws| == |steps|
    decreases |steps|
  {
    if steps == [] then [] else [s.pending[steps[0].j]] + Fired(Next(s, steps[0]), steps[1..])
  }

  /** Every timer counts one worker up and starts one loop; none of them removes a slot. */
  lemma {:induction false} FireCounts(s: State, steps: seq<Step>)
    requires Timers(s, steps)
    ensures var t := Fire(s, steps);
            && t.workers == s.workers && t.active == s.active + |steps| && t.next == s.next + |steps|
            && |t.pending| == |s.pending| - |steps|
            && |s.slots| <= |t.slots| <= |s.slots| + |steps|
            && (forall c :: c in t.live <==> c in s.live || s.next <= c < s.next + |steps|)
    decreases |steps|
  {
    if steps == [] {
    } else {
      FireCounts(Next(s, steps[0]), steps[1..]);
    }
  }

  /** Contexts are numbered below the next one. */
  ghost predicate Numbered(s: State) {
    && (forall c | c in s.live :: c < s.next)
    && (forall c | c in s.owner :: c < s.next)
    && (forall c | c in s.slots :: c < s.next && c in s.owner)
  }

  lemma {:induction false} FireLive(s: State, steps: seq<Step>)
    requires Timers(s, steps) && Numbered(s)
    ensures |Fire(s, steps).live| == |s.live| + |steps|
    decreases |steps|
  {
    if steps == [] {
    } else {
      var t := Next(s, steps[0]);
      assert s.next !in s.live && t.live == s.live + {s.next};
      FireLive(t, steps[1..]);
    }
  }

  // OFF.

  function Contexts(first: nat, m: nat): (r: seq<nat>)
    ensures |r| == m && forall i | 0 <= i < m :: r[i] == first + i
  {
    seq(m, i => first + i)
  }

  /** The workers ws queued up behind the slots of s, one new context each. */
  predicate Queued(s: State, t: State, ws: seq<nat>) {
    && t.slots == s.slots + Contexts(s.next, |ws|)
    && forall c | s.next <= c < s.next + |ws| :: c in t.owner && t.owner[c] == ws[c - s.next]
  }

  lemma QueuedStep(s: State, u: State, t: State, w: nat, ws: seq<nat>)
    requires u.slots == s.slots + [s.next] && u.next == s.next + 1 && Queued(u, t, ws)
    requires s.next in t.owner && t.owner[s.next] == w
    ensures Queued(s, t, [w] + ws)
  {
  }

  /** Timers that add a slot each queue up in the order they go off. */
  lemma {:induction false} Appended(s: State, steps: seq<Step>)
    requires Timers(s, steps) && Numbered(s)
    ensures var t := Fire(s, steps);
            && (forall c | c in s.owner :: c in t.owner && t.owner[c] == s.owner[c])
            && (|t.slots| == |s.slots| + |steps| ==> Queued(s, t, Fired(s, steps)))
    decreases |steps|
  {
    if steps == [] {
    } else {
      var u, t := Next(s, steps[0]), Fire(s, steps);
      FireCounts(u, steps[1..]);
      Appended(u, steps[1..]);
      if |t.slots| == |s.slots| + |steps| {
        assert s.next in u.owner;
        QueuedStep(s, u, t, s.pending[steps[0].j], Fired(u, steps[1..]));
      }
    }
  }

  /** Timers that go off in the order of the free slots find each its own. */
  lemma {:induction false} InOrderAppends(s: State, steps: seq<Step>)
    requires Timers(s, steps)
    requires forall i | 0 <= i < |steps| :: Fired(s, steps)[i] == |s.slots| + i + 1
    ensures |Fire(s, steps).slots| == |s.slots| + |steps|
    decreases |steps|
  {
    if steps == [] {
    } else {
      assert Fired(s, steps)[0] == |s.slots| + 1;
      var u := Next(s, steps[0]);
      assert |u.slots| == |s.slots| + 1;
      forall i | 0 <= i < |steps[1..]| ensures Fired(u, steps[1..])[i] == |u.slots| + i + 1 {
        assert Fired(u, steps[1..])[i] == Fired(s, steps)[i + 1];
      }
      InOrderAppends(u, steps[1..]);
    }
  }

  predicate InNameOrder(ws: seq<nat>) {
    forall i | 0 <= i < |ws| :: ws[i] == i + 1
  }

  lemma {:induction false} ShrinkKills(s: State, k: nat)
    ensures forall c | c in Shrink(s, k).live :: c in s.live && forall i | k <= i < |s.slots| :: s.slots[i] != c
    decreases |s.slots|
  {
    if |s.slots| <= k {
    } else {
      var n := |s.slots| - 1;
      ShrinkKills(s.(live := s.live - {s.slots[n]}, slots := s.slots[..n]), k);
    }
  }

  lemma OffEmpties(s: State)
    requires Sound(s)
    ensures Next(s, Off) == s.(slots := [], live := {})
  {
    ShrinkAny(s, 0);
    ShrinkKills(s, 0);
    assert forall c | c in s.live :: c in s.slots;
  }

  lemma QueuedTidyIff(s: State, t: State, ws: seq<nat>)
    requires s.slots == [] && Queued(s, t, ws)
    requires forall c :: c in t.live <==> s.next <= c < s.next + |ws|
    ensures Tidy(t) <==> |ws| == t.workers && InNameOrder(ws)
  {
    assert t.slots == Contexts(s.next, |ws|);
    forall c ensures c in t.live <==> c in t.slots {
      if c in t.live { assert t.slots[c - s.next] == c; }
    }
    forall i | 0 <= i < |ws|
      ensures t.slots[i] in t.owner && (t.owner[t.slots[i]] == i + 1 <==> ws[i] == i + 1)
    {
      assert t.slots[i] in t.owner && t.owner[t.slots[i]] == ws[t.slots[i] - s.next];
    }
  }

  /** From an empty pool: all the timers build a tidy pool iff there is one for every configured worker and they go
      off in name order. */
  lemma FromNothing(s: State, steps: seq<Step>)
    requires Timers(s, steps) && Numbered(s) && s.slots == [] && s.live == {}
    ensures Tidy(Fire(s, steps)) <==> |steps| == s.workers && InNameOrder(Fired(s, steps))
  {
    var t := Fire(s, steps);
    FireCounts(s, steps);
    FireLive(s, steps);
    Appended(s, steps);
    if |t.slots| == |steps| {
      QueuedTidyIff(s, t, Fired(s, steps));
    } else if Tidy(t) {
      LiveWithin(t);
    } else if InNameOrder(Fired(s, steps)) {
      InOrderAppends(s, steps);
    }
  }

  /** A tidy pool has no more live loops than slots. */
  lemma LiveWithin(s: State)
    requires Tidy(s)
    ensures |s.live| == |s.slots|
  {
    forall i, j | 0 <= i < j < |s.slots| ensures s.slots[i] != s.slots[j] {
      assert s.owner[s.slots[i]] == i + 1 && s.owner[s.slots[j]] == j + 1;
    }
    Distinct(s.slots);
    assert s.live == Elements(s.slots);
  }

  /** Switching OFF inside a respawn window: once all the timers have gone off, in whatever order, as many workers
      live as timers were pending, though the pool should have none; and the pool's books are in order iff every
      worker had crashed and they came back in name order. */
  lemma OffDuringRespawn(s: State, steps: seq<Step>)
    requires Inv(s) && |s.slots| >= 1
    requires Timers(Next(s, Off), steps) && |steps| == |s.pending|
    ensures var t := Fire(Next(s, Off), steps);
            && t.pending == [] && |t.live| == |s.pending| && t.active == t.workers
            && (Consistent(t) <==> s.active == 0 && InNameOrder(Fired(Next(s, Off), steps)))
  {
    OffEmpties(s);
    var u := Next(s, Off);
    FireCounts(u, steps);
    FireLive(u, steps);
    FromNothing(u, steps);
  }

  // Scaling and restarting.

  lemma {:induction false} GrowLive(s: State, k: nat)
    requires forall c | c in s.live :: c < s.next
    ensures var t := Grow(s, k);
            && |t.live| - |s.live| == |t.slots| - |s.slots|
            && forall c | c in t.live :: c < t.next
    decreases k - |s.slots|
  {
    if |s.slots| >= k {
    } else {
      var u := Append(s, |s.slots| + 1);
      assert s.next !in s.live && u.live == s.live + {s.next};
      GrowLive(u, k);
    }
  }

  /** A start leaves as many live loops as slots, one for each configured worker. */
  lemma StartCounts(s: State)
    requires Inv(s)
    ensures var v := Next(s, Start);
            && |v.live| == |v.slots| == v.active == v.workers == s.workers && v.pending == s.pending
            && forall c | c in v.live :: c < v.next
  {
    OffEmpties(s);
    GrowAny(Shrink(s, 0), StartCount(s));
    GrowLive(Shrink(s, 0), StartCount(s));
  }

  /** Timers of workers with a slot leave the number of slots alone. */
  lemma {:induction false} SlotsStay(s: State, steps: seq<Step>)
    requires Timers(s, steps) && forall w | w in s.pending :: 1 <= w <= |s.slots|
    ensures |Fire(s, steps).slots| == |s.slots|
    decreases |steps|
  {
    if steps == [] {
    } else {
      var j := steps[0].j;
      assert s.pending[j] in s.pending;
      var u := Next(s, steps[0]);
      forall w | w in u.pending ensures w in s.pending {}
      SlotsStay(u, steps[1..]);
    }
  }

  /** The timer of a worker without a slot, sooner or later, makes one slot more. */
  lemma {:induction false} SlotAdded(s: State, steps: seq<Step>, k: nat)
    requires Timers(s, steps) && |steps| == |s.pending| && |s.slots| >= k
    requires |s.slots| > k || exists w | w in s.pending :: w > k
    ensures |Fire(s, steps).slots| > k
    decreases |steps|
  {
    if steps == [] {
    } else {
      var u := Next(s, steps[0]);
      FireCounts(u, steps[1..]);
      if |u.slots| == k {
        var w :| w in s.pending && w > k;
        var i :| 0 <= i < |s.pending| && s.pending[i] == w;
        assert i != steps[0].j;
        assert u.pending[if i < steps[0].j then i else i - 1] == w;
        assert w in u.pending;
        SlotAdded(u, steps[1..], k);
      }
    }
  }

  lemma {:induction false} FireSound(s: State, steps: seq<Step>)
    requires Timers(s, steps) && Sound(s)
    ensures Sound(Fire(s, steps))
    decreases |steps|
  {
    if steps == [] {
    } else {
      RespawnKeepsSound(s, steps[0].j);
      FireSound(Next(s, steps[0]), steps[1..]);
    }
  }

  /** The loops a scale leaves are sound as long as it keeps a slot for every worker that waits for its timer. */
  lemma ScaleStaysSound(s: State, target: int)
    requires Inv(s) && forall w | w in s.pending :: w <= Target(s, target)
    ensures Sound(Next(s, Scale(target)))
  {
    var k := Target(s, target);
    ShrinkKeepsMost(s, k);
    GrowKeepsMost(Shrink(s, k), k);
  }

  /** Sound, where slots above k may be missing. */
  lemma {:induction false} ShrinkKeepsMost(s: State, k: nat)
    requires Sound(s) && forall w | w in s.pending :: w <= k
    ensures Sound(Shrink(s, k))
    decreases |s.slots|
  {
    if |s.slots| <= k {
    } else {
      var n := |s.slots| - 1;
      var u := s.(live := s.live - {s.slots[n]}, slots := s.slots[..n]);
      forall i | 0 <= i < n ensures s.slots[i] != s.slots[n] {
        assert s.owner[s.slots[i]] == i + 1 && s.owner[s.slots[n]] == n + 1;
      }
      forall c | c in u.live ensures c in u.slots {
        var i :| 0 <= i < |s.slots| && s.slots[i] == c;
        assert u.slots[i] == c;
      }
      ShrinkKeepsMost(u, k);
    }
  }

  lemma {:induction false} GrowKeepsMost(s: State, k: nat)
    requires Sound(s)
    ensures Sound(Grow(s, k))
    decreases k - |s.slots|
  {
    if |s.slots| >= k {
    } else {
      var u := Append(s, |s.slots| + 1);
      assert u.slots[|s.slots|] == s.next;
      forall c | c in s.live ensures c in u.slots {
        var i :| 0 <= i < |s.slots| && s.slots[i] == c;
        assert u.slots[i] == c;
      }
      GrowKeepsMost(u, k);
    }
  }

  /** Reconfiguring inside a respawn window: from the first timer to the last the counter runs ahead of the configured
      workers. */
  lemma ReconfiguredCountsTooMany(s: State, step: Step, steps: seq<Step>)
    requires Inv(s) && (step.Scale? || step.Start?) && Timers(Next(s, step), steps) && steps != []
    ensures var t := Fire(Next(s, step), steps);
            t.active == t.workers + |steps| && !Consistent(t)
  {
    if step.Start? {
      StartCounts(s);
    } else {
      ScaleCounts(s, step.target);
    }
    FireCounts(Next(s, step), steps);
  }

  /** And once all of them have gone off, in whatever order, the loops themselves are the wrong ones, unless it was a
      scale that kept a slot for every worker that was to come back. */
  lemma ReconfigureDuringRespawn(s: State, step: Step, steps: seq<Step>)
    requires Inv(s) && (step.Scale? || step.Start?) && s.pending != []
    requires Timers(Next(s, step), steps) && |steps| == |s.pending|
    ensures var t := Fire(Next(s, step), steps);
            && t.pending == [] && t.active == t.workers + |s.pending|
            && (Tidy(t) <==> step.Scale? && forall w | w in s.pending :: w <= Target(s, step.target))
  {
    ReconfiguredCountsTooMany(s, step, steps);
    var v := Next(s, step);
    FireCounts(v, steps);
    if step.Start? {
      StartCounts(s);
      RestartLeaks(s, steps);
    } else {
      ScaleCounts(s, step.target);
      RescaledTidyIff(s, step.target, steps);
    }
  }

  /** A restart inside a window leaves one loop without a slot for every timer. */
  lemma RestartLeaks(s: State, steps: seq<Step>)
    requires Inv(s) && s.pending != [] && Timers(Next(s, Start), steps) && |steps| == |s.pending|
    ensures var t := Fire(Next(s, Start), steps); |t.live| == |t.slots| + |s.pending| && !Tidy(t)
  {
    var v := Next(s, Start);
    StartCounts(s);
    assert Numbered(v) by { RestartNumbers(s); }
    FireLive(v, steps);
    SlotsStay(v, steps);
    if Tidy(Fire(v, steps)) { LiveWithin(Fire(v, steps)); }
  }

  lemma RestartNumbers(s: State)
    requires Inv(s)
    ensures Numbered(Next(s, Start))
  {
    OffEmpties(s);
    GrowNumbers(Shrink(s, 0), StartCount(s));
  }

  lemma {:induction false} GrowNumbers(s: State, k: nat)
    requires Numbered(s)
    ensures Numbered(Grow(s, k))
    decreases k - |s.slots|
  {
    if |s.slots| >= k {
    } else {
      GrowNumbers(Append(s, |s.slots| + 1), k);
    }
  }

  lemma RescaledTidyIff(s: State, target: int, steps: seq<Step>)
    requires Inv(s) && s.pending != [] && Timers(Next(s, Scale(target)), steps) && |steps| == |s.pending|
    ensures Tidy(Fire(Next(s, Scale(target)), steps)) <==> forall w | w in s.pending :: w <= Target(s, target)
  {
    var k := Target(s, target);
    var v := Next(s, Scale(target));
    ScaleCounts(s, target);
    FireCounts(v, steps);
    if forall w | w in s.pending :: w <= k {
      ScaleStaysSound(s, target);
      FireSound(v, steps);
      SlotsStay(v, steps);
      SoundIsTidy(Fire(v, steps));
    } else {
      SlotAdded(v, steps, k);
    }
  }

  lemma ScaleCounts(s: State, target: int)
    ensures var v := Next(s, Scale(target));
            |v.slots| == v.workers == v.active == Target(s, target) && v.pending == s.pending
  {
    ShrinkAny(s, Target(s, target));
    GrowAny(Shrink(s, Target(s, target)), Target(s, target));
  }

  lemma SoundIsTidy(s: State)
    requires Sound(s) && s.pending == [] && |s.slots| == s.workers
    ensures Tidy(s)
  {
  }

  /** Toggling OFF and ON is a restart, inside a window as outside. */
  lemma OffThenStart(s: State)
    ensures Next(Next(s, Off), Start) == Next(s, Start)
  {
    ShrinkAny(s, 0);
    assert Shrink(Shrink(s, 0), 0) == Shrink(s, 0);
  }

  // Crashes of workers that are no longer in the pool.

  /** A crash with no timer running, and its respawn, leave the pool's books in order iff the worker that crashed was
      one of the pool, and not one cancelled by a scale, a restart or OFF that crashed over the job it still held. */
  lemma StrayCrash(s: State, c: nat)
    requires Inv(s) && s.pending == [] && s.slots != [] && c in s.owner && s.owner[c] >= 1
    ensures Consistent(Next(Next(s, Crash(c)), Respawn(0))) <==> c in s.live
  {
    var u := Next(s, Crash(c));
    if c in s.live {
      CrashKeeps(s, c);
      RespawnKeeps(u, 0);
      SoundIsTidy(Next(u, Respawn(0)));
    } else {
      StrayBreaks(s, c);
    }
  }

  lemma StrayBreaks(s: State, c: nat)
    requires Inv(s) && s.pending == [] && s.slots != [] && c in s.owner && s.owner[c] >= 1 && c !in s.live
    ensures !Consistent(Next(Next(s, Crash(c)), Respawn(0)))
  {
    var t := Next(Next(s, Crash(c)), Respawn(0));
    if s.owner[c] <= |s.slots| {
      var lost := s.slots[s.owner[c] - 1];
      assert lost in s.live;
      assert forall i | 0 <= i < |t.slots| :: t.slots[i] != lost;
      assert lost in t.live && lost !in t.slots;
    } else {
      assert |t.slots| == |s.slots| + 1;
    }
  }

  /** Steps in no particular order. */
  ghost predicate AnyRun(s: State, steps: seq<Step>)
    decreases |steps|
  {
    steps == [] || (Enabled(s, steps[0]) && AnyRun(Next(s, steps[0]), steps[1..]))
  }

  function Go(s: State, steps: seq<Step>): State
    requires AnyRun(s, steps)
    decreases |steps|
  {
    if steps == [] then s else Go(Next(s, steps[0]), steps[1..])
  }

  /** However disorderly the run, the counter does not fall below zero. */
  lemma {:induction false} NeverNegative(s: State, steps: seq<Step>)
    requires AnyRun(s, steps) && s.active >= 0
    ensures Go(s, steps).active >= 0
    decreases |steps|
  {
    if steps == [] {
    } else {
      if steps[0].Off? { ShrinkAny(s, 0); }
      NeverNegative(Next(s, steps[0]), steps[1..]);
    }
  }

  /** In particular a worker retired by a scale-down does harm when it crashes. */
  lemma RetiredWorkerCrash(s: State, target: int, i: nat)
    requires Inv(s) && s.pending == [] && Target(s, target) <= i < |s.slots|
    ensures var t := Next(s, Scale(target));
            && Enabled(t, Crash(s.slots[i])) && Enabled(Next(t, Crash(s.slots[i])), Respawn(0))
            && !Consistent(Next(Next(t, Crash(s.slots[i])), Respawn(0)))
  {
    var k, t := Target(s, target), Next(s, Scale(target));
    InvKept(s, Scale(target));
    ShrinkAny(s, k);
    ShrinkKills(s, k);
    assert t == Healthy(Shrink(s, k)).(workers := k);
    assert s.owner[s.slots[i]] == i + 1;
    StrayCrash(t, s.slots[i]);
  }
}
