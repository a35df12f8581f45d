// The JetStream worker pool: scaling, restarting, toggling, crashing and the supervisor's respawn.

module Pool {

  datatype Status = Running | Degraded | Crashed

  /** The pool as App keeps it, plus what the goroutines are really doing. A context is known by a number; slots are
      workerCancels; `live` are the contexts neither cancelled nor abandoned by a crashed loop; `pending` are the
      workers whose respawn timer is running. Worker w is processor-w; crashed 0 is "". */
  datatype State = State(
    slots: seq<nat>, workers: int, ordered: bool, active: int, status: Status, crashed: nat,
    owner: map<nat, nat>, live: set<nat>, pending: seq<nat>, next: nat)

  datatype Step = Scale(target: int) | Start | Off | Crash(c: nat) | Respawn(j: nat)

  function Distance(a: int, b: int): nat {
    if a <= b then b - a else a - b
  }

  /** The admissible number of workers nearest to the target. */
  function Clamp(target: int): (k: nat)
    ensures 1 <= k <= 5
    ensures forall j | 1 <= j <= 5 :: Distance(k, target) <= Distance(j, target)
  {
    if target <= 0 then 1 else if target > 5 then 5 else target
  }

  function Target(s: State, target: int): nat {
    if s.ordered then 1 else Clamp(target)
  }

  /** Context c for worker w comes to life. */
  function Born(s: State, w: nat): State {
    s.(owner := s.owner[s.next := w], live := s.live + {s.next}, next := s.next + 1)
  }

  function Append(s: State, w: nat): State {
    Born(s, w).(slots := s.slots + [s.next])
  }

  /** Append workers until there are k. */
  function Grow(s: State, k: nat): State
    decreases k - |s.slots|
  {
    if |s.slots| >= k then s else Grow(Append(s, |s.slots| + 1), k)
  }

  /** Cancel the workers above k, from the tail. */
  function Shrink(s: State, k: nat): State
    decreases |s.slots|
  {
    if |s.slots| <= k then s else
    var n := |s.slots| - 1;
    Shrink(s.(live := s.live - {s.slots[n]}, slots := s.slots[..n]), k)
  }

  function Healthy(s: State): State {
    s.(active := |s.slots|, status := Running, crashed := 0)
  }

  function StartCount(s: State): nat {
    if s.ordered || s.workers <= 0 then 1 else s.workers
  }

  /** A worker's loop dies holding its job. */
  function Crashing(s: State, w: nat, c: nat): State {
    var active := if s.active > 0 then s.active - 1 else s.active;
    s.(active := active, crashed := w, status := if active > 0 then Degraded else Crashed,
       live := s.live - {c}, pending := s.pending + [w])
  }

  function Respawning(s: State, w: nat): State {
    var active := s.active + 1;
    var well := active >= |s.slots|;
    Born(s, w).(active := active,
                status := if well then Running else s.status,
                crashed := if well then 0 else s.crashed,
                slots := if 1 <= w <= |s.slots| then s.slots[w - 1 := s.next] else s.slots + [s.next])
  }

  predicate Enabled(s: State, step: Step) {
    match step
    case Crash(c) => c in s.owner
    case Respawn(j) => j < |s.pending|
    case _ => true
  }

  function Next(s: State, step: Step): State
    requires Enabled(s, step)
  {
    match step
    case Scale(target) => var k := Target(s, target); Healthy(Grow(Shrink(s, k), k)).(workers := k)
    case Start => Healthy(Grow(Shrink(s, 0), StartCount(s)))
    case Off => Shrink(s, 0)
    case Crash(c) => Crashing(s, s.owner[c], c)
    case Respawn(j) => Respawning(s, s.pending[j]).(pending := s.pending[..j] + s.pending[j + 1..])
  }

  // The invariants.

  /** Slot i belongs to processor-(i+1) and holds its only live context, or awaits its respawn. */
  ghost predicate Sound(s: State) {
    && (forall c | c in s.owner :: c < s.next)
    && (forall i | 0 <= i < |s.slots| :: s.slots[i] in s.owner && s.owner[s.slots[i]] == i + 1)
    && (forall i | 0 <= i < |s.slots| :: s.slots[i] in s.live <==> i + 1 !in s.pending)
    && (forall c | c in s.live :: c in s.slots)
    && (forall w | w in s.pending :: 1 <= w <= |s.slots|)
    && (forall i, j | 0 <= i < j < |s.pending| :: s.pending[i] != s.pending[j])
  }

  /** The displayed counters and status tell the truth: the counter is the number of live workers. */
  predicate Counted(s: State) {
    && |s.slots| >= 1
    && |s.live| == s.active
    && s.active + |s.pending| == |s.slots| && s.active >= 0
    && (s.status.Running? <==> s.pending == [])
    && (s.crashed == 0 <==> s.pending == [])
    && (s.active == 0 ==> s.status.Crashed?)
    && (s.status.Degraded? ==> 0 < s.active < |s.slots|)
  }

  /** The live contexts are exactly those in the slots, named 1..k without gaps, for the configured k. */
  ghost predicate Tidy(s: State) {
    && (forall c :: c in s.live <==> c in s.slots)
    && (forall i | 0 <= i < |s.slots| :: s.slots[i] in s.owner && s.owner[s.slots[i]] == i + 1)
    && |s.slots| == s.workers
  }

  /** And the displayed counter says k too. */
  ghost predicate Consistent(s: State) {
    Tidy(s) && s.active == s.workers
  }

  lemma AppendSound(s: State)
    requires Sound(s) && s.pending == []
    ensures Sound(Append(s, |s.slots| + 1))
  {
  }

  lemma {:induction false} GrowSound(s: State, k: nat)
    requires Sound(s) && s.pending == []
    ensures var t := Grow(s, k);
            && Sound(t) && t.pending == [] && t.workers == s.workers && t.ordered == s.ordered && t.next >= s.next
            && |t.slots| == (if |s.slots| >= k then |s.slots| else k)
            && (forall i | 0 <= i < |s.slots| :: t.slots[i] == s.slots[i])
            && (forall i | |s.slots| <= i < |t.slots| :: t.slots[i] >= s.next)
    decreases k - |s.slots|
  {
    if |s.slots| >= k {
    } else {
      AppendSound(s);
      GrowSound(Append(s, |s.slots| + 1), k);
    }
  }

  lemma DropLastSound(s: State)
    requires Sound(s) && s.pending == [] && s.slots != []
    ensures var n := |s.slots| - 1; Sound(s.(live := s.live - {s.slots[n]}, slots := s.slots[..n]))
  {
  }

  lemma {:induction false} ShrinkAny(s: State, k: nat)
    ensures var t := Shrink(s, k);
            && t == s.(slots := t.slots, live := t.live) && t.live <= s.live
            && t.slots == s.slots[..if |s.slots| <= k then |s.slots| else k]
    decreases |s.slots|
  {
    if |s.slots| <= k {
    } else {
      var n := |s.slots| - 1;
      ShrinkAny(s.(live := s.live - {s.slots[n]}, slots := s.slots[..n]), k);
    }
  }

  lemma {:induction false} ShrinkKeepsSound(s: State, k: nat)
    requires Sound(s) && s.pending == []
    ensures Sound(Shrink(s, k))
    decreases |s.slots|
  {
    if |s.slots| <= k {
    } else {
      var n := |s.slots| - 1;
      DropLastSound(s);
      ShrinkKeepsSound(s.(live := s.live - {s.slots[n]}, slots := s.slots[..n]), k);
    }
  }

  lemma ShrinkSound(s: State, k: nat)
    requires Sound(s) && s.pending == []
    ensures var t := Shrink(s, k);
            && Sound(t) && t == s.(slots := t.slots, live := t.live)
            && t.slots == s.slots[..if |s.slots| <= k then |s.slots| else k]
  {
    ShrinkAny(s, k);
    ShrinkKeepsSound(s, k);
  }

  function Names(n: nat): (r: set<nat>)
    ensures forall w :: w in r <==> 1 <= w <= n
    ensures |r| == n
  {
    if n == 0 then {} else Names(n - 1) + {n}
  }

  function Elements(s: seq<nat>): (r: set<nat>)
    ensures forall w :: w in r <==> w in s
  {
    set w | w in s
  }

  lemma {:induction false} Distinct(s: seq<nat>)
    requires forall i, j | 0 <= i < j < |s| :: s[i] != s[j]
    ensures |Elements(s)| == |s|
  {
    if s == [] {
    } else {
      var n := |s| - 1;
      Distinct(s[..n]);
      assert s == s[..n] + [s[n]];
      assert Elements(s) == Elements(s[..n]) + {s[n]};
      assert s[n] !in Elements(s[..n]);
    }
  }

  /** With no respawn pending every slot counts one live worker. */
  lemma AllLive(s: State)
    requires Sound(s) && s.pending == []
    ensures |s.live| == |s.slots|
  {
    forall i, j | 0 <= i < j < |s.slots| ensures s.slots[i] != s.slots[j] {
      assert s.owner[s.slots[i]] == i + 1 && s.owner[s.slots[j]] == j + 1;
    }
    Distinct(s.slots);
    forall c | c in s.slots ensures c in s.live {
      var i :| 0 <= i < |s.slots| && s.slots[i] == c;
    }
    assert s.live == Elements(s.slots);
  }

  /** Resetting the counters of a sound pool with no pending respawn makes them true. */
  lemma HealthyIsCounted(s: State)
    requires Sound(s) && s.pending == [] && |s.slots| >= 1
    ensures var t := Healthy(s); Sound(t) && Counted(t) && forall c :: c in t.live <==> c in t.slots
  {
    AllLive(s);
    forall c | c in s.slots ensures c in s.live {
      var i :| 0 <= i < |s.slots| && s.slots[i] == c;
    }
  }

  /** What one scale does to a pool with no pending respawn: it keeps the common prefix of workers, ends up consistent
      at the clamped target, and every new context is new. */
  lemma ScaleMeaning(s: State, target: int)
    requires Sound(s) && s.pending == []
    ensures var t := Next(s, Scale(target)); var k := Target(s, target);
            && Sound(t) && Counted(t) && Consistent(t) && t.pending == [] && t.next >= s.next && t.ordered == s.ordered
            && |t.slots| == k == t.workers == t.active
            && (forall i | 0 <= i < k && i < |s.slots| :: t.slots[i] == s.slots[i])
            && (forall i | |s.slots| <= i < k :: t.slots[i] >= s.next)
  {
    var k := Target(s, target);
    var u := Shrink(s, k);
    ShrinkSound(s, k);
    GrowSound(u, k);
    HealthyIsCounted(Grow(u, k));
  }

  /** How many workers a scale leaves, in slots, in configuration, on display and alive: the number asked for if it is
      one to five, else the nearest of these; one if the pool is ordered. */
  lemma ScaleCount(s: State, target: int)
    requires Sound(s) && s.pending == []
    ensures var t := Next(s, Scale(target));
            && |t.slots| == t.workers == t.active == |t.live|
            && (!s.ordered && 1 <= target <= 5 ==> |t.slots| == target)
            && (!s.ordered && target <= 0 ==> |t.slots| == 1)
            && (!s.ordered && target > 5 ==> |t.slots| == 5)
            && (s.ordered ==> |t.slots| == 1)
  {
    ScaleMeaning(s, target);
  }

  lemma StartMeaning(s: State)
    requires Sound(s) && s.pending == []
    ensures var t := Next(s, Start);
            && Sound(t) && Counted(t) && t.pending == [] && t.ordered == s.ordered && t.workers == s.workers
            && |t.slots| == t.active == |t.live| == (if s.ordered || s.workers <= 0 then 1 else s.workers)
            && (forall i | 0 <= i < |t.slots| :: t.slots[i] >= s.next)
            && (1 <= s.workers && (s.ordered ==> s.workers == 1) ==> Consistent(t))
  {
    ShrinkSound(s, 0);
    GrowSound(Shrink(s, 0), StartCount(s));
    HealthyIsCounted(Grow(Shrink(s, 0), StartCount(s)));
  }

  lemma CrashKeeps(s: State, c: nat)
    requires Sound(s) && Counted(s) && c in s.live && c in s.owner
    ensures var t := Next(s, Crash(c)); Sound(t) && Counted(t) && |t.slots| == |s.slots|
  {
  }

  lemma Removed(p: seq<nat>, j: nat)
    requires j < |p| && forall i, k | 0 <= i < k < |p| :: p[i] != p[k]
    ensures var q := p[..j] + p[j + 1..];
            && |q| == |p| - 1
            && (forall v :: v in q <==> v in p && v != p[j])
            && (forall i, k | 0 <= i < k < |q| :: q[i] != q[k])
  {
  }

  lemma RespawnKeepsSound(s: State, j: nat)
    requires Sound(s) && j < |s.pending|
    ensures Sound(Next(s, Respawn(j)))
  {
    var t := Next(s, Respawn(j));
    var w := s.pending[j];
    assert w in s.pending;
    Removed(s.pending, j);
    forall c | c in t.live ensures c in t.slots {
      if c == s.next {
        assert t.slots[w - 1] == c;
      } else {
        var i :| 0 <= i < |s.slots| && s.slots[i] == c;
        assert t.slots[i] == c;
      }
    }
  }

  lemma RespawnKeeps(s: State, j: nat)
    requires Sound(s) && Counted(s) && j < |s.pending|
    ensures var t := Next(s, Respawn(j)); Sound(t) && Counted(t) && |t.slots| == |s.slots|
  {
    RespawnKeepsSound(s, j);
    var t := Next(s, Respawn(j));
    assert s.pending[j] in s.pending;
    assert forall c | c in s.live :: c in s.slots;
    assert s.next !in s.live && t.live == s.live + {s.next};
  }

  /** A step in order: a reconfiguration finds no respawn pending, and only live workers crash. */
  predicate Orderly(s: State, step: Step) {
    && Enabled(s, step)
    && (step.Scale? || step.Start? || step.Off? ==> s.pending == [])
    && (step.Crash? ==> step.c in s.live)
  }

  ghost predicate OrderlyRun(s: State, steps: seq<Step>)
    decreases |steps|
  {
    steps == [] || (Orderly(s, steps[0]) && OrderlyRun(Next(s, steps[0]), steps[1..]))
  }

  function Run(s: State, steps: seq<Step>): State
    requires OrderlyRun(s, steps)
    decreases |steps|
  {
    if steps == [] then s else Run(Next(s, steps[0]), steps[1..])
  }

  /** Sound, and counted unless switched off. */
  ghost predicate Inv(s: State) {
    && Sound(s) && 1 <= s.workers <= 5 && (s.ordered ==> s.workers == 1)
    && ((Counted(s) && |s.slots| == s.workers) || (s.slots == [] && s.pending == []))
  }

  lemma InvKept(s: State, step: Step)
    requires Inv(s) && Orderly(s, step)
    ensures Inv(Next(s, step))
    ensures step.Crash? || step.Respawn? ==> |Next(s, step).slots| == |s.slots|
    ensures Next(s, step).ordered == s.ordered
  {
    match step
    case Scale(target) => ScaleMeaning(s, target);
    case Start => StartMeaning(s);
    case Off => ShrinkSound(s, 0);
    case Crash(c) => CrashKeeps(s, c);
    case Respawn(j) => RespawnKeeps(s, j);
  }

  /** The pool at rest: n live workers and nothing pending. */
  ghost predicate Quiescent(s: State, n: nat) {
    Inv(s) && |s.slots| == n >= 1 && s.pending == []
  }

  predicate CrashOrRespawn(steps: seq<Step>) {
    forall k | 0 <= k < |steps| :: steps[k].Crash? || steps[k].Respawn?
  }

  /** Crash and respawn conservation: whatever the order of crashes and respawns, a pool of n keeps n slots, each
      holding its own worker's current incarnation, live plus pending is n, and status, crashed worker and counter
      agree. */
  lemma {:induction false} CrashRespawnConserves(s: State, steps: seq<Step>)
    requires Inv(s) && |s.slots| >= 1 && OrderlyRun(s, steps) && CrashOrRespawn(steps)
    ensures var t := Run(s, steps);
            && |t.slots| == |s.slots| && Sound(t) && Counted(t)
            && |t.live| == t.active == |s.slots| - |t.pending|
            && (t.status.Running? <==> t.active == |s.slots|)
            && (t.status.Running? <==> t.crashed == 0)
    decreases |steps|
  {
    if steps == [] {
    } else {
      InvKept(s, steps[0]);
      CrashRespawnConserves(Next(s, steps[0]), steps[1..]);
    }
  }

  /** Leak-free reconfiguration: after every orderly run, whenever no respawn is pending, the uncancelled running
      loops are exactly those in the slots, named processor-1..k without gaps. */
  lemma {:induction false} ReconfigurationLeaksNothing(s: State, steps: seq<Step>)
    requires Inv(s) && OrderlyRun(s, steps)
    ensures var t := Run(s, steps);
            && Inv(t)
            && (forall i | 0 <= i < |t.slots| :: t.slots[i] in t.owner && t.owner[t.slots[i]] == i + 1)
            && (t.pending == [] ==> forall c :: c in t.live <==> c in t.slots)
    decreases |steps|
  {
    if steps == [] {
    } else {
      InvKept(s, steps[0]);
      ReconfigurationLeaksNothing(Next(s, steps[0]), steps[1..]);
    }
  }

  /** Whose crash is on display: after any crashes and respawns the crashed worker shown is the one that crashed last,
      unless all are back. */
  function LastCrashed(s: State, steps: seq<Step>): nat
    requires OrderlyRun(s, steps)
    decreases |steps|
  {
    if steps == [] then s.crashed
    else if steps[0].Crash? && forall k | 1 <= k < |steps| :: !steps[k].Crash? then s.owner[steps[0].c]
    else LastCrashed(Next(s, steps[0]), steps[1..])
  }

  lemma {:induction false} CrashShown(s: State, steps: seq<Step>)
    requires Inv(s) && |s.slots| >= 1 && OrderlyRun(s, steps) && CrashOrRespawn(steps)
    ensures var t := Run(s, steps);
            && (t.crashed == 0 || t.crashed == LastCrashed(s, steps))
            && (t.crashed == 0 <==> t.pending == [])
    decreases |steps|
  {
    if steps == [] {
    } else {
      InvKept(s, steps[0]);
      var t := Next(s, steps[0]);
      CrashShown(t, steps[1..]);
      if steps[0].Crash? && forall k | 1 <= k < |steps| :: !steps[k].Crash? {
        forall k | 0 <= k < |steps[1..]| ensures !steps[1..][k].Crash? {
          assert steps[1..][k] == steps[k + 1];
        }
        NoNewCrash(t, steps[1..]);
      }
    }
  }

  lemma {:induction false} NoNewCrash(s: State, steps: seq<Step>)
    requires OrderlyRun(s, steps) && CrashOrRespawn(steps) && forall k | 0 <= k < |steps| :: !steps[k].Crash?
    ensures Run(s, steps).crashed == 0 || Run(s, steps).crashed == s.crashed
    decreases |steps|
  {
    if steps == [] {
    } else {
      NoNewCrash(Next(s, steps[0]), steps[1..]);
    }
  }

  lemma CrashedStep(s: State, step: Step)
    requires Inv(s) && |s.slots| >= 1 && Orderly(s, step) && (step.Crash? || step.Respawn?)
    ensures var t := Next(s, step); t.status.Crashed? ==> (t.live == {} <==> step.Crash?)
  {
    InvKept(s, step);
    var t := Next(s, step);
    assert |t.live| == t.active;
  }

  /** When CRASHED tells the truth: after any crashes and respawns a pool that shows CRASHED has no one alive iff the
      last of them was a crash. */
  lemma {:induction false} CrashedMeansDeadIff(s: State, steps: seq<Step>)
    requires Inv(s) && |s.slots| >= 1 && OrderlyRun(s, steps) && steps != [] && CrashOrRespawn(steps)
    ensures var t := Run(s, steps); t.status.Crashed? ==> (t.live == {} <==> steps[|steps| - 1].Crash?)
    decreases |steps|
  {
    var t := Next(s, steps[0]);
    InvKept(s, steps[0]);
    if |steps| == 1 {
      assert steps[1..] == [];
      assert Run(s, steps) == t;
      CrashedStep(s, steps[0]);
    } else {
      assert steps[|steps| - 1] == steps[1..][|steps| - 2];
      CrashedMeansDeadIff(t, steps[1..]);
    }
  }

  lemma {:induction false} RunSnoc(s: State, steps: seq<Step>, step: Step)
    requires OrderlyRun(s, steps) && Orderly(Run(s, steps), step)
    ensures OrderlyRun(s, steps + [step]) && Run(s, steps + [step]) == Next(Run(s, steps), step)
    decreases |steps|
  {
    if steps == [] {
      assert [step][1..] == [] && [step][0] == step;
    } else {
      assert (steps + [step])[1..] == steps[1..] + [step];
      RunSnoc(Next(s, steps[0]), steps[1..], step);
    }
  }

  /** The first k workers crash, one after the other. */
  function CrashFirst(s: State, k: nat): seq<Step>
    requires k <= |s.slots|
  {
    if k == 0 then [] else CrashFirst(s, k - 1) + [Crash(s.slots[k - 1])]
  }

  /** The pool of n with its first k workers crashed. */
  ghost predicate CrashedUpTo(s: State, n: nat, k: nat, t: State) {
    && t.slots == s.slots && t.owner == s.owner && Sound(t) && Counted(t)
    && t.active == n - k && |t.pending| == k
    && (forall i | k <= i < |s.slots| :: s.slots[i] in t.live)
    && (k == n ==> t.status.Crashed?)
  }

  lemma OneMoreCrashed(s: State, n: nat, k: nat, t: State)
    requires Quiescent(s, n) && 1 <= k <= n && CrashedUpTo(s, n, k - 1, t)
    ensures Orderly(t, Crash(s.slots[k - 1])) && CrashedUpTo(s, n, k, Next(t, Crash(s.slots[k - 1])))
  {
  }

  lemma {:induction false} FirstCrashed(s: State, n: nat, k: nat)
    requires Quiescent(s, n) && k <= n
    ensures OrderlyRun(s, CrashFirst(s, k)) && CrashedUpTo(s, n, k, Run(s, CrashFirst(s, k)))
  {
    if k == 0 {
    } else {
      FirstCrashed(s, n, k - 1);
      OneMoreCrashed(s, n, k, Run(s, CrashFirst(s, k - 1)));
      RunSnoc(s, CrashFirst(s, k - 1), Crash(s.slots[k - 1]));
    }
  }

  /** And CRASHED with one survivor is reached in every pool of two or more: all crash, one comes back. */
  lemma CrashedWithSurvivor(s: State, n: nat)
    requires Quiescent(s, n) && n >= 2
    ensures var steps := CrashFirst(s, n) + [Respawn(0)];
            && OrderlyRun(s, steps)
            && Run(s, steps).status.Crashed? && |Run(s, steps).live| == Run(s, steps).active == 1
  {
    FirstCrashed(s, n, n);
    var t := Run(s, CrashFirst(s, n));
    RunSnoc(s, CrashFirst(s, n), Respawn(0));
    RespawnKeeps(t, 0);
  }

  // Which worker survives a run of scalings.

  ghost predicate ScaleOnly(steps: seq<Step>) {
    forall k | 0 <= k < |steps| :: steps[k].Scale?
  }

  predicate Kept(s: State, t: State, i: nat)
    requires i < |s.slots|
  {
    i < |t.slots| && t.slots[i] == s.slots[i]
  }

  lemma ScaleOnlyOrderly(s: State, steps: seq<Step>)
    requires Sound(s) && s.pending == [] && ScaleOnly(steps)
    ensures OrderlyRun(s, steps)
    decreases |steps|
  {
    if steps != [] {
      ScaleMeaning(s, steps[0].target);
      ScaleOnlyOrderly(Next(s, steps[0]), steps[1..]);
    }
  }

  /** A context gone from its slot never comes back. */
  lemma {:induction false} GoneForGood(s: State, steps: seq<Step>, c: nat)
    requires Sound(s) && s.pending == [] && ScaleOnly(steps) && c < s.next && c !in s.slots
    ensures OrderlyRun(s, steps) && c !in Run(s, steps).slots
    decreases |steps|
  {
    ScaleOnlyOrderly(s, steps);
    if steps == [] {
    } else {
      ScaleMeaning(s, steps[0].target);
      var t := Next(s, steps[0]);
      forall i | 0 <= i < |t.slots| ensures t.slots[i] != c {
        if i < |s.slots| { assert t.slots[i] == s.slots[i]; }
      }
      GoneForGood(t, steps[1..], c);
    }
  }

  /** Across a run of scalings, worker i keeps its original incarnation exactly when every clamped target reached i. */
  lemma {:induction false} KeptIffTargetsReach(s: State, steps: seq<Step>, i: nat)
    requires Sound(s) && s.pending == [] && ScaleOnly(steps) && i < |s.slots|
    ensures OrderlyRun(s, steps)
    ensures Kept(s, Run(s, steps), i) <==> forall k | 0 <= k < |steps| :: Target(s, steps[k].target) >= i + 1
    decreases |steps|
  {
    ScaleOnlyOrderly(s, steps);
    if steps == [] {
    } else {
      ScaleMeaning(s, steps[0].target);
      var t := Next(s, steps[0]);
      if Target(s, steps[0].target) >= i + 1 {
        assert t.slots[i] == s.slots[i];
        KeptIffTargetsReach(t, steps[1..], i);
        forall k | 0 <= k < |steps|
          ensures Target(s, steps[k].target) >= i + 1 <==> (k == 0 || Target(t, steps[1..][k - 1].target) >= i + 1)
        {
        }
        if forall k | 0 <= k < |steps[1..]| :: Target(t, steps[1..][k].target) >= i + 1 {
          forall k | 0 <= k < |steps| ensures Target(s, steps[k].target) >= i + 1 {
            if k > 0 { assert steps[k] == steps[1..][k - 1]; }
          }
        } else {
          var k :| 0 <= k < |steps[1..]| && Target(t, steps[1..][k].target) < i + 1;
          assert steps[k + 1] == steps[1..][k];
        }
      } else {
        assert s.owner[s.slots[i]] == i + 1;
        forall j | 0 <= j < |t.slots| ensures t.slots[j] != s.slots[i] {
          assert t.slots[j] == s.slots[j] && s.owner[s.slots[j]] == j + 1;
        }
        GoneForGood(t, steps[1..], s.slots[i]);
      }
    }
  }

  /** The same on the targets themselves: worker i+1 of an unordered pool keeps its incarnation exactly when it is one
      of the five a pool can have and no target falls below it; the first worker always does. */
  lemma KeptIffNoTargetBelow(s: State, steps: seq<Step>, i: nat)
    requires Sound(s) && s.pending == [] && ScaleOnly(steps) && i < |s.slots|
    ensures OrderlyRun(s, steps)
    ensures i == 0 || steps == [] ==> Kept(s, Run(s, steps), i)
    ensures i >= 1 && steps != [] && !s.ordered ==>
              (Kept(s, Run(s, steps), i) <==> i + 1 <= 5 && forall k | 0 <= k < |steps| :: steps[k].target >= i + 1)
    ensures i >= 1 && steps != [] && s.ordered ==> !Kept(s, Run(s, steps), i)
  {
    KeptIffTargetsReach(s, steps, i);
    assert forall k | 0 <= k < |steps| ::
        Target(s, steps[k].target) >= i + 1 <==> i == 0 || (!s.ordered && i + 1 <= 5 && steps[k].target >= i + 1);
  }

  lemma {:induction false} GrowAny(s: State, k: nat)
    ensures var t := Grow(s, k);
            && t.pending == s.pending && t.workers == s.workers && t.next >= s.next && s.live <= t.live
            && |t.slots| == (if |s.slots| >= k then |s.slots| else k)
            && (forall i | 0 <= i < |s.slots| :: t.slots[i] == s.slots[i])
            && (forall i | |s.slots| <= i < |t.slots| :: s.next <= t.slots[i] < t.next && t.slots[i] in t.live)
            && (forall i, j | |s.slots| <= i < j < |t.slots| :: t.slots[i] < t.slots[j])
    decreases k - |s.slots|
  {
    if |s.slots| >= k {
    } else {
      GrowAny(Append(s, |s.slots| + 1), k);
    }
  }
}
