// A scenario armed "once": how often it can strike, given that every worker reads it before, and disarms it
// after, without holding the lock in between.

module Arming {
  import opened Worker
  import Pool

  /** The armed scenario, the workers that have read it and will strike, and who has struck so far. */
  datatype State = State(armed: Scenario, primed: set<nat>, struck: seq<nat>)

  datatype Step =
    | Read(w: nat, attempt: nat)      // handleJetStreamMsg, no payload override
    | ReadBatch(w: nat, full: bool)   // jsPullLoop, batch of three
    | Strike(w: nat)                  // act, and disarm

  predicate Enabled(n: nat, s: State, step: Step) {
    1 <= step.w <= n && (step.Strike? <==> step.w in s.primed)
  }

  function Next(n: nat, s: State, step: Step): State {
    if !Enabled(n, s, step) then s else
    match step
    case Read(w, attempt) => if Struck(s.armed, attempt).Some? then s.(primed := s.primed + {w}) else s
    case ReadBatch(w, full) => if s.armed == OutOfOrderAck && full then s.(primed := s.primed + {w}) else s
    case Strike(w) => State(Normal, s.primed - {w}, s.struck + [w])
  }

  function Run(n: nat, s: State, steps: seq<Step>): State
    decreases |steps|
  {
    if steps == [] then s else Run(n, Next(n, s, steps[0]), steps[1..])
  }

  predicate Inv(n: nat, s: State) {
    && (s.armed != Normal ==> s.struck == [])
    && (forall w | w in s.primed :: 1 <= w <= n && w !in s.struck)
    && (forall i | 0 <= i < |s.struck| :: 1 <= s.struck[i] <= n)
    && (forall i, j | 0 <= i < j < |s.struck| :: s.struck[i] != s.struck[j])
  }

  lemma {:induction false} InvRun(n: nat, s: State, steps: seq<Step>)
    requires Inv(n, s)
    ensures Inv(n, Run(n, s, steps))
    decreases |steps|
  {
    if steps == [] {
    } else {
      InvRun(n, Next(n, s, steps[0]), steps[1..]);
    }
  }

  /** With n workers the scenario strikes at most n times, however reads and disarms interleave; once if n is 1. */
  lemma StrikesAtMostOncePerWorker(n: nat, scenario: Scenario, steps: seq<Step>)
    ensures var struck := Run(n, State(scenario, {}, []), steps).struck;
            && |struck| <= n
            && forall i, j | 0 <= i < j < |struck| :: struck[i] != struck[j]
  {
    InvRun(n, State(scenario, {}, []), steps);
    var struck := Run(n, State(scenario, {}, []), steps).struck;
    Pool.Distinct(struck);
    var all := Pool.Names(n);
    assert all == Pool.Elements(struck) + (all - Pool.Elements(struck));
  }

  // The bound is reached: everyone reads before anyone disarms.

  /** The read that primes worker k: of one message, or of a batch of three for the out-of-order scenario. */
  function Reading(k: nat, scenario: Scenario): Step {
    if scenario == OutOfOrderAck then ReadBatch(k, true) else Read(k, 1)
  }

  function Reads(k: nat, scenario: Scenario): seq<Step> {
    if k == 0 then [] else Reads(k - 1, scenario) + [Reading(k, scenario)]
  }

  function Strikes(k: nat): seq<Step> {
    if k == 0 then [] else Strikes(k - 1) + [Strike(k)]
  }

  lemma {:induction false} RunConcat(n: nat, s: State, a: seq<Step>, b: seq<Step>)
    ensures Run(n, s, a + b) == Run(n, Run(n, s, a), b)
    decreases |a|
  {
    if a == [] {
      assert a + b == b;
    } else {
      assert (a + b)[1..] == a[1..] + b;
      RunConcat(n, Next(n, s, a[0]), a[1..], b);
    }
  }

  lemma {:induction false} AllRead(n: nat, k: nat, scenario: Scenario)
    requires k <= n && (Struck(scenario, 1).Some? || scenario == OutOfOrderAck)
    ensures Run(n, State(scenario, {}, []), Reads(k, scenario)) == State(scenario, Pool.Names(k), [])
  {
    if k == 0 {
    } else {
      AllRead(n, k - 1, scenario);
      var s := State(scenario, Pool.Names(k - 1), []);
      RunConcat(n, State(scenario, {}, []), Reads(k - 1, scenario), [Reading(k, scenario)]);
      OneStep(n, s, Reading(k, scenario));
    }
  }

  /** Of n primed workers the first k have struck. */
  predicate StruckUpTo(n: nat, k: nat, t: State) {
    |t.struck| == k && t.primed == Pool.Names(n) - Pool.Names(k)
  }

  lemma {:induction false} AllStrike(n: nat, k: nat, s: State)
    requires k <= n && s.struck == [] && s.primed == Pool.Names(n)
    ensures StruckUpTo(n, k, Run(n, s, Strikes(k)))
  {
    if k == 0 {
    } else {
      AllStrike(n, k - 1, s);
      RunConcat(n, s, Strikes(k - 1), [Strike(k)]);
      OneStep(n, Run(n, s, Strikes(k - 1)), Strike(k));
      StrikeNext(n, k, Run(n, s, Strikes(k - 1)));
    }
  }

  lemma OneStep(n: nat, s: State, step: Step)
    ensures Run(n, s, [step]) == Next(n, s, step)
  {
  }

  lemma StrikeNext(n: nat, k: nat, t: State)
    requires 1 <= k <= n && StruckUpTo(n, k - 1, t)
    ensures StruckUpTo(n, k, Next(n, t, Strike(k)))
  {
  }

  lemma EveryWorkerCanStrike(n: nat, scenario: Scenario)
    requires scenario in {CrashBeforeAck, ExceedAckWait, NakMessage, TermMessage, OutOfOrderAck}
    ensures |Run(n, State(scenario, {}, []), Reads(n, scenario) + Strikes(n)).struck| == n
  {
    AllRead(n, n, scenario);
    RunConcat(n, State(scenario, {}, []), Reads(n, scenario), Strikes(n));
    AllStrike(n, n, State(scenario, Pool.Names(n), []));
  }
}
