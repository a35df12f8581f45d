// How many deliveries a job needs, and how a fault at its first delivery changes that.

module Retry {
  import opened Jobs
  import opened Worker

  function Min(a: int, b: int): int { if a <= b then a else b }
  function Max(a: int, b: int): int { if a >= b then a else b }

  /** Redeliver from the k-th attempt on until a verdict settles the message: the settling attempt and its verdict. */
  function Chain(job: Job, k: nat): (r: (nat, Verdict))
    requires k >= 1
    ensures r.0 >= k && (r.1.DeadLetter? || r.1.Complete?) && r.1 == Outcome(job, r.0)
    decreases Max(MaxAttempts(job) - k, 0)
  {
    if Outcome(job, k).Retry? then Chain(job, k + 1) else (k, Outcome(job, k))
  }

  /** The attempt at which an undisturbed job settles, in closed form. */
  function SettleAttempt(job: Job): (k: nat)
    ensures 1 <= k <= MaxAttempts(job)
  {
    var c, m := FailureCount(job), MaxAttempts(job);
    if !Failing(job) || c < 0 then 1 else if c == 0 then m else Min(m, c + 1)
  }

  /** The attempt at which a job settles when its first delivery was, or was not, lost to a fault. */
  function LastAttempt(job: Job, faulted: bool): (k: nat)
    ensures 1 <= k <= Max(2, MaxAttempts(job))
  {
    if faulted then Max(2, SettleAttempt(job)) else SettleAttempt(job)
  }

  /** The job exhausts its attempts. */
  predicate Poison(job: Job) {
    Failing(job) && (FailureCount(job) == 0 || FailureCount(job) >= MaxAttempts(job))
  }

  /** One failure only, but a single attempt to spend on it. */
  predicate OneShot(job: Job) {
    Failing(job) && MaxAttempts(job) == 1 && FailureCount(job) == 1
  }

  lemma RetriesBelowSettleAttempt(job: Job, k: nat)
    requires k >= 1
    ensures Outcome(job, k).Retry? <==> k < SettleAttempt(job)
    ensures k == SettleAttempt(job) ==> (Outcome(job, k).DeadLetter? <==> Poison(job))
    ensures k >= 2 ==> k == Max(2, SettleAttempt(job)) ==>
        (Outcome(job, k).DeadLetter? <==> Poison(job) && !OneShot(job))
  {
  }

  /** The retry measure: starting at any attempt, the chain of redeliveries ends at the settle attempt or at once. */
  lemma {:induction false} ChainEndsAtSettleAttempt(job: Job, k: nat)
    requires k >= 1
    ensures Chain(job, k).0 == Max(k, SettleAttempt(job))
    decreases Max(MaxAttempts(job) - k, 0)
  {
    RetriesBelowSettleAttempt(job, k);
    if Outcome(job, k).Retry? {
      ChainEndsAtSettleAttempt(job, k + 1);
    }
  }

  /** An attempt that settles, all earlier ones but perhaps a faulted first having been retried, is the settle
      attempt. */
  lemma SettlingAttempt(job: Job, k: nat, faulted: bool)
    requires k >= 1 && (faulted ==> k >= 2) && !Outcome(job, k).Retry?
    requires k >= 2 && (k >= 3 || !faulted) ==> Outcome(job, k - 1).Retry?
    ensures k == LastAttempt(job, faulted)
    ensures Outcome(job, k).DeadLetter? <==> Poison(job) && (faulted ==> !OneShot(job))
  {
  }

  /** An undisturbed job settles exactly at its settle attempt, in the dead letter queue iff it is poison. */
  lemma UndisturbedJob(job: Job)
    ensures Chain(job, 1).0 == SettleAttempt(job)
    ensures Chain(job, 1).1.DeadLetter? <==> Poison(job)
  {
    ChainEndsAtSettleAttempt(job, 1);
    RetriesBelowSettleAttempt(job, SettleAttempt(job));
  }

  /** A first delivery lost to a crash or a Nak costs at most one delivery beyond the budget, and leaves the outcome
      alone exactly when the job was not down to its single attempt with a single failure to come. */
  lemma LostFirstDelivery(job: Job)
    ensures Chain(job, 2).0 == Max(2, SettleAttempt(job)) <= Max(2, MaxAttempts(job))
    ensures Chain(job, 2).1 == Chain(job, 1).1 <==> !OneShot(job)
  {
    UndisturbedJob(job);
    ChainEndsAtSettleAttempt(job, 2);
    RetriesBelowSettleAttempt(job, Chain(job, 2).0);
  }
}
