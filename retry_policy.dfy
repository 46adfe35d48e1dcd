/**
 * The retry policy the scrapers wrap their page fetch in (tenacity's
 * `retry` with `stop_after_attempt(n)` and
 * `retry_if_exception_type(CatchByBotDetectionError)`, `reraise` unset):
 * attempt, and attempt again only after a bot detection, until the
 * attempt budget is spent.
 */
module RetryPolicy {

  /** How one attempt ends. */
  datatype Outcome<T, F> =
    | Success(value: T)
    | BotDetected          // the attempt raised CatchByBotDetectionError
    | Failure(fault: F)    // the attempt raised anything else

  /** How the retried call ends. */
  datatype RetryResult<T, F> =
    | Returned(value: T)
    | Raised(fault: F)     // the exception of a non-retried attempt, unchanged
    | RetryError           // tenacity gives up with its own error after the last bot detection

  datatype Run<T, F> = Run(attempts: nat, result: RetryResult<T, F>)

  /** The attempt budget tenacity enforces: the first attempt always happens. */
  function Budget(maxAttempts: nat): (b: nat)
    ensures b >= 1 && b >= maxAttempts
    ensures maxAttempts >= 1 ==> b == maxAttempts
  {
    if maxAttempts == 0 then 1 else maxAttempts
  }

  /** What the call returns or raises when an attempt ending so is its last. */
  function Ending<T, F>(o: Outcome<T, F>): (r: RetryResult<T, F>)
    ensures o.Success? ==> r == Returned(o.value)
    ensures o.Failure? ==> r == Raised(o.fault)
    ensures o.BotDetected? <==> r.RetryError?
  {
    match o
    case Success(v) => Returned(v)
    case Failure(f) => Raised(f)
    case BotDetected => RetryError
  }

  /** The run from attempt `i` (0-based) on, `outcome(i)` being how attempt `i` ends. */
  function RunFrom<T, F>(outcome: nat -> Outcome<T, F>, maxAttempts: nat, i: nat): (r: Run<T, F>)
    requires i < Budget(maxAttempts)
    ensures i < r.attempts <= Budget(maxAttempts)
    decreases Budget(maxAttempts) - i
  {
    match outcome(i)
    case Success(v) => Run(i + 1, Returned(v))
    case Failure(f) => Run(i + 1, Raised(f))
    case BotDetected =>
      if i + 1 >= Budget(maxAttempts) then Run(i + 1, RetryError)
      else RunFrom(outcome, maxAttempts, i + 1)
  }

  /** A bot detection with budget left hands over to the next attempt. */
  lemma RunFromContinues<T, F>(outcome: nat -> Outcome<T, F>, maxAttempts: nat, i: nat)
    requires i + 1 < Budget(maxAttempts) && outcome(i).BotDetected?
    ensures RunFrom(outcome, maxAttempts, i) == RunFrom(outcome, maxAttempts, i + 1)
  {
  }

  /** Any other ending, or a bot detection on the last allowed attempt, ends the run. */
  lemma RunFromStops<T, F>(outcome: nat -> Outcome<T, F>, maxAttempts: nat, i: nat)
    requires i < Budget(maxAttempts)
    requires !outcome(i).BotDetected? || i + 1 >= Budget(maxAttempts)
    ensures RunFrom(outcome, maxAttempts, i) == Run(i + 1, Ending(outcome(i)))
  {
  }

  /** The whole retried call. */
  function Retry<T, F>(outcome: nat -> Outcome<T, F>, maxAttempts: nat): (r: Run<T, F>)
    ensures 1 <= r.attempts <= Budget(maxAttempts)
  {
    RunFrom(outcome, maxAttempts, 0)
  }

  /**
   * Every attempt before the last was a bot detection; the last attempt
   * decides the result: its value, its exception, or, only once the budget
   * is spent on bot detections, tenacity's RetryError.
   */
  lemma {:induction false} RunFromShape<T, F>(outcome: nat -> Outcome<T, F>, maxAttempts: nat, i: nat)
    requires i < Budget(maxAttempts)
    ensures var r := RunFrom(outcome, maxAttempts, i);
      && (forall j :: i <= j < r.attempts - 1 ==> outcome(j).BotDetected?)
      && r.result == Ending(outcome(r.attempts - 1))
      && (r.result.RetryError? ==> r.attempts == Budget(maxAttempts))
    decreases Budget(maxAttempts) - i
  {
    if outcome(i).BotDetected? && i + 1 < Budget(maxAttempts) {
      RunFromShape(outcome, maxAttempts, i + 1);
    }
  }

  /** The same for the whole call. */
  lemma RetryShape<T, F>(outcome: nat -> Outcome<T, F>, maxAttempts: nat)
    ensures var r := Retry(outcome, maxAttempts);
      && (forall j :: 0 <= j < r.attempts - 1 ==> outcome(j).BotDetected?)
      && r.result == Ending(outcome(r.attempts - 1))
      && (r.result.RetryError? ==> r.attempts == Budget(maxAttempts))
  {
    RunFromShape(outcome, maxAttempts, 0);
  }

  /**
   * The run is fixed by the first attempt that is not a bot detection: if
   * attempts 0 .. k-1 are bot detections and attempt k (within budget)
   * is not, exactly k+1 attempts are made and attempt k's ending is the
   * result.
   */
  lemma {:induction false} FirstNonBotDecides<T, F>(outcome: nat -> Outcome<T, F>, maxAttempts: nat, k: nat)
    requires k < Budget(maxAttempts)
    requires forall j :: 0 <= j < k ==> outcome(j).BotDetected?
    requires !outcome(k).BotDetected?
    ensures Retry(outcome, maxAttempts).attempts == k + 1
    ensures Retry(outcome, maxAttempts).result == Ending(outcome(k))
  {
    RunFromSkipsBots(outcome, maxAttempts, 0, k);
  }

  lemma {:induction false} RunFromSkipsBots<T, F>(outcome: nat -> Outcome<T, F>, maxAttempts: nat, i: nat, k: nat)
    requires i <= k < Budget(maxAttempts)
    requires forall j :: i <= j < k ==> outcome(j).BotDetected?
    ensures RunFrom(outcome, maxAttempts, i) == RunFrom(outcome, maxAttempts, k)
    decreases k - i
  {
    if i < k {
      RunFromSkipsBots(outcome, maxAttempts, i + 1, k);
    }
  }

  /** Bot detection on every attempt spends the whole budget and ends in RetryError. */
  lemma AllBotsExhaust<T, F>(outcome: nat -> Outcome<T, F>, maxAttempts: nat)
    requires forall j :: 0 <= j < Budget(maxAttempts) ==> outcome(j).BotDetected?
    ensures Retry(outcome, maxAttempts) == Run(Budget(maxAttempts), RetryError)
  {
    RetryShape(outcome, maxAttempts);
  }
}
