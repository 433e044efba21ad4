/** The bounded retry policies of follow-up actions and of call analyses. Times are whole seconds. */
module RetryPolicy {
  import opened Wrappers

  /** The closed vocabulary of failure codes, both components together. */
  datatype Reason =
    | CalendarEventNotFound | CalendarEventCancelled | MaxAttemptsExceeded | UnexpectedError
    | PrivacyDenied | CallNotCompleted | ProviderTimeout | ProviderError | ProviderUnavailable
    | MalformedResponse

  /** `clearsReason`: whether a claim resets the failure reason (analyses do, follow-ups do not). */
  datatype Policy = Policy(maxAttempts: nat, lease: nat, base: nat, cap: nat,
                           reasons: set<Reason>, clearsReason: bool)

  const FOLLOW_UP_POLICY := Policy(5, 300, 60, 3600,
    {CalendarEventNotFound, CalendarEventCancelled, MaxAttemptsExceeded, UnexpectedError}, false)

  const ANALYSIS_POLICY := Policy(3, 120, 30, 900,
    {PrivacyDenied, CallNotCompleted, ProviderTimeout, ProviderError, ProviderUnavailable,
     MalformedResponse, UnexpectedError}, true)

  ghost predicate Sound(p: Policy) {
    p.maxAttempts >= 1 && p.lease >= 1 && p.base >= 1 && p.cap >= 1
  }

  /** `base` times two to the `n`. */
  function Scaled(base: nat, n: nat): (r: nat)
    ensures r >= base
  {
    if n == 0 then base else 2 * Scaled(base, n - 1)
  }

  /** Raises `ValueError` (here `Err`) for a count below one. */
  function NextAttemptDelay(p: Policy, attemptCount: int): (r: Result<nat, ()>)
    ensures r.Ok? <==> attemptCount >= 1
    ensures r.Ok? && Sound(p) ==> 1 <= r.value <= p.cap
  {
    if attemptCount < 1 then Err(())
    else
      var delay := Scaled(p.base, attemptCount - 1);
      Ok(if delay <= p.cap then delay else p.cap)
  }

  function Pow(b: nat, n: nat): nat {
    if n == 0 then 1 else b * Pow(b, n - 1)
  }

  lemma TwiceMoves(base: int, power: int)
    ensures 2 * (base * power) == base * (2 * power)
  {
  }

  lemma {:induction false} ScaledIsPower(base: nat, n: nat)
    ensures Scaled(base, n) == base * Pow(2, n)
  {
    if n == 0 {
      assert Pow(2, n) == 1;
    } else {
      ScaledIsPower(base, n - 1);
      TwiceMoves(base, Pow(2, n - 1));
      assert Pow(2, n) == 2 * Pow(2, n - 1);
    }
  }

  /** The delay is min(base * 2^(a-1), cap): it starts at the base and doubles up to the cap. */
  lemma BackoffDoublesUpToCap(p: Policy, a: nat)
    requires a >= 1
    ensures NextAttemptDelay(p, a).value ==
            if p.base * Pow(2, a - 1) <= p.cap then p.base * Pow(2, a - 1) else p.cap
    ensures var d, e := NextAttemptDelay(p, a).value, NextAttemptDelay(p, a + 1).value;
            e == if 2 * d <= p.cap then 2 * d else p.cap
  {
    ScaledIsPower(p.base, a - 1);
    assert Scaled(p.base, a) == 2 * Scaled(p.base, a - 1);
  }

  lemma {:induction false} ScaledGrows(base: nat, m: nat, n: nat)
    requires m <= n
    ensures Scaled(base, m) <= Scaled(base, n)
  {
    if m < n {
      ScaledGrows(base, m, n - 1);
    }
  }

  /** Delays in seconds for every count, also beyond the attempts a row has: capped at an hour and at a quarter of one. */
  lemma CappedDelays(a: nat)
    ensures a >= 7 ==> NextAttemptDelay(FOLLOW_UP_POLICY, a) == Ok(3600)
    ensures a == 6 ==> NextAttemptDelay(FOLLOW_UP_POLICY, a) == Ok(1920)
    ensures a >= 6 ==> NextAttemptDelay(ANALYSIS_POLICY, a) == Ok(900)
    ensures a == 5 ==> NextAttemptDelay(ANALYSIS_POLICY, a) == Ok(480)
  {
    assert Scaled(60, 3) == 480 && Scaled(60, 5) == 1920 && Scaled(60, 6) == 3840;
    assert Scaled(30, 2) == 120 && Scaled(30, 4) == 480 && Scaled(30, 5) == 960;
    if a >= 7 {
      ScaledGrows(60, 6, a - 1);
    }
    if a >= 6 {
      ScaledGrows(30, 5, a - 1);
    }
  }

  /** The delays a row can meet before its attempts run out: the follow-up cap is reached by neither. */
  lemma DelaySchedules(a: nat)
    ensures 1 <= a < FOLLOW_UP_POLICY.maxAttempts ==>
              NextAttemptDelay(FOLLOW_UP_POLICY, a).value ==
              if a == 1 then 60 else if a == 2 then 120 else if a == 3 then 240 else 480
    ensures 1 <= a < ANALYSIS_POLICY.maxAttempts ==>
              NextAttemptDelay(ANALYSIS_POLICY, a).value == if a == 1 then 30 else 60
  {
    assert Scaled(60, 0) == 60 && Scaled(60, 1) == 120 && Scaled(60, 2) == 240 && Scaled(60, 3) == 480;
    assert Scaled(30, 0) == 30 && Scaled(30, 1) == 60;
  }
}
