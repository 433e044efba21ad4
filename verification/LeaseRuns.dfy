/** What holds of every run of the lease protocol. */
module LeaseRuns {
  import opened Wrappers
  import opened RetryPolicy
  import opened LeaseProtocol

  // -- The inductive invariant ---------------------------------------------------

  /** The facts about one row that every step keeps. */
  ghost predicate WellFormed(p: Policy, j: Job) {
    && (j.nextAttemptAt.Some? ==> j.executable && !Terminal(j.status))
    && (j.executionId.Some? <==> j.attemptCount >= 1)
    && (j.lastAttemptedAt.Some? <==> j.attemptCount >= 1)
    && (j.status == Pending ==> j.attemptCount == 0 && j.failureReason == None && j.completedAt == None)
    && (j.status == Processing ==>
          && j.attemptCount >= 1
          && j.executable
          && j.lastAttemptedAt.Some?
          && j.nextAttemptAt == Some(j.lastAttemptedAt.value + p.lease)
          && j.completedAt == None)
    && (j.status == Failed ==>
          && j.attemptCount >= 1
          && j.executable
          && j.failureReason.Some?
          && j.completedAt == None
          && (j.nextAttemptAt == None <==> j.attemptCount >= p.maxAttempts))
    && (p.clearsReason ==> (j.failureReason.Some? ==> j.status.Failed? || j.status.Cancelled?))
    && (j.failureReason.Some? ==> j.failureReason.value in p.reasons)
    && (j.completedAt.Some? ==> j.status == Completed)
  }

  lemma StepKeepsWellFormed(p: Policy, s: Snapshot, step: Step, s': Snapshot, id: nat)
    requires Sound(p) && Next(p, s, step, s')
    requires id in s.rows ==> WellFormed(p, s.rows[id])
    requires id in s'.rows
    ensures WellFormed(p, s'.rows[id])
  {
  }

  lemma {:induction false} ReachableWellFormed(p: Policy, states: seq<Snapshot>, steps: seq<Step>, k: nat, id: nat)
    requires IsRun(p, states, steps) && Has(states, k, id)
    ensures WellFormed(p, Row(states, k, id))
  {
    if k > 0 {
      assert StepAt(p, states, steps, k - 1);
      if Has(states, k - 1, id) {
        ReachableWellFormed(p, states, steps, k - 1, id);
      }
      StepKeepsWellFormed(p, states[k - 1], steps[k - 1], states[k], id);
    }
  }

  /** From `k` on a row stays, keeps its owner and type, and never gets another execution identity. */
  lemma {:induction false} RowsPersist(p: Policy, states: seq<Snapshot>, steps: seq<Step>, i: nat, k: nat, id: nat)
    requires IsRun(p, states, steps) && i <= k < |states| && Has(states, i, id)
    ensures Has(states, k, id)
    ensures states[i].clock <= states[k].clock
    ensures Row(states, k, id).tenant == Row(states, i, id).tenant
    ensures Row(states, k, id).executable == Row(states, i, id).executable
    ensures Row(states, k, id).attemptCount >= Row(states, i, id).attemptCount
    ensures Row(states, i, id).executionId.Some? ==>
              Row(states, k, id).executionId == Row(states, i, id).executionId
  {
    if i < k {
      assert StepAt(p, states, steps, k - 1);
      RowsPersist(p, states, steps, i, k - 1, id);
    }
  }

  /** A completed or cancelled row is frozen in every field for the rest of the run. */
  lemma {:induction false} TerminalRowsAreFrozen(p: Policy, states: seq<Snapshot>, steps: seq<Step>, i: nat, k: nat, id: nat)
    requires IsRun(p, states, steps) && i <= k < |states| && Has(states, i, id)
    requires Terminal(Row(states, i, id).status)
    ensures Has(states, k, id) && Row(states, k, id) == Row(states, i, id)
  {
    if i < k {
      assert StepAt(p, states, steps, k - 1);
      TerminalRowsAreFrozen(p, states, steps, i, k - 1, id);
      ReachableWellFormed(p, states, steps, k - 1, id);
    }
  }

  /** Once completed or cancelled, a row is never claimed again and no outcome of it is accepted. */
  lemma TerminalRowsNeverRun(p: Policy, states: seq<Snapshot>, steps: seq<Step>, i: nat, k: nat, id: nat)
    requires IsRun(p, states, steps) && i <= k < |steps| && Has(states, i, id)
    requires Terminal(Row(states, i, id).status)
    ensures !Claims(steps[k], id) && !RecordsOutcome(p, states[k].rows, steps[k], id)
  {
    TerminalRowsAreFrozen(p, states, steps, i, k, id);
    assert StepAt(p, states, steps, k);
  }

  /**
   Operators close rows. Completing by hand also works on a row in flight, whose holder then finds
   its own outcome rejected; cancelling never does.
   */
  lemma ClosingInFlight(p: Policy, rows: Table, tenant: nat, id: nat, execution: nat, now: int)
    requires Owns(rows, tenant, id, execution)
    ensures Perform(p, rows, Close(tenant, now, id, true)) == Err(InvalidTransition)
    ensures var rows' := Apply(p, rows, Close(tenant, now, id, false));
            && rows'[id].status == Completed && rows'[id].completedAt == rows[id].completedAt
            && forall later :: Perform(p, rows', Complete(tenant, later, id, execution)) == Err(Conflict)
  {
  }

  /** Operators may complete a row that is pending or in flight and cancel one that is pending or failed. */
  lemma ClosingAcceptedIff(p: Policy, rows: Table, tenant: nat, id: nat, now: int)
    ensures Perform(p, rows, Close(tenant, now, id, false)).Ok? <==>
            id in rows && rows[id].tenant == tenant
            && (rows[id].status.Pending? || rows[id].status.Processing? || rows[id].status.Completed?)
    ensures Perform(p, rows, Close(tenant, now, id, true)).Ok? <==>
            id in rows && rows[id].tenant == tenant
            && (rows[id].status.Pending? || rows[id].status.Failed? || rows[id].status.Cancelled?)
    ensures forall cancel :: Perform(p, rows, Close(tenant, now, id, cancel)).Err? ==>
              Perform(p, rows, Close(tenant, now, id, cancel)).error ==
              if id in rows && rows[id].tenant == tenant then InvalidTransition else NotFound
    ensures id in rows && rows[id].tenant == tenant && (rows[id].status.Completed? || rows[id].status.Cancelled?) ==>
              Apply(p, rows, Close(tenant, now, id, rows[id].status.Cancelled?)) == rows
  {
    if Visible(rows, tenant, id) {
      assert rows[id := rows[id]] == rows;
    }
  }

  /**
   An accepted close takes effect: the row is completed or cancelled as asked, nothing else of it
   changes but the deadline, and no clock value makes it claimable again.
   */
  lemma ClosedRow(p: Policy, states: seq<Snapshot>, steps: seq<Step>, k: nat, later: int)
    requires IsRun(p, states, steps) && k < |steps| && steps[k].Close? && Perform(p, states[k].rows, steps[k]).Ok?
    ensures Has(states, k, steps[k].id) && Has(states, k + 1, steps[k].id)
    ensures var j, j' := Row(states, k, steps[k].id), Row(states, k + 1, steps[k].id);
            && j'.status == (if steps[k].cancel then Cancelled else Completed)
            && j' == j.(status := j'.status, nextAttemptAt := None)
            && forall tenant :: !Eligible(j', tenant, later)
  {
    assert StepAt(p, states, steps, k);
    ReachableWellFormed(p, states, steps, k, steps[k].id);
  }

  /**
   No stranded row: the rows that some clock value makes claimable are exactly the ones in flight,
   the ones failed with attempts left, and the pending ones that carry a deadline; the clock value
   is the row's own `nextAttemptAt`, for a row in flight the last claim plus one lease.
   */
  lemma NoStrandedRow(p: Policy, states: seq<Snapshot>, steps: seq<Step>, k: nat, id: nat)
    requires IsRun(p, states, steps) && Has(states, k, id)
    ensures var j := Row(states, k, id);
            var live := || j.status == Processing
                        || (j.status == Failed && j.attemptCount < p.maxAttempts)
                        || (j.status == Pending && j.nextAttemptAt.Some?);
            && (live <==> j.nextAttemptAt.Some?)
            && (forall t :: Eligible(j, j.tenant, t) <==> live && j.nextAttemptAt.value <= t)
            && (j.status == Processing ==>
                  j.lastAttemptedAt.Some? && j.nextAttemptAt.value == j.lastAttemptedAt.value + p.lease)
  {
    ReachableWellFormed(p, states, steps, k, id);
  }

  /** A new row can be claimed from its due time on, by its own tenant, if its type is executable. */
  lemma CreatedRowIsDue(p: Policy, states: seq<Snapshot>, steps: seq<Step>, k: nat, tenant: nat, t: int)
    requires IsRun(p, states, steps) && k < |steps| && steps[k].Create?
    ensures Has(states, k + 1, steps[k].id)
    ensures Eligible(Row(states, k + 1, steps[k].id), tenant, t) <==>
            tenant == steps[k].tenant && steps[k].executable && steps[k].due.Some? && steps[k].due.value <= t
  {
    assert StepAt(p, states, steps, k);
  }

  /** A new row: pending, untried, with its due time as deadline if its type is executable. */
  lemma CreatedRow(p: Policy, states: seq<Snapshot>, steps: seq<Step>, k: nat)
    requires IsRun(p, states, steps) && k < |steps| && steps[k].Create?
    ensures !Has(states, k, steps[k].id) && Has(states, k + 1, steps[k].id)
    ensures var j := Row(states, k + 1, steps[k].id);
            && j.tenant == steps[k].tenant && j.executable == steps[k].executable
            && j.status == Pending && j.attemptCount == 0
            && j.nextAttemptAt == (if steps[k].executable then steps[k].due else None)
            && j.lastAttemptedAt == None && j.completedAt == None && j.failureReason == None && j.executionId == None
  {
    assert StepAt(p, states, steps, k);
  }

  /**
   A claim takes an unlocked row of its tenant whose deadline has passed, and none with an earlier
   deadline waits unlocked. The row is in flight under a full lease from now on, with one more attempt,
   under its own identity if it has one and under the new one otherwise.
   */
  lemma ClaimedRow(p: Policy, states: seq<Snapshot>, steps: seq<Step>, k: nat, id: nat)
    requires IsRun(p, states, steps) && k < |steps| && Claims(steps[k], id)
    ensures Has(states, k, id) && Has(states, k + 1, id)
    ensures var j, now := Row(states, k, id), steps[k].now;
            && j.tenant == steps[k].tenant && j.executable && id !in steps[k].locked
            && (j.status == Pending || j.status == Processing || j.status == Failed)
            && j.nextAttemptAt.Some? && j.nextAttemptAt.value <= now
            && (forall x :: Has(states, k, x) && x !in steps[k].locked && Row(states, k, x).tenant == steps[k].tenant
                            && Row(states, k, x).nextAttemptAt.Some? ==>
                  Row(states, k, x).nextAttemptAt.value >= j.nextAttemptAt.value)
            && Row(states, k + 1, id) ==
               Job(j.tenant, true, Processing, j.attemptCount + 1, Some(now + p.lease), Some(now), None,
                   if p.clearsReason then None else j.failureReason,
                   if j.attemptCount == 0 then Some(steps[k].newId) else j.executionId)
  {
    assert StepAt(p, states, steps, k);
    ReachableWellFormed(p, states, steps, k, id);
    forall x | Has(states, k, x) && x !in steps[k].locked && Row(states, k, x).tenant == steps[k].tenant
               && Row(states, k, x).nextAttemptAt.Some?
      ensures Row(states, k, x).nextAttemptAt.value >= Row(states, k, id).nextAttemptAt.value
    {
      ReachableWellFormed(p, states, steps, k, x);
    }
  }

  /** A claim that takes nothing leaves every row as it is, and only locked rows of the tenant were due. */
  lemma NothingToClaim(p: Policy, states: seq<Snapshot>, steps: seq<Step>, k: nat, x: nat)
    requires IsRun(p, states, steps) && k < |steps| && steps[k].Claim? && steps[k].pick == None
    requires Has(states, k, x) && Row(states, k, x).tenant == steps[k].tenant
    requires Row(states, k, x).nextAttemptAt.Some? && Row(states, k, x).nextAttemptAt.value <= steps[k].now
    ensures x in steps[k].locked && states[k + 1].rows == states[k].rows
  {
    assert StepAt(p, states, steps, k);
    ReachableWellFormed(p, states, steps, k, x);
  }

  /**
   An outcome is accepted exactly from the identity under which the row is in flight, for a reason of
   the vocabulary; otherwise the error tells the unknown reason, the foreign row and the lost row apart.
   */
  lemma OutcomeAcceptedIff(p: Policy, states: seq<Snapshot>, steps: seq<Step>, k: nat)
    requires IsRun(p, states, steps) && k < |steps| && (steps[k].Complete? || steps[k].Fail?)
    ensures var step, rows := steps[k], states[k].rows;
            var known, own := step.Fail? ==> step.reason in p.reasons, step.id in rows && rows[step.id].tenant == step.tenant;
            match Perform(p, rows, step)
            case Ok(_) => known && own && rows[step.id].status == Processing && rows[step.id].executionId == Some(step.execution)
            case Err(InvalidReason) => !known
            case Err(NotFound) => known && !own
            case Err(Conflict) =>
              known && own && !(rows[step.id].status == Processing && rows[step.id].executionId == Some(step.execution))
            case Err(_) => false
  {
    if Has(states, k, steps[k].id) {
      ReachableWellFormed(p, states, steps, k, steps[k].id);
    }
  }

  /**
   What an accepted outcome writes. A completion stamps its clock value and clears reason and deadline;
   a failure stores the reason and, with attempts left, the deadline min(base * 2^(a-1), cap) from now.
   */
  lemma FinishedRow(p: Policy, states: seq<Snapshot>, steps: seq<Step>, k: nat, id: nat)
    requires IsRun(p, states, steps) && k < |steps| && RecordsOutcome(p, states[k].rows, steps[k], id)
    ensures Has(states, k, id) && Has(states, k + 1, id) && Row(states, k, id).attemptCount >= 1
    ensures var j, j', now := Row(states, k, id), Row(states, k + 1, id), steps[k].now;
            && (steps[k].Complete? ==>
                  j' == j.(status := Completed, completedAt := Some(now), failureReason := None, nextAttemptAt := None))
            && (steps[k].Fail? ==>
                  var delay := p.base * Pow(2, j.attemptCount - 1);
                  j' == j.(status := Failed, failureReason := Some(steps[k].reason),
                           nextAttemptAt := if j.attemptCount >= p.maxAttempts then None
                                            else Some(now + if delay <= p.cap then delay else p.cap)))
  {
    assert StepAt(p, states, steps, k);
    ReachableWellFormed(p, states, steps, k, id);
    BackoffDoublesUpToCap(p, Row(states, k, id).attemptCount);
  }

  /** The row a step may change. */
  predicate Touches(step: Step, id: nat) {
    match step
    case Claim(_, _, _, pick, _) => pick == Some(id)
    case Idle(_, _) => false
    case _ => step.id == id
  }

  /** No step changes any other row, and a rejected one changes none. */
  lemma OtherRowsUntouched(p: Policy, states: seq<Snapshot>, steps: seq<Step>, k: nat, id: nat)
    requires IsRun(p, states, steps) && k < |steps|
    requires !Touches(steps[k], id) || Perform(p, states[k].rows, steps[k]).Err?
    ensures Has(states, k, id) <==> Has(states, k + 1, id)
    ensures Has(states, k, id) ==> Row(states, k + 1, id) == Row(states, k, id)
  {
    assert StepAt(p, states, steps, k);
  }

  /** Reprocessing works on failed rows with attempts left: claimable at once, with no attempt given back. */
  lemma ReprocessedRowIsDue(p: Policy, states: seq<Snapshot>, steps: seq<Step>, k: nat, t: int)
    requires IsRun(p, states, steps) && k < |steps| && steps[k].Reprocess? && Has(states, k, steps[k].id)
    ensures Has(states, k + 1, steps[k].id)
    ensures var j, j' := Row(states, k, steps[k].id), Row(states, k + 1, steps[k].id);
            && (Perform(p, states[k].rows, steps[k]).Ok? <==>
                  j.tenant == steps[k].tenant && j.status == Failed && j.nextAttemptAt.Some?)
            && (Perform(p, states[k].rows, steps[k]).Ok? ==>
                  && (Eligible(j', steps[k].tenant, t) <==> steps[k].now <= t)
                  && j' == j.(nextAttemptAt := Some(steps[k].now))
                  && j'.attemptCount == j.attemptCount < p.maxAttempts)
            && (Perform(p, states[k].rows, steps[k]).Err? ==>
                  Perform(p, states[k].rows, steps[k]).error == if j.tenant == steps[k].tenant then NotRetryable else NotFound)
  {
    assert StepAt(p, states, steps, k);
    ReachableWellFormed(p, states, steps, k, steps[k].id);
  }

  // -- Counting --------------------------------------------------------------------

  /** How often each kind of event has happened to one row. */
  datatype Tally = Tally(first: nat, retry: nat, expired: nat, failures: nat, completions: nat)

  function AllClaims(t: Tally): int { t.first + t.retry + t.expired }

  function Outcomes(t: Tally): int { t.failures + t.completions }

  const NO_EVENTS := Tally(0, 0, 0, 0, 0)

  datatype Event = FirstClaim | RetryClaim | ExpiredClaim | Failure | Completion | Nothing

  /** Claims are told apart by the status the row had: pending, failed, or an expired lease. */
  function EventOf(p: Policy, rows: Table, step: Step, id: nat): Event {
    if id !in rows then Nothing
    else if Claims(step, id) then
      (match rows[id].status
       case Pending => FirstClaim
       case Failed => RetryClaim
       case _ => ExpiredClaim)
    else if RecordsOutcome(p, rows, step, id) then
      if step.Fail? then Failure else Completion
    else Nothing
  }

  function Counted(t: Tally, e: Event): Tally {
    match e
    case FirstClaim => t.(first := t.first + 1)
    case RetryClaim => t.(retry := t.retry + 1)
    case ExpiredClaim => t.(expired := t.expired + 1)
    case Failure => t.(failures := t.failures + 1)
    case Completion => t.(completions := t.completions + 1)
    case Nothing => t
  }

  /** The events of the first `k` steps. */
  ghost function TallyUpTo(p: Policy, states: seq<Snapshot>, steps: seq<Step>, k: nat, id: nat): Tally
    requires k <= |steps| <= |states|
  {
    if k == 0 then NO_EVENTS
    else Counted(TallyUpTo(p, states, steps, k - 1, id), EventOf(p, states[k - 1].rows, steps[k - 1], id))
  }

  /** The bookkeeping that ties a row's columns to its history. */
  ghost predicate Accounted(p: Policy, t: Tally, j: Job) {
    && j.attemptCount == t.first + t.retry + t.expired
    && t.first <= 1
    && (t.first == 0 ==> t.retry == t.expired == t.failures == t.completions == 0)
    && (j.status == Pending ==> t.first == 0)
    && (j.status == Processing ==> t.first == 1 && t.failures == t.retry < p.maxAttempts && t.completions == 0)
    && (j.status == Failed ==> t.first == 1 && t.failures == t.retry + 1 <= p.maxAttempts && t.completions == 0)
    && (j.status == Completed && t.first == 1 ==> t.failures == t.retry < p.maxAttempts && t.completions <= 1)
    && (j.status == Cancelled && t.first == 1 ==> t.failures == t.retry + 1 <= p.maxAttempts && t.completions == 0)
  }

  /** How an event moves the status and the attempt count of its row. */
  ghost predicate Moves(p: Policy, e: Event, j: Job, j': Job) {
    && j'.attemptCount == j.attemptCount + (if e.FirstClaim? || e.RetryClaim? || e.ExpiredClaim? then 1 else 0)
    && match e
       case FirstClaim => j.status == Pending && j'.status == Processing
       case RetryClaim => j.status == Failed && j.attemptCount < p.maxAttempts && j'.status == Processing
       case ExpiredClaim => j.status == Processing && j'.status == Processing
       case Failure => j.status == Processing && j'.status == Failed
       case Completion => j.status == Processing && j'.status == Completed
       case Nothing =>
         || j'.status == j.status
         || (j'.status == Completed && (j.status.Pending? || j.status.Processing?))
         || (j'.status == Cancelled && (j.status.Pending? || j.status.Failed?))
  }

  lemma StepMoves(p: Policy, s: Snapshot, step: Step, s': Snapshot, id: nat)
    requires Sound(p) && Next(p, s, step, s') && id in s.rows && WellFormed(p, s.rows[id])
    ensures id in s'.rows && Moves(p, EventOf(p, s.rows, step, id), s.rows[id], s'.rows[id])
  {
  }

  lemma MovesKeepAccount(p: Policy, e: Event, j: Job, j': Job, t: Tally)
    requires Sound(p) && Moves(p, e, j, j') && Accounted(p, t, j)
    ensures Accounted(p, Counted(t, e), j')
  {
    match e {
      case FirstClaim =>
      case RetryClaim =>
      case ExpiredClaim =>
      case Failure =>
      case Completion =>
      case Nothing =>
    }
  }

  lemma CreatedRowsArePending(p: Policy, s: Snapshot, step: Step, s': Snapshot, id: nat)
    requires Next(p, s, step, s') && id !in s.rows
    ensures id in s'.rows ==> s'.rows[id].status == Pending && s'.rows[id].attemptCount == 0
  {
  }

  lemma StepKeepsAccount(p: Policy, s: Snapshot, step: Step, s': Snapshot, id: nat, t: Tally)
    requires Sound(p) && Next(p, s, step, s')
    requires if id in s.rows then WellFormed(p, s.rows[id]) && Accounted(p, t, s.rows[id]) else t == NO_EVENTS
    ensures var t' := Counted(t, EventOf(p, s.rows, step, id));
            if id in s'.rows then Accounted(p, t', s'.rows[id]) else t' == NO_EVENTS
  {
    if id in s.rows {
      StepMoves(p, s, step, s', id);
      MovesKeepAccount(p, EventOf(p, s.rows, step, id), s.rows[id], s'.rows[id], t);
    } else {
      CreatedRowsArePending(p, s, step, s', id);
    }
  }

  lemma {:induction false} ReachableAccounted(p: Policy, states: seq<Snapshot>, steps: seq<Step>, k: nat, id: nat)
    requires IsRun(p, states, steps) && k < |states|
    ensures if Has(states, k, id) then Accounted(p, TallyUpTo(p, states, steps, k, id), Row(states, k, id))
            else TallyUpTo(p, states, steps, k, id) == NO_EVENTS
  {
    if k > 0 {
      assert StepAt(p, states, steps, k - 1);
      ReachableAccounted(p, states, steps, k - 1, id);
      if Has(states, k - 1, id) {
        ReachableWellFormed(p, states, steps, k - 1, id);
      }
      StepKeepsAccount(p, states[k - 1], steps[k - 1], states[k], id, TallyUpTo(p, states, steps, k - 1, id));
    }
  }

  lemma AccountBounds(p: Policy, t: Tally, j: Job)
    requires Sound(p) && Accounted(p, t, j)
    ensures t.failures <= p.maxAttempts && t.completions <= 1
    ensures j.attemptCount == AllClaims(t) && j.attemptCount <= p.maxAttempts + t.expired
  {
  }

  /**
   Bounded retries over every run: a row records at most `maxAttempts` failures and one completion,
   `attemptCount` is the number of its claims, and only claims of an expired lease can lift it past
   `maxAttempts`, each by one.
   */
  lemma BoundedRetries(p: Policy, states: seq<Snapshot>, steps: seq<Step>, k: nat, id: nat)
    requires IsRun(p, states, steps) && Has(states, k, id)
    ensures var t := TallyUpTo(p, states, steps, k, id);
            var j := Row(states, k, id);
            && t.failures <= p.maxAttempts
            && t.completions <= 1
            && j.attemptCount == AllClaims(t)
            && j.attemptCount <= p.maxAttempts + t.expired
  {
    ReachableAccounted(p, states, steps, k, id);
    AccountBounds(p, TallyUpTo(p, states, steps, k, id), Row(states, k, id));
  }

  /**
   Claims and outcomes alternate. Between two states with no claim of the row in between, the first
   right after a claim, at most one outcome is recorded; and if the row is then claimed again, that
   claim is a retry exactly when one failure was recorded, and takes over an expired lease exactly
   when nothing was.
   */
  lemma ClaimsAndOutcomesAlternate(p: Policy, states: seq<Snapshot>, steps: seq<Step>, i: nat, j: nat, id: nat)
    requires IsRun(p, states, steps) && i < j < |states|
    requires Has(states, i, id) && Claims(steps[i], id)
    requires AllClaims(TallyUpTo(p, states, steps, j, id)) == AllClaims(TallyUpTo(p, states, steps, i + 1, id))
    ensures Has(states, j, id)
    ensures var before, after := TallyUpTo(p, states, steps, i + 1, id), TallyUpTo(p, states, steps, j, id);
            && Outcomes(before) <= Outcomes(after) <= Outcomes(before) + 1
            && (j < |steps| && Claims(steps[j], id) ==>
                  && after.completions == 0
                  && (Row(states, j, id).status == Failed <==> after.failures == before.failures + 1)
                  && (Row(states, j, id).status == Processing <==> after.failures == before.failures))
  {
    ClaimPutsInFlight(p, states, steps, i, id);
    RowsPersist(p, states, steps, i + 1, j, id);
    TallyGrows(p, states, steps, i + 1, j, id);
    ReachableAccounted(p, states, steps, i + 1, id);
    ReachableAccounted(p, states, steps, j, id);
    OutcomesInWindow(p, TallyUpTo(p, states, steps, i + 1, id), TallyUpTo(p, states, steps, j, id),
                     Row(states, i + 1, id), Row(states, j, id));
    if j < |steps| {
      assert StepAt(p, states, steps, j);
    }
  }

  lemma ClaimPutsInFlight(p: Policy, states: seq<Snapshot>, steps: seq<Step>, i: nat, id: nat)
    requires IsRun(p, states, steps) && i < |steps| && Claims(steps[i], id)
    ensures Has(states, i, id) && Has(states, i + 1, id)
    ensures Row(states, i + 1, id) == ClaimedJob(p, Row(states, i, id), steps[i].now, steps[i].newId)
  {
    assert StepAt(p, states, steps, i);
  }

  lemma OutcomesInWindow(p: Policy, a: Tally, b: Tally, j: Job, j': Job)
    requires Accounted(p, a, j) && Accounted(p, b, j') && j.status == Processing
    requires a.first <= b.first && a.retry <= b.retry && a.expired <= b.expired
    requires AllClaims(a) == AllClaims(b)
    ensures Outcomes(a) <= Outcomes(b) <= Outcomes(a) + 1
    ensures j'.status != Pending
    ensures j'.status.Failed? || j'.status.Processing? ==> b.completions == 0
    ensures j'.status.Failed? ==> b.failures == a.failures + 1
    ensures j'.status.Processing? ==> b.failures == a.failures
  {
  }

  lemma {:induction false} TallyGrows(p: Policy, states: seq<Snapshot>, steps: seq<Step>, i: nat, k: nat, id: nat)
    requires i <= k <= |steps| <= |states|
    ensures var a, b := TallyUpTo(p, states, steps, i, id), TallyUpTo(p, states, steps, k, id);
            a.first <= b.first && a.retry <= b.retry && a.expired <= b.expired
            && a.failures <= b.failures && a.completions <= b.completions
  {
    if i < k {
      TallyGrows(p, states, steps, i, k - 1, id);
    }
  }

  /** An accepted completion is final: it stamps its own clock value and nothing changes it again. */
  lemma CompletionIsFinal(p: Policy, states: seq<Snapshot>, steps: seq<Step>, i: nat, k: nat, id: nat)
    requires IsRun(p, states, steps) && i < k < |states|
    requires steps[i].Complete? && RecordsOutcome(p, states[i].rows, steps[i], id)
    ensures Has(states, k, id)
    ensures var j := Row(states, k, id);
            j.status == Completed && j.completedAt == Some(steps[i].now) && j.failureReason == None
  {
    assert StepAt(p, states, steps, i);
    TerminalRowsAreFrozen(p, states, steps, i + 1, k, id);
  }

  // -- Time --------------------------------------------------------------------------

  /** While no outcome is recorded, the lease runs from a claim no earlier than the `i`-th step. */
  lemma {:induction false} LeaseHeldSince(p: Policy, states: seq<Snapshot>, steps: seq<Step>, i: nat, k: nat, id: nat)
    requires IsRun(p, states, steps) && i < k < |states|
    requires Has(states, i, id) && Claims(steps[i], id)
    requires forall m :: i < m < k ==> !RecordsOutcome(p, states[m].rows, steps[m], id)
    ensures Has(states, k, id) && steps[i].now <= states[k].clock
    ensures var j := Row(states, k, id);
            || Terminal(j.status)
            || (j.status == Processing && j.lastAttemptedAt.Some? && steps[i].now <= j.lastAttemptedAt.value)
  {
    assert StepAt(p, states, steps, k - 1);
    if i + 1 < k {
      LeaseHeldSince(p, states, steps, i, k - 1, id);
      assert !RecordsOutcome(p, states[k - 1].rows, steps[k - 1], id);
      ReachableWellFormed(p, states, steps, k - 1, id);
    }
  }

  /** Lease exclusion: two claims with no recorded outcome between them are a full lease apart. */
  lemma LeaseExclusion(p: Policy, states: seq<Snapshot>, steps: seq<Step>, i: nat, j: nat, id: nat)
    requires IsRun(p, states, steps) && i < j < |steps|
    requires Has(states, i, id) && Claims(steps[i], id) && Claims(steps[j], id)
    requires forall m :: i < m < j ==> !RecordsOutcome(p, states[m].rows, steps[m], id)
    ensures steps[j].now >= steps[i].now + p.lease
  {
    LeaseHeldSince(p, states, steps, i, j, id);
    ReachableWellFormed(p, states, steps, j, id);
    assert StepAt(p, states, steps, j);
  }

  /** A failed row keeps its reason and backoff deadline until somebody claims, reprocesses or cancels it. */
  lemma {:induction false} BackoffHeldSince(p: Policy, states: seq<Snapshot>, steps: seq<Step>, i: nat, k: nat, id: nat)
    requires IsRun(p, states, steps) && i < k < |states|
    requires Has(states, i, id) && steps[i].Fail? && RecordsOutcome(p, states[i].rows, steps[i], id)
    requires forall m :: i < m < k ==> !Claims(steps[m], id) && !(steps[m].Reprocess? && steps[m].id == id)
    ensures Has(states, k, id)
    ensures var a, j := Row(states, i, id).attemptCount, Row(states, k, id);
            && a >= 1
            && j.failureReason == Some(steps[i].reason)
            && (j.status == Cancelled
                || (j.status == Failed && j.attemptCount == a
                    && j.nextAttemptAt == if a >= p.maxAttempts then None
                                          else Some(steps[i].now + NextAttemptDelay(p, a).value)))
  {
    ReachableWellFormed(p, states, steps, i, id);
    assert StepAt(p, states, steps, k - 1);
    if i + 1 < k {
      BackoffHeldSince(p, states, steps, i, k - 1, id);
      assert !Claims(steps[k - 1], id) && !(steps[k - 1].Reprocess? && steps[k - 1].id == id);
      ReachableWellFormed(p, states, steps, k - 1, id);
    }
  }

  /**
   After a failure recorded at time t with count a, the next claim comes no earlier than t plus the
   backoff of a, unless an operator reprocessed the row; with no attempts left there is none.
   */
  lemma BackoffRespected(p: Policy, states: seq<Snapshot>, steps: seq<Step>, i: nat, j: nat, id: nat)
    requires IsRun(p, states, steps) && i < j < |steps|
    requires Has(states, i, id) && steps[i].Fail? && RecordsOutcome(p, states[i].rows, steps[i], id)
    requires Claims(steps[j], id)
    requires forall m :: i < m < j ==> !Claims(steps[m], id) && !(steps[m].Reprocess? && steps[m].id == id)
    ensures 1 <= Row(states, i, id).attemptCount < p.maxAttempts
    ensures steps[j].now >= steps[i].now + NextAttemptDelay(p, Row(states, i, id).attemptCount).value
  {
    BackoffHeldSince(p, states, steps, i, j, id);
    assert StepAt(p, states, steps, j);
  }

  // -- What the code does not promise ------------------------------------------------

  /**
   Attempts beyond the ceiling. In every reachable state a claim raises `attemptCount` past
   `maxAttempts` exactly when it takes over an expired lease of a row already at the ceiling.
   */
  lemma ClaimExceedsCeilingIff(p: Policy, states: seq<Snapshot>, steps: seq<Step>, k: nat, id: nat)
    requires IsRun(p, states, steps) && k < |steps| && Has(states, k, id) && Claims(steps[k], id)
    ensures Has(states, k + 1, id)
    ensures Row(states, k + 1, id).attemptCount > p.maxAttempts
            <==> Row(states, k, id).status == Processing && Row(states, k, id).attemptCount >= p.maxAttempts
  {
    assert StepAt(p, states, steps, k);
    ReachableWellFormed(p, states, steps, k, id);
  }

  /** The run in which one row is claimed `n` times, each time after the previous holder vanished. */
  ghost function AbandonedJob(p: Policy, n: nat): Job {
    if n == 0 then NewJob(0, true, Some(0))
    else ClaimedJob(p, AbandonedJob(p, n - 1), p.lease * (n - 1), 7)
  }

  lemma AbandonedColumns(p: Policy, n: nat)
    ensures var j := AbandonedJob(p, n);
            && j.tenant == 0 && j.executable && j.attemptCount == n
            && j.status == (if n == 0 then Pending else Processing)
            && j.nextAttemptAt == Some(p.lease * n)
            && (n >= 1 ==> j.executionId == Some(7))
  {
    if n > 0 {
      AbandonedColumns(p, n - 1);
      assert p.lease * (n - 1) + p.lease == p.lease * n;
    }
  }

  ghost function AbandonedStates(p: Policy, n: nat): seq<Snapshot> {
    if n == 0 then [Snapshot(0, map[]), Snapshot(0, map[0 := AbandonedJob(p, 0)])]
    else AbandonedStates(p, n - 1) + [Snapshot(p.lease * (n - 1), map[0 := AbandonedJob(p, n)])]
  }

  ghost function AbandonedSteps(p: Policy, n: nat): seq<Step> {
    if n == 0 then [Create(0, 0, 0, true, Some(0))]
    else AbandonedSteps(p, n - 1) + [Claim(0, p.lease * (n - 1), {}, Some(0), 7)]
  }

  /** "No infinite retry loop" holds of failures only: for every n some run claims one row n times. */
  lemma {:induction false} ReclaimsAreUnbounded(p: Policy, n: nat)
    requires Sound(p)
    ensures IsRun(p, AbandonedStates(p, n), AbandonedSteps(p, n))
    ensures |AbandonedStates(p, n)| == n + 2
    ensures AbandonedStates(p, n)[n + 1] == Snapshot(if n == 0 then 0 else p.lease * (n - 1), map[0 := AbandonedJob(p, n)])
    ensures AbandonedJob(p, n).attemptCount == n
  {
    AbandonedColumns(p, n);
    var states, steps := AbandonedStates(p, n), AbandonedSteps(p, n);
    if n == 0 {
      assert StepAt(p, states, steps, 0);
    } else {
      ReclaimsAreUnbounded(p, n - 1);
      AbandonedColumns(p, n - 1);
      var states', steps' := AbandonedStates(p, n - 1), AbandonedSteps(p, n - 1);
      assert p.lease * (n - 1) >= (if n == 1 then 0 else p.lease * (n - 2)) by {
        if n > 1 { assert p.lease * (n - 1) == p.lease * (n - 2) + p.lease; }
      }
      forall k: nat | k < |steps| ensures StepAt(p, states, steps, k) {
        if k < n {
          assert StepAt(p, states', steps', k);
          assert states[k] == states'[k] && states[k + 1] == states'[k + 1] && steps[k] == steps'[k];
        } else {
          var s := states[n];
          assert s == states'[n] && s.rows == map[0 := AbandonedJob(p, n - 1)];
          assert Eligible(s.rows[0], 0, p.lease * (n - 1));
          assert Next(p, s, steps[n], states[n + 1]);
        }
      }
    }
  }

  /**
   The execution identity is reused by every reclaim, so it does not tell holders apart: whoever ever
   claimed the row has its outcome accepted exactly when the row is in flight, be it under a later
   claim or not.
   */
  lemma HolderAcceptedIffInFlight(p: Policy, states: seq<Snapshot>, steps: seq<Step>, i: nat, k: nat, id: nat, now: int)
    requires IsRun(p, states, steps) && i < k < |states|
    requires Has(states, i, id) && Claims(steps[i], id)
    ensures Has(states, i + 1, id) && Row(states, i + 1, id).executionId.Some? && Has(states, k, id)
    ensures var holder := Row(states, i + 1, id).executionId.value;
            Perform(p, states[k].rows, Complete(steps[i].tenant, now, id, holder)).Ok?
            <==> Row(states, k, id).status == Processing
    ensures var holder := Row(states, i + 1, id).executionId.value;
            forall reason :: reason in p.reasons ==>
              (Perform(p, states[k].rows, Fail(steps[i].tenant, now, id, holder, reason)).Ok?
               <==> Row(states, k, id).status == Processing)
  {
    assert StepAt(p, states, steps, i);
    ReachableWellFormed(p, states, steps, i, id);
    RowsPersist(p, states, steps, i + 1, k, id);
    ReachableWellFormed(p, states, steps, k, id);
  }

  /** Two claims a lease apart; the first holder then completes the row under the second one's lease. */
  lemma StaleHolderCanFinish(p: Policy)
    requires Sound(p)
    ensures var states, steps := AbandonedStates(p, 2), AbandonedSteps(p, 2);
            && |steps| == 3 && |states| == 4
            && IsRun(p, states, steps)
            && Claims(steps[1], 0) && Claims(steps[2], 0)
            && Perform(p, states[3].rows, Complete(0, p.lease, 0, 7)).Ok?
  {
    ReclaimsAreUnbounded(p, 2);
    AbandonedColumns(p, 2);
    assert AbandonedSteps(p, 2) == [Create(0, 0, 0, true, Some(0)), Claim(0, p.lease * 0, {}, Some(0), 7),
                                    Claim(0, p.lease * 1, {}, Some(0), 7)] by {
      assert AbandonedSteps(p, 1) == AbandonedSteps(p, 0) + [Claim(0, p.lease * 0, {}, Some(0), 7)];
    }
  }
}
