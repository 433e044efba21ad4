/**
 The claim / execute / retry protocol that follow-up actions and call analyses share: one atomic
 step per service transaction, over the lease columns of a table of jobs. The clock value, the row
 a claim locks, the rows other transactions hold locked and new identifiers are step inputs.
 */
module LeaseProtocol {
  import opened Wrappers
  import opened RetryPolicy

  datatype Status = Pending | Processing | Completed | Cancelled | Failed

  predicate Terminal(s: Status) {
    s.Completed? || s.Cancelled?
  }

  predicate HasEdge(current: Status, target: Status) {
    match current
    case Pending => target.Processing? || target.Completed? || target.Cancelled?
    case Processing => target.Completed? || target.Failed?
    case Failed => target.Processing? || target.Cancelled?
    case Completed => false
    case Cancelled => false
  }

  predicate IsValidTransition(current: Status, target: Status) {
    current == target || HasEdge(current, target)
  }

  /** The lease columns of one row. `executable`: the worker may claim rows of this type. */
  datatype Job = Job(tenant: nat, executable: bool, status: Status, attemptCount: nat,
                     nextAttemptAt: Option<int>, lastAttemptedAt: Option<int>,
                     completedAt: Option<int>, failureReason: Option<Reason>,
                     executionId: Option<nat>)

  type Table = map<nat, Job>

  datatype Error = NotFound | Conflict | NotRetryable | InvalidTransition | InvalidReason | BadCount

  datatype Step =
    | Create(tenant: nat, now: int, id: nat, executable: bool, due: Option<int>)
    | Claim(tenant: nat, now: int, locked: set<nat>, pick: Option<nat>, newId: nat)
    | Complete(tenant: nat, now: int, id: nat, execution: nat)
    | Fail(tenant: nat, now: int, id: nat, execution: nat, reason: Reason)
    | Reprocess(tenant: nat, now: int, id: nat)
    | Close(tenant: nat, now: int, id: nat, cancel: bool)
    | Idle(tenant: nat, now: int)

  /** Matched by the claim query, locks aside. */
  predicate Eligible(j: Job, tenant: nat, now: int) {
    && j.tenant == tenant
    && j.executable
    && (j.status.Pending? || j.status.Processing? || j.status.Failed?)
    && j.nextAttemptAt.Some?
    && j.nextAttemptAt.value <= now
  }

  /** The claim query: a most overdue eligible row among those no other transaction has locked. */
  predicate PickOk(rows: Table, tenant: nat, now: int, locked: set<nat>, pick: Option<nat>) {
    match pick
    case None => forall x :: x in rows && Eligible(rows[x], tenant, now) ==> x in locked
    case Some(id) =>
      && id in rows && id !in locked && Eligible(rows[id], tenant, now)
      && forall x :: x in rows && x !in locked && Eligible(rows[x], tenant, now) ==>
           rows[id].nextAttemptAt.value <= rows[x].nextAttemptAt.value
  }

  // -- What each operation writes to its row ----------------------------------

  function NewJob(tenant: nat, executable: bool, due: Option<int>): Job {
    Job(tenant, executable, Pending, 0, if executable then due else None, None, None, None, None)
  }

  function ClaimedJob(p: Policy, j: Job, now: int, newId: nat): Job {
    j.(status := Processing,
       failureReason := if p.clearsReason then None else j.failureReason,
       attemptCount := j.attemptCount + 1,
       lastAttemptedAt := Some(now),
       nextAttemptAt := Some(now + p.lease),
       executionId := if j.executionId.None? then Some(newId) else j.executionId)
  }

  function CompletedJob(j: Job, now: int): Job {
    j.(status := Completed, completedAt := Some(now), failureReason := None, nextAttemptAt := None)
  }

  function FailedJob(p: Policy, j: Job, now: int, reason: Reason): Result<Job, Error> {
    var failed := j.(status := Failed, failureReason := Some(reason));
    if j.attemptCount >= p.maxAttempts then Ok(failed.(nextAttemptAt := None))
    else
      match NextAttemptDelay(p, j.attemptCount)
      case Ok(delay) => Ok(failed.(nextAttemptAt := Some(now + delay)))
      case Err(_) => Err(BadCount)
  }

  function ClosedJob(j: Job, target: Status): Job {
    if j.status == target then j
    else if Terminal(target) then j.(status := target, nextAttemptAt := None)
    else j.(status := target)
  }

  // -- One step ------------------------------------------------------------------

  predicate Visible(rows: Table, tenant: nat, id: nat) {
    id in rows && rows[id].tenant == tenant
  }

  predicate Owns(rows: Table, tenant: nat, id: nat, execution: nat) {
    && Visible(rows, tenant, id)
    && rows[id].status == Processing
    && rows[id].executionId == Some(execution)
  }

  /** The table after the step, or the error the operation raises. */
  function Perform(p: Policy, rows: Table, step: Step): Result<Table, Error> {
    match step
    case Create(tenant, now, id, executable, due) =>
      Ok(rows[id := NewJob(tenant, executable, due)])
    case Claim(tenant, now, locked, pick, newId) =>
      if pick.None? || pick.value !in rows then Ok(rows)
      else if !IsValidTransition(rows[pick.value].status, Processing) then Err(InvalidTransition)
      else Ok(rows[pick.value := ClaimedJob(p, rows[pick.value], now, newId)])
    case Complete(tenant, now, id, execution) =>
      if !Visible(rows, tenant, id) then Err(NotFound)
      else if !Owns(rows, tenant, id, execution) then Err(Conflict)
      else Ok(rows[id := CompletedJob(rows[id], now)])
    case Fail(tenant, now, id, execution, reason) =>
      if reason !in p.reasons then Err(InvalidReason)
      else if !Visible(rows, tenant, id) then Err(NotFound)
      else if !Owns(rows, tenant, id, execution) then Err(Conflict)
      else
        (match FailedJob(p, rows[id], now, reason)
         case Ok(j) => Ok(rows[id := j])
         case Err(e) => Err(e))
    case Reprocess(tenant, now, id) =>
      if !Visible(rows, tenant, id) then Err(NotFound)
      else if rows[id].status != Failed || rows[id].attemptCount >= p.maxAttempts then Err(NotRetryable)
      else Ok(rows[id := rows[id].(nextAttemptAt := Some(now))])
    case Close(tenant, now, id, cancel) =>
      var target := if cancel then Cancelled else Completed;
      if !Visible(rows, tenant, id) then Err(NotFound)
      else if !IsValidTransition(rows[id].status, target) then Err(InvalidTransition)
      else Ok(rows[id := ClosedJob(rows[id], target)])
    case Idle(_, _) => Ok(rows)
  }

  /** A rejected operation rolls back. */
  function Apply(p: Policy, rows: Table, step: Step): Table {
    match Perform(p, rows, step)
    case Ok(rows') => rows'
    case Err(_) => rows
  }

  // -- Runs ------------------------------------------------------------------------

  datatype Snapshot = Snapshot(clock: int, rows: Table)

  /** Identifiers of new rows are new, claims obey the query, and the clock never runs backwards. */
  ghost predicate Enabled(s: Snapshot, step: Step) {
    && s.clock <= step.now
    && (step.Create? ==> step.id !in s.rows)
    && (step.Claim? ==> PickOk(s.rows, step.tenant, step.now, step.locked, step.pick))
  }

  ghost predicate Next(p: Policy, s: Snapshot, step: Step, s': Snapshot) {
    Enabled(s, step) && s' == Snapshot(step.now, Apply(p, s.rows, step))
  }

  ghost predicate StepAt(p: Policy, states: seq<Snapshot>, steps: seq<Step>, k: nat) {
    k < |steps| && k + 1 < |states| && Next(p, states[k], steps[k], states[k + 1])
  }

  /** Any interleaving of the steps of any number of workers, operators and request handlers. */
  ghost predicate IsRun(p: Policy, states: seq<Snapshot>, steps: seq<Step>) {
    && Sound(p)
    && |states| == |steps| + 1
    && states[0].rows == map[]
    && forall k: nat :: k < |steps| ==> StepAt(p, states, steps, k)
  }

  /** The job's row in the `k`-th state. */
  ghost predicate Has(states: seq<Snapshot>, k: nat, id: nat) {
    k < |states| && id in states[k].rows
  }

  ghost function Row(states: seq<Snapshot>, k: nat, id: nat): Job
    requires Has(states, k, id)
  {
    states[k].rows[id]
  }

  predicate Claims(step: Step, id: nat) {
    step.Claim? && step.pick == Some(id)
  }

  /** A recorded outcome: an accepted complete or fail of this row. */
  predicate RecordsOutcome(p: Policy, rows: Table, step: Step, id: nat) {
    (step.Complete? || step.Fail?) && step.id == id && Perform(p, rows, step).Ok?
  }
}
