/**
 The table of jobs as the services change it: one method per transaction, proved to take exactly
 the step of the protocol, and one execution on top of them. Rows are fetched, changed and written
 back; callers only ever hold detached copies.
 */
module LeaseTable {
  import opened Wrappers
  import opened RetryPolicy
  import opened LeaseProtocol
  import opened LeaseFairness

  // -- Other processes -------------------------------------------------------------

  /** The table after a sequence of steps. */
  function After(p: Policy, rows: Table, steps: seq<Step>): Table {
    if steps == [] then rows
    else Apply(p, After(p, rows, steps[..|steps| - 1]), steps[|steps| - 1])
  }

  ghost predicate AllAddressed(p: Policy, rows: Table, steps: seq<Step>) {
    steps == []
    || (AllAddressed(p, rows, steps[..|steps| - 1])
        && Addressed(After(p, rows, steps[..|steps| - 1]), steps[|steps| - 1]))
  }

  lemma {:induction false} AfterConcat(p: Policy, rows: Table, a: seq<Step>, b: seq<Step>)
    ensures After(p, rows, a + b) == After(p, After(p, rows, a), b)
  {
    if b == [] {
      assert a + b == a;
    } else {
      AfterConcat(p, rows, a, b[..|b| - 1]);
      assert (a + b)[..|a + b| - 1] == a + b[..|b| - 1];
    }
  }

  /** Whatever others do, a claimed row stays, with its tenant and execution identity, and loses no attempt. */
  lemma {:induction false} IdentitySurvives(p: Policy, rows: Table, steps: seq<Step>, id: nat)
    requires id in rows && rows[id].executionId.Some? && AllAddressed(p, rows, steps)
    ensures var rows' := After(p, rows, steps);
            && id in rows' && rows'[id].tenant == rows[id].tenant && rows'[id].executionId == rows[id].executionId
            && rows'[id].attemptCount >= rows[id].attemptCount
  {
    if steps != [] {
      IdentitySurvives(p, rows, steps[..|steps| - 1], id);
    }
  }

  /** Rows are never deleted, and never change tenant or type. */
  lemma {:induction false} RowsSurvive(p: Policy, rows: Table, steps: seq<Step>, id: nat)
    requires id in rows && AllAddressed(p, rows, steps)
    ensures var rows' := After(p, rows, steps);
            id in rows' && rows'[id].tenant == rows[id].tenant && rows'[id].executable == rows[id].executable
  {
    if steps != [] {
      RowsSurvive(p, rows, steps[..|steps| - 1], id);
    }
  }

  lemma {:induction false} AddressedConcat(p: Policy, rows: Table, a: seq<Step>, b: seq<Step>)
    requires AllAddressed(p, rows, a) && AllAddressed(p, After(p, rows, a), b)
    ensures AllAddressed(p, rows, a + b)
  {
    if b == [] {
      assert a + b == a;
    } else {
      AddressedConcat(p, rows, a, b[..|b| - 1]);
      AfterConcat(p, rows, a, b[..|b| - 1]);
      assert (a + b)[..|a + b| - 1] == a + b[..|b| - 1];
    }
  }

  lemma {:induction false} AddressedSplit(p: Policy, rows: Table, a: seq<Step>, b: seq<Step>)
    requires AllAddressed(p, rows, a + b)
    ensures AllAddressed(p, rows, a) && AllAddressed(p, After(p, rows, a), b)
  {
    if b == [] {
      assert a + b == a;
    } else {
      assert (a + b)[..|a + b| - 1] == a + b[..|b| - 1];
      AddressedSplit(p, rows, a, b[..|b| - 1]);
      AfterConcat(p, rows, a, b[..|b| - 1]);
    }
  }

  function Only(steps: seq<Step>, tenant: nat): seq<Step> {
    if steps == [] then []
    else
      Only(steps[..|steps| - 1], tenant)
      + if steps[|steps| - 1].tenant == tenant then [steps[|steps| - 1]] else []
  }

  /** Whatever happens to other tenants, errors included, a tenant's rows end where its own steps lead. */
  lemma {:induction false} TenantSeesOwnSteps(p: Policy, rows: Table, steps: seq<Step>, tenant: nat)
    requires AllAddressed(p, rows, steps)
    ensures Own(After(p, rows, steps), tenant) == After(p, Own(rows, tenant), Only(steps, tenant))
  {
    if steps != [] {
      var before, step := steps[..|steps| - 1], steps[|steps| - 1];
      TenantSeesOwnSteps(p, rows, before, tenant);
      StepProjects(p, After(p, rows, before), step, tenant);
      var own := Only(before, tenant);
      if step.tenant == tenant {
        assert Only(steps, tenant) == own + [step];
        assert (own + [step])[..|own|] == own;
      } else {
        assert Only(steps, tenant) == own;
      }
    }
  }

  lemma {:induction false} OnlyConcat(a: seq<Step>, b: seq<Step>, tenant: nat)
    ensures Only(a + b, tenant) == Only(a, tenant) + Only(b, tenant)
  {
    if b == [] {
      assert a + b == a;
    } else {
      OnlyConcat(a, b[..|b| - 1], tenant);
      assert (a + b)[..|a + b| - 1] == a + b[..|b| - 1];
    }
  }

  lemma {:induction false} OnlyEmpty(steps: seq<Step>, tenant: nat)
    requires forall step :: step in steps ==> step.tenant != tenant
    ensures Only(steps, tenant) == []
  {
    if steps != [] {
      OnlyEmpty(steps[..|steps| - 1], tenant);
    }
  }

  /** A claim, the steps of others, an outcome: one after the other. */
  lemma ThreePhases(p: Policy, rows: Table, claim: Step, between: seq<Step>, outcome: Step)
    ensures After(p, rows, [claim] + between + [outcome]) ==
            Apply(p, After(p, Apply(p, rows, claim), between), outcome)
    ensures Addressed(rows, claim) && AllAddressed(p, Apply(p, rows, claim), between)
            && !outcome.Create? && !outcome.Claim? ==>
              AllAddressed(p, rows, [claim] + between + [outcome])
  {
    assert [claim][..0] == [];
    assert After(p, rows, [claim]) == Apply(p, rows, claim);
    AfterConcat(p, rows, [claim], between);
    var middle := [claim] + between;
    assert (middle + [outcome])[..|middle|] == middle;
    if Addressed(rows, claim) && AllAddressed(p, Apply(p, rows, claim), between) {
      AddressedConcat(p, rows, [claim], between);
    }
  }

  // -- The claim query ---------------------------------------------------------------

  predicate MostOverdue(rows: Table, due: set<nat>, id: nat) {
    && id in due && id in rows && rows[id].nextAttemptAt.Some?
    && forall x :: x in due && x in rows && rows[x].nextAttemptAt.Some? ==>
         rows[id].nextAttemptAt.value <= rows[x].nextAttemptAt.value
  }

  lemma {:induction false} MostOverdueExists(rows: Table, due: set<nat>) returns (id: nat)
    requires due != {}
    requires forall x :: x in due ==> x in rows && rows[x].nextAttemptAt.Some?
    ensures MostOverdue(rows, due, id)
  {
    id := AnyOf(due);
    if due != {id} {
      var other := MostOverdueExists(rows, due - {id});
      assert forall x :: x in due ==> x == id || x in due - {id};
      if rows[other].nextAttemptAt.value < rows[id].nextAttemptAt.value {
        id := other;
      }
    }
  }

  // -- One worker's execution of one row -----------------------------------------------

  /** How the work on a claimed row ended; `Escape` is an exception nobody turns into an outcome. */
  datatype Verdict = Succeed | Report(reason: Reason) | Escape

  datatype Execution = NothingDue | Executed(id: nat) | Raised(id: nat, error: Option<Error>)

  /** Everything outside the worker that shapes one execution. */
  datatype Circumstances = Circumstances(now: int, locked: set<nat>, newId: nat,
                                         between: seq<Step>, verdict: Verdict, later: int)

  function OutcomeStep(tenant: nat, id: nat, execution: nat, c: Circumstances): Step {
    match c.verdict
    case Succeed => Complete(tenant, c.later, id, execution)
    case Report(reason) => Fail(tenant, c.later, id, execution, reason)
    case Escape => Idle(tenant, c.later)
  }

  /** Whatever row the worker claims, the steps others take meanwhile are possible ones. */
  ghost predicate OthersAddressed(p: Policy, rows: Table, tenant: nat, c: Circumstances) {
    forall id :: PickOk(rows, tenant, c.now, c.locked, Some(id)) ==>
      AllAddressed(p, Apply(p, rows, Claim(tenant, c.now, c.locked, Some(id), c.newId)), c.between)
  }

  // -- What an execution of a given row does -------------------------------------------

  function ClaimStep(tenant: nat, c: Circumstances, id: nat): Step {
    Claim(tenant, c.now, c.locked, Some(id), c.newId)
  }

  /** The identity under which the worker holds the row: the row's own, or a new one at the first claim. */
  function Identity(p: Policy, rows: Table, c: Circumstances, id: nat): nat
    requires id in rows
  {
    ClaimedJob(p, rows[id], c.now, c.newId).executionId.value
  }

  function WorkSteps(p: Policy, rows: Table, tenant: nat, c: Circumstances, id: nat): seq<Step>
    requires id in rows
  {
    [ClaimStep(tenant, c, id)] + c.between + [OutcomeStep(tenant, id, Identity(p, rows, c, id), c)]
  }

  /** The table when the worker reports: claimed, and changed by the others since. */
  function BeforeOutcome(p: Policy, rows: Table, tenant: nat, c: Circumstances, id: nat): Table {
    After(p, Apply(p, rows, ClaimStep(tenant, c, id)), c.between)
  }

  function ResultOf(p: Policy, rows: Table, tenant: nat, c: Circumstances, id: nat): Execution
    requires id in rows
  {
    if c.verdict.Escape? then Raised(id, None)
    else
      match Perform(p, BeforeOutcome(p, rows, tenant, c, id), OutcomeStep(tenant, id, Identity(p, rows, c, id), c))
      case Ok(_) => Executed(id)
      case Err(e) => Raised(id, Some(e))
  }

  /** The execution from one table to another: nothing was due, or all of a claim, the others and an outcome. */
  ghost predicate Executes(p: Policy, before: Table, tenant: nat, c: Circumstances, r: Execution, work: seq<Step>, after: Table) {
    && after == After(p, before, work)
    && if r.NothingDue? then PickOk(before, tenant, c.now, c.locked, None) && work == []
       else
         && PickOk(before, tenant, c.now, c.locked, Some(r.id))
         && work == WorkSteps(p, before, tenant, c, r.id)
         && r == ResultOf(p, before, tenant, c, r.id)
  }

  lemma ExecutionAddressed(p: Policy, before: Table, tenant: nat, c: Circumstances, r: Execution, work: seq<Step>, after: Table)
    requires Executes(p, before, tenant, c, r, work, after) && OthersAddressed(p, before, tenant, c)
    ensures AllAddressed(p, before, work)
  {
    if !r.NothingDue? {
      ThreePhases(p, before, ClaimStep(tenant, c, r.id), c.between,
                  OutcomeStep(tenant, r.id, Identity(p, before, c, r.id), c));
    }
  }

  lemma OutcomeRefusedIff(p: Policy, rows: Table, tenant: nat, id: nat, execution: nat, c: Circumstances)
    requires Visible(rows, tenant, id) && rows[id].executionId == Some(execution) && rows[id].attemptCount >= 1
    requires !c.verdict.Escape? && (c.verdict.Report? ==> c.verdict.reason in p.reasons)
    ensures var outcome := OutcomeStep(tenant, id, execution, c);
            && (Perform(p, rows, outcome).Err? <==> rows[id].status != Processing)
            && (Perform(p, rows, outcome).Err? ==> Perform(p, rows, outcome).error == Conflict)
            && id in Apply(p, rows, outcome) && Apply(p, rows, outcome)[id].status != Processing
  {
  }

  /**
   Work that ends in an outcome, with a reason of the vocabulary if it failed, leaves the row out of
   flight: it shows the outcome, or the outcome was refused because somebody had already taken the row
   out of flight. No other error is possible.
   */
  lemma FinishedOutOfFlight(p: Policy, before: Table, tenant: nat, c: Circumstances, r: Execution, work: seq<Step>, after: Table)
    requires Executes(p, before, tenant, c, r, work, after) && !r.NothingDue?
    requires AllAddressed(p, Apply(p, before, ClaimStep(tenant, c, r.id)), c.between)
    requires !c.verdict.Escape? && (c.verdict.Report? ==> c.verdict.reason in p.reasons)
    ensures r.id in after && after[r.id].status != Processing
    ensures r.Raised? ==> r.error == Some(Conflict)
  {
    var claim, outcome := ClaimStep(tenant, c, r.id), OutcomeStep(tenant, r.id, Identity(p, before, c, r.id), c);
    IdentitySurvives(p, Apply(p, before, claim), c.between, r.id);
    ThreePhases(p, before, claim, c.between, outcome);
    OutcomeRefusedIff(p, BeforeOutcome(p, before, tenant, c, r.id), tenant, r.id, Identity(p, before, c, r.id), c);
  }

  /** The deadline of a row that failed just now: none after the last attempt, otherwise the backoff from now. */
  ghost predicate Rescheduled(p: Policy, j: Job, now: int) {
    if j.attemptCount >= p.maxAttempts then j.nextAttemptAt == None
    else j.attemptCount >= 1 && j.nextAttemptAt == Some(now + NextAttemptDelay(p, j.attemptCount).value)
  }

  /** The row shows the outcome: completed at this time, or failed with the reason and rescheduled. */
  ghost predicate Shows(p: Policy, j: Job, verdict: Verdict, later: int) {
    match verdict
    case Succeed => j.status == Completed && j.failureReason == None && j.completedAt == Some(later) && j.nextAttemptAt == None
    case Report(reason) => j.status == Failed && j.failureReason == Some(reason) && Rescheduled(p, j, later)
    case Escape => false
  }

  lemma OutcomeShows(p: Policy, rows: Table, tenant: nat, id: nat, execution: nat, verdict: Verdict, later: int)
    requires !verdict.Escape?
    requires Perform(p, rows, OutcomeStep(tenant, id, execution, Circumstances(0, {}, 0, [], verdict, later))).Ok?
    ensures var rows' := Apply(p, rows, OutcomeStep(tenant, id, execution, Circumstances(0, {}, 0, [], verdict, later)));
            Visible(rows', tenant, id) && Shows(p, rows'[id], verdict, later)
  {
  }

  function OwnTick(c: Circumstances, tenant: nat): Circumstances {
    c.(between := Only(c.between, tenant))
  }

  lemma PickProjects(rows: Table, tenant: nat, now: int, locked: set<nat>, pick: Option<nat>)
    ensures PickOk(rows, tenant, now, locked, pick) <==> PickOk(Own(rows, tenant), tenant, now, locked, pick)
  {
  }

  lemma WorkProjects(p: Policy, rows: Table, tenant: nat, c: Circumstances, id: nat)
    requires Visible(rows, tenant, id)
    ensures Only(WorkSteps(p, rows, tenant, c, id), tenant) == WorkSteps(p, Own(rows, tenant), tenant, OwnTick(c, tenant), id)
  {
    var claim, outcome := ClaimStep(tenant, c, id), OutcomeStep(tenant, id, Identity(p, rows, c, id), c);
    OnlyConcat([claim], c.between, tenant);
    OnlyConcat([claim] + c.between, [outcome], tenant);
    assert Only([claim], tenant) == [claim] && Only([outcome], tenant) == [outcome] by {
      assert [claim][..0] == [] && [outcome][..0] == [];
    }
  }

  lemma OutcomeProjects(p: Policy, rows: Table, tenant: nat, c: Circumstances, id: nat)
    requires Visible(rows, tenant, id)
    requires AllAddressed(p, Apply(p, rows, ClaimStep(tenant, c, id)), c.between)
    ensures ResultOf(p, rows, tenant, c, id) == ResultOf(p, Own(rows, tenant), tenant, OwnTick(c, tenant), id)
  {
    var claim := ClaimStep(tenant, c, id);
    StepProjects(p, rows, claim, tenant);
    TenantSeesOwnSteps(p, Apply(p, rows, claim), c.between, tenant);
    ResultProjects(p, BeforeOutcome(p, rows, tenant, c, id), OutcomeStep(tenant, id, Identity(p, rows, c, id), c));
  }

  /** The steps of an execution are possible ones exactly if those of the others in between are. */
  lemma WorkAddressed(p: Policy, rows: Table, tenant: nat, c: Circumstances, id: nat)
    requires Visible(rows, tenant, id)
    ensures AllAddressed(p, rows, WorkSteps(p, rows, tenant, c, id)) <==>
            AllAddressed(p, Apply(p, rows, ClaimStep(tenant, c, id)), c.between)
  {
    var claim, outcome := ClaimStep(tenant, c, id), OutcomeStep(tenant, id, Identity(p, rows, c, id), c);
    ThreePhases(p, rows, claim, c.between, outcome);
    if AllAddressed(p, rows, WorkSteps(p, rows, tenant, c, id)) {
      AddressedSplit(p, rows, [claim] + c.between, [outcome]);
      AddressedSplit(p, rows, [claim], c.between);
      assert [claim][..0] == [];
      assert After(p, rows, [claim]) == Apply(p, rows, claim);
    }
  }

  /** An execution and its result are those of the same worker on its tenant's rows alone. */
  lemma ExecutionProjects(p: Policy, before: Table, tenant: nat, c: Circumstances, r: Execution, work: seq<Step>, after: Table)
    requires Executes(p, before, tenant, c, r, work, after) && AllAddressed(p, before, work)
    ensures Executes(p, Own(before, tenant), tenant, OwnTick(c, tenant), r, Only(work, tenant), Own(after, tenant))
  {
    TenantSeesOwnSteps(p, before, work, tenant);
    if r.NothingDue? {
      PickProjects(before, tenant, c.now, c.locked, None);
    } else {
      PickProjects(before, tenant, c.now, c.locked, Some(r.id));
      WorkProjects(p, before, tenant, c, r.id);
      WorkAddressed(p, before, tenant, c, r.id);
      OutcomeProjects(p, before, tenant, c, r.id);
    }
  }

  // -- Runs that go on ---------------------------------------------------------------------

  /** All an enabled step needs besides its clock value. */
  predicate Obeys(rows: Table, step: Step) {
    && (step.Create? ==> step.id !in rows)
    && (step.Claim? ==> PickOk(rows, step.tenant, step.now, step.locked, step.pick))
  }

  ghost predicate ObeysAt(p: Policy, rows: Table, steps: seq<Step>, k: nat) {
    k < |steps| && Obeys(After(p, rows, steps[..k]), steps[k])
  }

  ghost predicate AllObey(p: Policy, rows: Table, steps: seq<Step>) {
    forall k: nat :: k < |steps| ==> ObeysAt(p, rows, steps, k)
  }

  function ClockAt(clock: int, steps: seq<Step>, k: nat): int
    requires k <= |steps|
  {
    if k == 0 then clock else steps[k - 1].now
  }

  ghost predicate Ordered(clock: int, steps: seq<Step>) {
    forall k: nat :: k < |steps| ==> ClockAt(clock, steps, k) <= steps[k].now
  }

  lemma NextInRun(p: Policy, s: Snapshot, more: seq<Step>, k: nat)
    requires ObeysAt(p, s.rows, more, k) && ClockAt(s.clock, more, k) <= more[k].now
    ensures Next(p, Snapshot(ClockAt(s.clock, more, k), After(p, s.rows, more[..k])), more[k],
                 Snapshot(more[k].now, After(p, s.rows, more[..k + 1])))
  {
    assert more[..k + 1][..k] == more[..k];
  }

  /** Steps that obey, in the order of their clock values, continue a run: everything proved of runs holds after them. */
  lemma RunContinues(p: Policy, states: seq<Snapshot>, steps: seq<Step>, more: seq<Step>) returns (states': seq<Snapshot>)
    requires IsRun(p, states, steps)
    requires AllObey(p, states[|steps|].rows, more) && Ordered(states[|steps|].clock, more)
    ensures IsRun(p, states', steps + more) && states <= states'
    ensures states'[|steps + more|].rows == After(p, states[|steps|].rows, more)
  {
    var s := states[|steps|];
    states' := states + seq(|more|, k requires 0 <= k < |more| => Snapshot(more[k].now, After(p, s.rows, more[..k + 1])));
    assert more[..0] == [] && more[..|more|] == more;
    forall k: nat | k < |steps + more| ensures StepAt(p, states', steps + more, k) {
      if k < |steps| {
        assert StepAt(p, states, steps, k);
      } else {
        NextInRun(p, s, more, k - |steps|);
      }
    }
  }

  /** An execution obeys if the steps of others inside it do. */
  lemma WorkObeys(p: Policy, rows: Table, tenant: nat, c: Circumstances, id: nat)
    requires PickOk(rows, tenant, c.now, c.locked, Some(id))
    requires AllObey(p, Apply(p, rows, ClaimStep(tenant, c, id)), c.between)
    ensures AllObey(p, rows, WorkSteps(p, rows, tenant, c, id))
  {
    var claim, work := ClaimStep(tenant, c, id), WorkSteps(p, rows, tenant, c, id);
    forall k: nat | k < |work| ensures ObeysAt(p, rows, work, k) {
      if 0 < k <= |c.between| {
        assert ObeysAt(p, Apply(p, rows, claim), c.between, k - 1);
        assert work[..k] == [claim] + c.between[..k - 1];
        AfterConcat(p, rows, [claim], c.between[..k - 1]);
        assert [claim][..0] == [];
        assert After(p, rows, [claim]) == Apply(p, rows, claim);
      }
    }
  }

  /** An execution continues a run, if its steps do not go back in time and those of others obey. */
  lemma ExecutionContinues(p: Policy, states: seq<Snapshot>, steps: seq<Step>, tenant: nat, c: Circumstances,
                           r: Execution, work: seq<Step>, after: Table) returns (states': seq<Snapshot>)
    requires IsRun(p, states, steps) && Executes(p, states[|steps|].rows, tenant, c, r, work, after)
    requires Ordered(states[|steps|].clock, work)
    requires !r.NothingDue? ==> AllObey(p, Apply(p, states[|steps|].rows, ClaimStep(tenant, c, r.id)), c.between)
    ensures IsRun(p, states', steps + work) && states <= states' && states'[|steps + work|].rows == after
  {
    if !r.NothingDue? {
      WorkObeys(p, states[|steps|].rows, tenant, c, r.id);
    }
    states' := RunContinues(p, states, steps, work);
  }

  class JobTable {
    const policy: Policy
    var rows: Table

    constructor (policy: Policy)
      ensures this.policy == policy && rows == map[]
    {
      this.policy := policy;
      rows := map[];
    }

    method Insert(tenant: nat, now: int, id: nat, executable: bool, due: Option<int>)
      modifies this
      ensures rows == Apply(policy, old(rows), Create(tenant, now, id, executable, due))
    {
      var deadline := None;
      if executable && due.Some? {
        deadline := due;
      }
      rows := rows[id := Job(tenant, executable, Pending, 0, deadline, None, None, None, None)];
    }

    method ClaimDue(tenant: nat, now: int, locked: set<nat>, newId: nat) returns (pick: Option<nat>)
      modifies this
      ensures PickOk(old(rows), tenant, now, locked, pick)
      ensures rows == Apply(policy, old(rows), Claim(tenant, now, locked, pick, newId))
    {
      var due := set x | x in rows && x !in locked && Eligible(rows[x], tenant, now);
      if due == {} {
        assert forall x :: x in rows && x !in locked && Eligible(rows[x], tenant, now) ==> x in due;
        return None;
      }
      ghost var witnessed := MostOverdueExists(rows, due);
      var id: nat :| id in due && MostOverdue(rows, due, id);
      assert MostOverdue(rows, due, id);
      assert forall x :: x in rows && x !in locked && Eligible(rows[x], tenant, now) ==> x in due;
      var row := rows[id];
      row := row.(status := Processing);
      if policy.clearsReason {
        row := row.(failureReason := None);
      }
      row := row.(attemptCount := row.attemptCount + 1);
      row := row.(lastAttemptedAt := Some(now));
      row := row.(nextAttemptAt := Some(now + policy.lease));
      if row.executionId.None? {
        row := row.(executionId := Some(newId));
      }
      rows := rows[id := row];
      pick := Some(id);
    }

    method RecordCompletion(tenant: nat, now: int, id: nat, execution: nat) returns (r: Result<(), Error>)
      modifies this
      ensures var done := Perform(policy, old(rows), Complete(tenant, now, id, execution));
              && (r.Ok? <==> done.Ok?) && (r.Err? ==> r.error == done.error)
              && rows == Apply(policy, old(rows), Complete(tenant, now, id, execution))
    {
      if id !in rows || rows[id].tenant != tenant {
        return Err(NotFound);
      }
      var row := rows[id];
      if row.status != Processing || row.executionId != Some(execution) {
        return Err(Conflict);
      }
      row := row.(status := Completed);
      row := row.(completedAt := Some(now));
      row := row.(failureReason := None, nextAttemptAt := None);
      rows := rows[id := row];
      r := Ok(());
    }

    method RecordFailure(tenant: nat, now: int, id: nat, execution: nat, reason: Reason) returns (r: Result<(), Error>)
      modifies this
      ensures var done := Perform(policy, old(rows), Fail(tenant, now, id, execution, reason));
              && (r.Ok? <==> done.Ok?) && (r.Err? ==> r.error == done.error)
              && rows == Apply(policy, old(rows), Fail(tenant, now, id, execution, reason))
    {
      if reason !in policy.reasons {
        return Err(InvalidReason);
      }
      if id !in rows || rows[id].tenant != tenant {
        return Err(NotFound);
      }
      var row := rows[id];
      if row.status != Processing || row.executionId != Some(execution) {
        return Err(Conflict);
      }
      row := row.(status := Failed);
      row := row.(failureReason := Some(reason));
      var exhausted := row.attemptCount >= policy.maxAttempts;
      if exhausted {
        row := row.(nextAttemptAt := None);
      } else {
        var delay := NextAttemptDelay(policy, row.attemptCount);
        if delay.Err? {
          return Err(BadCount);
        }
        row := row.(nextAttemptAt := Some(now + delay.value));
      }
      rows := rows[id := row];
      r := Ok(());
    }

    /** Records how the work ended, unless an exception escapes. */
    method Report(tenant: nat, id: nat, execution: nat, verdict: Verdict, later: int) returns (r: Execution)
      modifies this
      ensures var outcome := OutcomeStep(tenant, id, execution, Circumstances(0, {}, 0, [], verdict, later));
              && rows == Apply(policy, old(rows), outcome)
              && r == if verdict.Escape? then Raised(id, None)
                      else match Perform(policy, old(rows), outcome)
                           case Ok(_) => Executed(id)
                           case Err(e) => Raised(id, Some(e))
    {
      match verdict {
        case Succeed =>
          var done := RecordCompletion(tenant, later, id, execution);
          r := if done.Ok? then Executed(id) else Raised(id, Some(done.error));
        case Report(reason) =>
          var done := RecordFailure(tenant, later, id, execution, reason);
          r := if done.Ok? then Executed(id) else Raised(id, Some(done.error));
        case Escape =>
          r := Raised(id, None);
      }
    }

    /**
     Claim the next due row, work on it while others run, record the outcome. Whatever the others
     do, the table ends where the claim, their steps and one outcome step lead. Unless the work
     raised past its handlers or reported a reason outside the vocabulary, the row is not in flight
     any more when the worker returns: either it shows this outcome, or somebody else had already
     taken it out of flight, which is the one error then possible.
     */
    method ExecuteDue(tenant: nat, c: Circumstances) returns (r: Execution, ghost performed: seq<Step>)
      modifies this
      ensures Executes(policy, old(rows), tenant, c, r, performed, rows)
      ensures OthersAddressed(policy, old(rows), tenant, c) ==> AllAddressed(policy, old(rows), performed)
      ensures r.Executed? ==>
                !c.verdict.Escape? && Visible(rows, tenant, r.id) && Shows(policy, rows[r.id], c.verdict, c.later)
      ensures r.Raised? ==>
                && (c.verdict.Escape? <==> r.error.None?)
                && (OthersAddressed(policy, old(rows), tenant, c) ==>
                      && Visible(rows, tenant, r.id)
                      && r.error != Some(NotFound)
                      && (r.error == Some(Conflict) ==> rows[r.id].status != Processing))
      ensures !r.NothingDue? && OthersAddressed(policy, old(rows), tenant, c)
              && !c.verdict.Escape? && (c.verdict.Report? ==> c.verdict.reason in policy.reasons) ==>
                && r.id in rows && rows[r.id].status != Processing
                && (r.Raised? ==> r.error == Some(Conflict))
    {
      ghost var before := rows;
      var pick := ClaimDue(tenant, c.now, c.locked, c.newId);
      if pick.None? {
        return NothingDue, [];
      }
      r, performed := FinishDue(before, tenant, pick.value, c);
    }

    /** The rest of an execution whose claim took row `id` of the table `before`. */
    method FinishDue(ghost before: Table, tenant: nat, id: nat, c: Circumstances)
        returns (r: Execution, ghost performed: seq<Step>)
      requires PickOk(before, tenant, c.now, c.locked, Some(id))
      requires rows == Apply(policy, before, ClaimStep(tenant, c, id))
      modifies this
      ensures !r.NothingDue? && r.id == id
      ensures Executes(policy, before, tenant, c, r, performed, rows)
      ensures OthersAddressed(policy, before, tenant, c) ==> AllAddressed(policy, before, performed)
      ensures r.Executed? ==>
                !c.verdict.Escape? && Visible(rows, tenant, r.id) && Shows(policy, rows[r.id], c.verdict, c.later)
      ensures r.Raised? ==>
                && (c.verdict.Escape? <==> r.error.None?)
                && (OthersAddressed(policy, before, tenant, c) ==>
                      && Visible(rows, tenant, r.id)
                      && r.error != Some(NotFound)
                      && (r.error == Some(Conflict) ==> rows[r.id].status != Processing))
      ensures OthersAddressed(policy, before, tenant, c)
              && !c.verdict.Escape? && (c.verdict.Report? ==> c.verdict.reason in policy.reasons) ==>
                && rows[r.id].status != Processing
                && (r.Raised? ==> r.error == Some(Conflict))
    {
      var execution := rows[id].executionId.value;
      ghost var claimed := rows;
      rows := After(policy, rows, c.between);
      if OthersAddressed(policy, before, tenant, c) {
        IdentitySurvives(policy, claimed, c.between, id);
      }
      ghost var claim := ClaimStep(tenant, c, id);
      ghost var outcome := OutcomeStep(tenant, id, execution, c);
      ThreePhases(policy, before, claim, c.between, outcome);
      performed := WorkSteps(policy, before, tenant, c, id);
      ghost var reported := rows;
      r := Report(tenant, id, execution, c.verdict, c.later);
      if r.Executed? {
        OutcomeShows(policy, reported, tenant, id, execution, c.verdict, c.later);
      }
      if OthersAddressed(policy, before, tenant, c) && !c.verdict.Escape?
         && (c.verdict.Report? ==> c.verdict.reason in policy.reasons) {
        FinishedOutOfFlight(policy, before, tenant, c, r, performed, rows);
      }
    }
  }
}
