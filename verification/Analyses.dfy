/** Versioned AI analyses of a call, on top of the lease protocol. */
module Analyses {
  import opened Wrappers
  import opened RetryPolicy
  import opened LeaseProtocol
  import opened LeaseRuns
  import opened LeaseFairness
  import opened LeaseTable
  import opened LeaseWorker

  /** The columns no step changes after the request. */
  datatype Info = Info(call: nat, version: nat, requestedAt: int)

  /** Clock, lease columns, fixed columns and stored results. */
  datatype Db = Db(clock: int, rows: Table, info: map<nat, Info>, results: map<nat, nat>)

  datatype RequestError = CallNotFound | NotEligible | InProgress

  /** What a request finds: an existing version to hand back, or the number of a new one. */
  datatype Decision = Existing(id: nat) | NewVersion(version: nat)

  datatype Op =
    | Request(tenant: nat, now: int, call: nat, found: bool, ended: bool, force: bool,
              latest: Option<nat>, newId: nat)
    | Work(step: Step)
    | Finish(step: Step, result: nat)

  predicate InCall(db: Db, tenant: nat, call: nat, id: nat) {
    id in db.info && id in db.rows && db.rows[id].tenant == tenant && db.info[id].call == call
  }

  /** The first row of the versions listed newest first. */
  predicate IsLatest(db: Db, tenant: nat, call: nat, latest: Option<nat>) {
    match latest
    case None => forall x :: x in db.info ==> !InCall(db, tenant, call, x)
    case Some(id) =>
      && InCall(db, tenant, call, id)
      && forall x :: x in db.info && InCall(db, tenant, call, x) ==> db.info[x].version <= db.info[id].version
  }

  function Decide(db: Db, op: Op): Result<Decision, RequestError>
    requires op.Request? && IsLatest(db, op.tenant, op.call, op.latest)
  {
    if !op.found then Err(CallNotFound)
    else if !op.ended then Err(NotEligible)
    else if op.latest.Some? && (db.rows[op.latest.value].status.Pending? || db.rows[op.latest.value].status.Processing?) then
      if op.force then Err(InProgress) else Ok(Existing(op.latest.value))
    else if op.latest.Some? && !op.force then Ok(Existing(op.latest.value))
    else Ok(NewVersion(if op.latest.Some? then db.info[op.latest.value].version + 1 else 1))
  }

  predicate Possible(db: Db, op: Op) {
    match op
    case Request(tenant, _, call, _, _, _, latest, newId) =>
      IsLatest(db, tenant, call, latest) && newId !in db.rows && newId !in db.info
    case Work(step) => step.Claim? || step.Fail?
    case Finish(step, _) => step.Complete?
  }

  /** The protocol step an operation takes on the lease columns. */
  function LeaseStep(db: Db, op: Op): Step
    requires Possible(db, op)
  {
    match op
    case Request(tenant, now, _, _, _, _, _, newId) =>
      var decision := Decide(db, op);
      if decision.Ok? && decision.value.NewVersion? then Create(tenant, now, newId, true, Some(now)) else Idle(tenant, now)
    case Work(step) => step
    case Finish(step, _) => step
  }

  function ApplyOp(db: Db, op: Op): Db
    requires Possible(db, op)
  {
    var step := LeaseStep(db, op);
    var rows := Apply(ANALYSIS_POLICY, db.rows, step);
    match op
    case Request(_, now, call, _, _, _, _, newId) =>
      if step.Create? then Db(now, rows, db.info[newId := Info(call, Decide(db, op).value.version, now)], db.results)
      else Db(now, rows, db.info, db.results)
    case Work(_) => Db(step.now, rows, db.info, db.results)
    case Finish(_, result) =>
      if Perform(ANALYSIS_POLICY, db.rows, step).Ok? then Db(step.now, rows, db.info, db.results[step.id := result])
      else Db(step.now, rows, db.info, db.results)
  }

  /** The operation can be the next one: its clock is not behind, and a claim obeys the query. */
  ghost predicate CanFollow(db: Db, op: Op) {
    Possible(db, op) && Enabled(Snapshot(db.clock, db.rows), LeaseStep(db, op))
  }

  ghost predicate OpAt(dbs: seq<Db>, ops: seq<Op>, k: nat) {
    && k < |ops| && k + 1 < |dbs|
    && CanFollow(dbs[k], ops[k])
    && dbs[k + 1] == ApplyOp(dbs[k], ops[k])
  }

  /** Any interleaving of requests, claims and outcomes, on an initially empty database. */
  ghost predicate IsHistory(dbs: seq<Db>, ops: seq<Op>) {
    && |dbs| == |ops| + 1
    && dbs[0].rows == map[] && dbs[0].info == map[] && dbs[0].results == map[]
    && forall k: nat :: k < |ops| ==> OpAt(dbs, ops, k)
  }

  /** The operations can follow one another from here. */
  ghost predicate Runnable(db: Db, ops: seq<Op>)
    decreases |ops|, 0
  {
    ops == []
    || (Runnable(db, ops[..|ops| - 1]) && CanFollow(OpsAfter(db, ops[..|ops| - 1]), ops[|ops| - 1]))
  }

  function OpsAfter(db: Db, ops: seq<Op>): Db
    requires Runnable(db, ops)
    decreases |ops|, 1
  {
    if ops == [] then db else ApplyOp(OpsAfter(db, ops[..|ops| - 1]), ops[|ops| - 1])
  }

  function StepsOf(db: Db, ops: seq<Op>): seq<Step>
    requires Runnable(db, ops)
  {
    if ops == [] then []
    else StepsOf(db, ops[..|ops| - 1]) + [LeaseStep(OpsAfter(db, ops[..|ops| - 1]), ops[|ops| - 1])]
  }

  lemma OpActsAsStep(db: Db, op: Op)
    requires CanFollow(db, op)
    ensures ApplyOp(db, op).rows == Apply(ANALYSIS_POLICY, db.rows, LeaseStep(db, op))
    ensures Addressed(db.rows, LeaseStep(db, op))
  {
  }

  lemma {:induction false} OpsAreSteps(db: Db, ops: seq<Op>)
    requires Runnable(db, ops)
    ensures OpsAfter(db, ops).rows == After(ANALYSIS_POLICY, db.rows, StepsOf(db, ops))
    ensures AllAddressed(ANALYSIS_POLICY, db.rows, StepsOf(db, ops))
  {
    if ops == [] {
      assert StepsOf(db, ops) == [];
    } else {
      var before, op := ops[..|ops| - 1], ops[|ops| - 1];
      OpsAreSteps(db, before);
      OpActsAsStep(OpsAfter(db, before), op);
      var steps, step := StepsOf(db, before), LeaseStep(OpsAfter(db, before), op);
      assert StepsOf(db, ops) == steps + [step];
      assert (steps + [step])[..|steps|] == steps;
    }
  }

  /** The operations are runnable and lead from one database to the other. */
  ghost predicate Leads(from: Db, ops: seq<Op>, to: Db) {
    Runnable(from, ops) && OpsAfter(from, ops) == to
  }

  ghost predicate LeadsOnce(from: Db, op: Op, to: Db) {
    CanFollow(from, op) && ApplyOp(from, op) == to
  }

  lemma LeadsSnoc(from: Db, ops: seq<Op>, middle: Db, op: Op, to: Db)
    requires Leads(from, ops, middle) && LeadsOnce(middle, op, to)
    ensures Leads(from, ops + [op], to)
  {
    assert (ops + [op])[..|ops|] == ops;
  }

  lemma LeadsLast(from: Db, ops: seq<Op>, to: Db) returns (middle: Db)
    requires ops != [] && Leads(from, ops, to)
    ensures Leads(from, ops[..|ops| - 1], middle) && LeadsOnce(middle, ops[|ops| - 1], to)
  {
    middle := OpsAfter(from, ops[..|ops| - 1]);
  }

  lemma LeadsNowhere(from: Db, to: Db)
    ensures Leads(from, [], to) <==> from == to
  {
  }

  lemma {:induction false} LeadsConcat(from: Db, a: seq<Op>, middle: Db, b: seq<Op>, to: Db)
    requires Leads(from, a, middle) && Leads(middle, b, to)
    ensures Leads(from, a + b, to)
  {
    if b == [] {
      LeadsNowhere(middle, to);
      assert a + b == a;
    } else {
      var t, last := b[..|b| - 1], b[|b| - 1];
      var before := LeadsLast(middle, b, to);
      LeadsConcat(from, a, middle, t, before);
      LeadsSnoc(from, a + t, before, last, to);
      assert a + b == (a + t) + [last];
    }
  }

  /** Runnable operations continue a history: everything proved of histories holds after them. */
  lemma {:induction false} HistoryContinues(dbs: seq<Db>, ops: seq<Op>, more: seq<Op>) returns (dbs': seq<Db>)
    requires IsHistory(dbs, ops) && Runnable(dbs[|ops|], more)
    ensures IsHistory(dbs', ops + more)
    ensures dbs <= dbs' && dbs'[|ops + more|] == OpsAfter(dbs[|ops|], more)
  {
    if more == [] {
      assert ops + more == ops;
      dbs' := dbs;
    } else {
      var fewer, op := more[..|more| - 1], more[|more| - 1];
      var dbs0 := HistoryContinues(dbs, ops, fewer);
      dbs' := dbs0 + [OpsAfter(dbs[|ops|], more)];
      assert ops + more == (ops + fewer) + [op];
      forall k: nat | k < |ops + more| ensures OpAt(dbs', ops + more, k) {
        if k < |ops + fewer| {
          assert OpAt(dbs0, ops + fewer, k);
          assert dbs'[k] == dbs0[k] && dbs'[k + 1] == dbs0[k + 1] && (ops + more)[k] == (ops + fewer)[k];
        } else {
          assert dbs'[k] == OpsAfter(dbs[|ops|], fewer) && (ops + more)[k] == op;
        }
      }
    }
  }

  // -- Every history is a run of the lease protocol ------------------------------------

  ghost function LeaseStates(dbs: seq<Db>): seq<Snapshot> {
    seq(|dbs|, i requires 0 <= i < |dbs| => Snapshot(dbs[i].clock, dbs[i].rows))
  }

  ghost function LeaseSteps(dbs: seq<Db>, ops: seq<Op>): seq<Step>
    requires IsHistory(dbs, ops)
  {
    seq(|ops|, i requires 0 <= i < |ops| && OpAt(dbs, ops, i) => LeaseStep(dbs[i], ops[i]))
  }

  lemma HistoryRefinesProtocol(dbs: seq<Db>, ops: seq<Op>)
    requires IsHistory(dbs, ops)
    ensures IsRun(ANALYSIS_POLICY, LeaseStates(dbs), LeaseSteps(dbs, ops))
  {
    forall k: nat | k < |ops| ensures StepAt(ANALYSIS_POLICY, LeaseStates(dbs), LeaseSteps(dbs, ops), k) {
      assert OpAt(dbs, ops, k);
    }
  }

  /** The protocol's guarantees with the analysis constants. */
  lemma AnalysisGuarantees(dbs: seq<Db>, ops: seq<Op>, k: nat, id: nat)
    requires IsHistory(dbs, ops) && k < |dbs| && id in dbs[k].rows
    ensures IsRun(ANALYSIS_POLICY, LeaseStates(dbs), LeaseSteps(dbs, ops))
    ensures var t := TallyUpTo(ANALYSIS_POLICY, LeaseStates(dbs), LeaseSteps(dbs, ops), k, id);
            t.failures <= 3 && t.completions <= 1 && dbs[k].rows[id].attemptCount <= 3 + t.expired
  {
    HistoryRefinesProtocol(dbs, ops);
    assert Has(LeaseStates(dbs), k, id);
    BoundedRetries(ANALYSIS_POLICY, LeaseStates(dbs), LeaseSteps(dbs, ops), k, id);
  }

  /** Two claims of an analysis without an outcome between them are two minutes apart. */
  lemma AnalysisLeases(dbs: seq<Db>, ops: seq<Op>, i: nat, j: nat, id: nat)
    requires IsHistory(dbs, ops) && i < j < |ops| && id in dbs[i].rows
    requires ops[i].Work? && Claims(ops[i].step, id) && ops[j].Work? && Claims(ops[j].step, id)
    requires forall m: nat :: i < m < j && OpAt(dbs, ops, m) ==>
               !RecordsOutcome(ANALYSIS_POLICY, dbs[m].rows, LeaseStep(dbs[m], ops[m]), id)
    ensures ops[j].step.now >= ops[i].step.now + 120
  {
    HistoryRefinesProtocol(dbs, ops);
    var states, steps := LeaseStates(dbs), LeaseSteps(dbs, ops);
    assert Has(states, i, id);
    assert OpAt(dbs, ops, i) && OpAt(dbs, ops, j);
    forall m | i < m < j ensures !RecordsOutcome(ANALYSIS_POLICY, states[m].rows, steps[m], id) {
      assert OpAt(dbs, ops, m);
    }
    LeaseExclusion(ANALYSIS_POLICY, states, steps, i, j, id);
  }

  /** The vocabulary of failure reasons. */
  lemma AnalysisReasons(reason: Reason)
    ensures reason in ANALYSIS_POLICY.reasons <==>
            || reason == PrivacyDenied || reason == CallNotCompleted || reason == ProviderTimeout || reason == ProviderError
            || reason == ProviderUnavailable || reason == MalformedResponse || reason == UnexpectedError
  {
  }

  /** A claim leases the row for two minutes and clears the reason; a failure is retried after 30 and 60 seconds, the third not. */
  lemma AnalysisSchedule(states: seq<Snapshot>, steps: seq<Step>, k: nat, id: nat)
    requires IsRun(ANALYSIS_POLICY, states, steps) && k < |steps|
    ensures Claims(steps[k], id) ==>
              && Has(states, k + 1, id) && Row(states, k + 1, id).failureReason == None
              && Row(states, k + 1, id).nextAttemptAt == Some(steps[k].now + 120)
    ensures steps[k].Fail? && RecordsOutcome(ANALYSIS_POLICY, states[k].rows, steps[k], id) ==>
              && Has(states, k, id) && Has(states, k + 1, id)
              && Row(states, k + 1, id).nextAttemptAt ==
                 var a := Row(states, k, id).attemptCount;
                 if a >= 3 then None else Some(steps[k].now + if a == 1 then 30 else 60)
  {
    if Claims(steps[k], id) {
      ClaimedRow(ANALYSIS_POLICY, states, steps, k, id);
    } else if steps[k].Fail? && RecordsOutcome(ANALYSIS_POLICY, states[k].rows, steps[k], id) {
      FinishedRow(ANALYSIS_POLICY, states, steps, k, id);
      DelaySchedules(Row(states, k, id).attemptCount);
      BackoffDoublesUpToCap(ANALYSIS_POLICY, Row(states, k, id).attemptCount);
    }
  }

  lemma ReachableJob(dbs: seq<Db>, ops: seq<Op>, k: nat, id: nat)
    requires IsHistory(dbs, ops) && k < |dbs| && id in dbs[k].rows
    ensures WellFormed(ANALYSIS_POLICY, dbs[k].rows[id])
  {
    HistoryRefinesProtocol(dbs, ops);
    assert Has(LeaseStates(dbs), k, id);
    ReachableWellFormed(ANALYSIS_POLICY, LeaseStates(dbs), LeaseSteps(dbs, ops), k, id);
  }

  // -- Columns -----------------------------------------------------------------------------

  /** Results belong to completed rows, and an analysis is never cancelled. */
  ghost predicate Tidy(db: Db) {
    && (forall id :: id in db.info <==> id in db.rows)
    && (forall id :: id in db.results ==> id in db.rows)
    && (forall id :: id in db.rows ==> TidyRow(db.rows[id], id in db.results))
  }

  /** What keeps a row tidy that a step writes, on its own columns. */
  ghost predicate TidyRow(j: Job, stored: bool) {
    && !j.status.Cancelled?
    && (j.status == Completed <==> stored)
    && (j.status == Completed <==> j.completedAt.Some?)
  }

  /** A claim, a failure or a new row neither completes a row nor touches a completed one. */
  lemma StepKeepsCompletion(rows: Table, step: Step, id: nat, stored: bool)
    requires step.Create? || step.Claim? || step.Fail? || step.Idle?
    requires id in rows ==> TidyRow(rows[id], stored)
    requires id !in rows || (step.Create? && step.id == id) ==> !stored
    ensures id in Apply(ANALYSIS_POLICY, rows, step) ==> TidyRow(Apply(ANALYSIS_POLICY, rows, step)[id], stored)
  {
  }

  lemma FinishKeepsCompletion(rows: Table, step: Step, id: nat, stored: bool)
    requires step.Complete?
    requires id in rows ==> TidyRow(rows[id], stored)
    ensures var finished := Perform(ANALYSIS_POLICY, rows, step).Ok? && step.id == id;
            id in Apply(ANALYSIS_POLICY, rows, step) ==>
              id in rows && TidyRow(Apply(ANALYSIS_POLICY, rows, step)[id], stored || finished)
  {
  }

  lemma OpKeepsTidy(db: Db, op: Op)
    requires Tidy(db) && Possible(db, op)
    ensures Tidy(ApplyOp(db, op))
  {
    var db', step := ApplyOp(db, op), LeaseStep(db, op);
    forall id | id in db'.rows ensures TidyRow(db'.rows[id], id in db'.results) {
      if step.Complete? {
        FinishKeepsCompletion(db.rows, step, id, id in db.results);
      } else {
        StepKeepsCompletion(db.rows, step, id, id in db.results);
      }
    }
  }

  lemma {:induction false} ReachableTidy(dbs: seq<Db>, ops: seq<Op>, k: nat)
    requires IsHistory(dbs, ops) && k < |dbs|
    ensures Tidy(dbs[k])
  {
    if k > 0 {
      ReachableTidy(dbs, ops, k - 1);
      assert OpAt(dbs, ops, k - 1);
      OpKeepsTidy(dbs[k - 1], ops[k - 1]);
    }
  }

  /** The table's checks hold of every reachable row: completed iff stamped and answered, failed iff a reason. */
  lemma ColumnsAgree(dbs: seq<Db>, ops: seq<Op>, k: nat, id: nat)
    requires IsHistory(dbs, ops) && k < |dbs| && id in dbs[k].rows
    ensures var j := dbs[k].rows[id];
            && (j.status == Completed <==> j.completedAt.Some? && id in dbs[k].results)
            && (j.status == Failed <==> j.failureReason.Some?)
  {
    ReachableTidy(dbs, ops, k);
    ReachableJob(dbs, ops, k, id);
  }

  /** A completed version never changes: lease columns, fixed columns and result stay as they are. */
  lemma {:induction false} CompletedVersionsAreImmutable(dbs: seq<Db>, ops: seq<Op>, i: nat, k: nat, id: nat)
    requires IsHistory(dbs, ops) && i <= k < |dbs|
    requires id in dbs[i].rows && dbs[i].rows[id].status == Completed
    ensures id in dbs[i].info && id in dbs[i].results
    ensures id in dbs[k].rows && dbs[k].rows[id] == dbs[i].rows[id]
    ensures id in dbs[k].info && dbs[k].info[id] == dbs[i].info[id]
    ensures id in dbs[k].results && dbs[k].results[id] == dbs[i].results[id]
  {
    ReachableTidy(dbs, ops, i);
    if i < k {
      CompletedVersionsAreImmutable(dbs, ops, i, k - 1, id);
      assert OpAt(dbs, ops, k - 1);
      ReachableJob(dbs, ops, k - 1, id);
    }
  }

  // -- Version history ---------------------------------------------------------------------

  /** The rows created for one call, in the order of their creation. */
  ghost function VersionIds(dbs: seq<Db>, ops: seq<Op>, tenant: nat, call: nat, k: nat): seq<nat>
    requires k <= |ops| < |dbs|
  {
    if k == 0 then []
    else
      var before := VersionIds(dbs, ops, tenant, call, k - 1);
      var op := ops[k - 1];
      if op.Request? && op.tenant == tenant && op.call == call && op.newId in dbs[k].rows then before + [op.newId]
      else before
  }

  /** `ids` lists exactly the call's rows by version 1, 2, ..., and only the last may be pending. */
  ghost predicate Numbered(db: Db, tenant: nat, call: nat, ids: seq<nat>) {
    && (forall i :: 0 <= i < |ids| ==> InCall(db, tenant, call, ids[i]) && db.info[ids[i]].version == i + 1)
    && (forall x :: x in db.info && InCall(db, tenant, call, x) ==>
          1 <= db.info[x].version <= |ids| && ids[db.info[x].version - 1] == x)
    && (forall i :: 0 <= i < |ids| - 1 ==> InCall(db, tenant, call, ids[i]) && !db.rows[ids[i]].status.Pending?)
  }

  lemma LatestIsLast(db: Db, tenant: nat, call: nat, ids: seq<nat>, latest: Option<nat>)
    requires Numbered(db, tenant, call, ids) && IsLatest(db, tenant, call, latest)
    ensures latest == if ids == [] then None else Some(ids[|ids| - 1])
  {
    if ids != [] {
      assert InCall(db, tenant, call, ids[|ids| - 1]);
    }
  }

  lemma NewVersionFrame(db: Db, op: Op)
    requires Possible(db, op) && op.Request? && LeaseStep(db, op).Create?
    ensures var db' := ApplyOp(db, op);
            && db'.rows == db.rows[op.newId := NewJob(op.tenant, true, Some(op.now))]
            && db'.info == db.info[op.newId := Info(op.call, Decide(db, op).value.version, op.now)]
    ensures op.latest.Some? ==>
              Decide(db, op).value.version == db.info[op.latest.value].version + 1
              && !db.rows[op.latest.value].status.Pending?
    ensures op.latest.None? ==> Decide(db, op).value.version == 1
  {
  }

  lemma NewVersionExtends(db: Db, op: Op, tenant: nat, call: nat, ids: seq<nat>)
    requires Tidy(db) && Numbered(db, tenant, call, ids) && Possible(db, op)
    requires op.Request? && op.tenant == tenant && op.call == call && LeaseStep(db, op).Create?
    ensures Numbered(ApplyOp(db, op), tenant, call, ids + [op.newId])
  {
    LatestIsLast(db, tenant, call, ids, op.latest);
    NewVersionFrame(db, op);
    AppendVersion(db, ApplyOp(db, op), tenant, call, ids, op.newId, NewJob(op.tenant, true, Some(op.now)),
                  Info(op.call, Decide(db, op).value.version, op.now));
  }

  lemma AppendVersion(db: Db, db': Db, tenant: nat, call: nat, ids: seq<nat>, id: nat, job: Job, i: Info)
    requires Numbered(db, tenant, call, ids) && id !in db.rows && id !in db.info
    requires ids != [] ==> !db.rows[ids[|ids| - 1]].status.Pending?
    requires db'.rows == db.rows[id := job] && db'.info == db.info[id := i]
    requires job.tenant == tenant && i.call == call && i.version == |ids| + 1
    ensures Numbered(db', tenant, call, ids + [id])
  {
    var ids' := ids + [id];
    assert forall x :: x != id ==> (InCall(db', tenant, call, x) <==> InCall(db, tenant, call, x));
    assert InCall(db', tenant, call, id);
    forall n | 0 <= n < |ids'|
      ensures InCall(db', tenant, call, ids'[n]) && db'.info[ids'[n]].version == n + 1
      ensures n < |ids'| - 1 ==> !db'.rows[ids'[n]].status.Pending?
    {
      if n < |ids| {
        assert ids'[n] == ids[n] && InCall(db, tenant, call, ids[n]);
      }
    }
  }

  lemma OpKeepsMembership(db: Db, op: Op, tenant: nat, call: nat, x: nat)
    requires Tidy(db) && Possible(db, op)
    requires !(op.Request? && op.tenant == tenant && op.call == call && LeaseStep(db, op).Create?)
    ensures var db' := ApplyOp(db, op);
            && (InCall(db', tenant, call, x) <==> InCall(db, tenant, call, x))
            && (InCall(db, tenant, call, x) ==> db'.info[x] == db.info[x])
            && (InCall(db, tenant, call, x) && db'.rows[x].status.Pending? ==> db.rows[x].status.Pending?)
  {
  }

  /** The same rows of the call, with the same fixed columns, and none of them pending again. */
  ghost predicate SameVersions(db: Db, db': Db, tenant: nat, call: nat) {
    forall x ::
      && (InCall(db', tenant, call, x) <==> InCall(db, tenant, call, x))
      && (InCall(db, tenant, call, x) ==>
            db'.info[x] == db.info[x] && (db'.rows[x].status.Pending? ==> db.rows[x].status.Pending?))
  }

  lemma SameVersionsSameNumbers(db: Db, db': Db, tenant: nat, call: nat, ids: seq<nat>)
    requires Numbered(db, tenant, call, ids) && SameVersions(db, db', tenant, call)
    ensures Numbered(db', tenant, call, ids)
  {
  }

  lemma OtherOpsKeepNumbering(db: Db, op: Op, tenant: nat, call: nat, ids: seq<nat>)
    requires Tidy(db) && Numbered(db, tenant, call, ids) && Possible(db, op)
    requires !(op.Request? && op.tenant == tenant && op.call == call && LeaseStep(db, op).Create?)
    ensures Numbered(ApplyOp(db, op), tenant, call, ids)
  {
    assert SameVersions(db, ApplyOp(db, op), tenant, call) by {
      forall x { OpKeepsMembership(db, op, tenant, call, x); }
    }
    SameVersionsSameNumbers(db, ApplyOp(db, op), tenant, call, ids);
  }

  lemma OpNumbers(db: Db, op: Op, tenant: nat, call: nat, ids: seq<nat>)
    requires Tidy(db) && Numbered(db, tenant, call, ids) && Possible(db, op)
    ensures var created := op.Request? && op.tenant == tenant && op.call == call && op.newId in ApplyOp(db, op).rows;
            Numbered(ApplyOp(db, op), tenant, call, if created then ids + [op.newId] else ids)
  {
    if op.Request? && op.tenant == tenant && op.call == call && LeaseStep(db, op).Create? {
      NewVersionExtends(db, op, tenant, call, ids);
      NewVersionFrame(db, op);
    } else {
      OtherOpsKeepNumbering(db, op, tenant, call, ids);
    }
  }

  lemma {:induction false} VersionsAreNumbered(dbs: seq<Db>, ops: seq<Op>, tenant: nat, call: nat, k: nat)
    requires IsHistory(dbs, ops) && k < |dbs|
    ensures Numbered(dbs[k], tenant, call, VersionIds(dbs, ops, tenant, call, k))
  {
    if k > 0 {
      VersionsAreNumbered(dbs, ops, tenant, call, k - 1);
      ReachableTidy(dbs, ops, k - 1);
      assert OpAt(dbs, ops, k - 1);
      OpNumbers(dbs[k - 1], ops[k - 1], tenant, call, VersionIds(dbs, ops, tenant, call, k - 1));
    }
  }

  ghost predicate HasVersion(db: Db, tenant: nat, call: nat, v: int) {
    exists x :: x in db.info && InCall(db, tenant, call, x) && db.info[x].version == v
  }

  /** The versions of a call are exactly 1..n, each once, and a pending one is version n. */
  lemma VersionHistory(dbs: seq<Db>, ops: seq<Op>, tenant: nat, call: nat, k: nat)
    requires IsHistory(dbs, ops) && k < |dbs|
    ensures var n, db := |VersionIds(dbs, ops, tenant, call, k)|, dbs[k];
            && (forall v :: HasVersion(db, tenant, call, v) <==> 1 <= v <= n)
            && (forall x, y ::
                  (x in db.info && y in db.info && InCall(db, tenant, call, x) && InCall(db, tenant, call, y)
                   && db.info[x].version == db.info[y].version) ==> x == y)
            && (forall x :: x in db.info && InCall(db, tenant, call, x) && db.rows[x].status == Pending ==> db.info[x].version == n)
  {
    var ids, db := VersionIds(dbs, ops, tenant, call, k), dbs[k];
    VersionsAreNumbered(dbs, ops, tenant, call, k);
    forall v ensures HasVersion(db, tenant, call, v) <==> 1 <= v <= |ids| {
      if 1 <= v <= |ids| {
        var x := ids[v - 1];
        assert x in db.info && InCall(db, tenant, call, x) && db.info[x].version == v;
      }
    }
    forall x | x in db.info && InCall(db, tenant, call, x) && db.rows[x].status == Pending
      ensures db.info[x].version == |ids|
    {
      assert ids[db.info[x].version - 1] == x;
    }
  }

  /** Listing a call's versions by ascending version yields its rows in the order of creation. */
  lemma ListingIsHistory(dbs: seq<Db>, ops: seq<Op>, tenant: nat, call: nat, k: nat, listed: seq<nat>)
    requires IsHistory(dbs, ops) && k < |dbs|
    requires forall x :: x in listed <==> x in dbs[k].info && InCall(dbs[k], tenant, call, x)
    requires forall i, j :: 0 <= i < j < |listed| ==> dbs[k].info[listed[i]].version < dbs[k].info[listed[j]].version
    ensures listed == VersionIds(dbs, ops, tenant, call, k)
  {
    var db, ids := dbs[k], VersionIds(dbs, ops, tenant, call, k);
    VersionsAreNumbered(dbs, ops, tenant, call, k);
    var versions := seq(|listed|, i requires 0 <= i < |listed| => db.info[listed[i]].version as int);
    forall i | 0 <= i < |listed| ensures 1 <= versions[i] < 1 + |ids| {
      assert listed[i] in listed;
    }
    forall v | 1 <= v < 1 + |ids| ensures v in versions {
      assert ids[v - 1] in listed;
      var i :| 0 <= i < |listed| && listed[i] == ids[v - 1];
      assert versions[i] == v;
    }
    IncreasingFill(versions, 1, |ids|);
    forall i | 0 <= i < |listed| ensures listed[i] == ids[i] {
      assert versions[i] == i + 1 && listed[i] in listed;
    }
  }

  // -- Requests --------------------------------------------------------------------------------

  /** An unforced request on a call that has a version changes nothing and hands back the newest one. */
  lemma UnforcedRequestChangesNothing(dbs: seq<Db>, ops: seq<Op>, k: nat, x: nat)
    requires IsHistory(dbs, ops) && k < |ops| && ops[k].Request? && !ops[k].force
    requires x in dbs[k].info && InCall(dbs[k], ops[k].tenant, ops[k].call, x)
    ensures dbs[k + 1] == dbs[k].(clock := ops[k].now)
    ensures OpAt(dbs, ops, k)
    ensures var ids := VersionIds(dbs, ops, ops[k].tenant, ops[k].call, k);
            && ids != []
            && (ops[k].found && ops[k].ended ==> Decide(dbs[k], ops[k]) == Ok(Existing(ids[|ids| - 1])))
  {
    assert OpAt(dbs, ops, k);
    var op := ops[k];
    VersionsAreNumbered(dbs, ops, op.tenant, op.call, k);
    LatestIsLast(dbs[k], op.tenant, op.call, VersionIds(dbs, ops, op.tenant, op.call, k), op.latest);
  }

  function RowStatus(db: Db, id: nat): Option<Status> {
    if id in db.rows then Some(db.rows[id].status) else None
  }

  /**
   What a request answers in every reachable state, by the call's versions: no such call, a call that
   has not ended, the newest version while one is there and none is forced, a refusal exactly for a
   forced one while the newest is pending or in flight, and otherwise the next version.
   */
  lemma RequestAnswers(dbs: seq<Db>, ops: seq<Op>, k: nat)
    requires IsHistory(dbs, ops) && k < |ops| && ops[k].Request?
    ensures OpAt(dbs, ops, k)
    ensures var op, ids := ops[k], VersionIds(dbs, ops, ops[k].tenant, ops[k].call, k);
            var open := ids != [] && (RowStatus(dbs[k], ids[|ids| - 1]) == Some(Pending)
                                      || RowStatus(dbs[k], ids[|ids| - 1]) == Some(Processing));
            && (Decide(dbs[k], op) == Err(CallNotFound) <==> !op.found)
            && (Decide(dbs[k], op) == Err(NotEligible) <==> op.found && !op.ended)
            && (Decide(dbs[k], op) == Err(InProgress) <==> op.found && op.ended && op.force && open)
            && (forall x :: Decide(dbs[k], op) == Ok(Existing(x)) <==>
                              op.found && op.ended && !op.force && ids != [] && x == ids[|ids| - 1])
            && (forall v :: Decide(dbs[k], op) == Ok(NewVersion(v)) <==>
                              op.found && op.ended && (ids == [] || op.force) && !open && v == |ids| + 1)
  {
    assert OpAt(dbs, ops, k);
    var op, ids := ops[k], VersionIds(dbs, ops, ops[k].tenant, ops[k].call, k);
    VersionsAreNumbered(dbs, ops, op.tenant, op.call, k);
    LatestIsLast(dbs[k], op.tenant, op.call, ids, op.latest);
  }

  /** What a request writes: nothing, or a pending row of the next version that is due at once. */
  lemma RequestWrites(dbs: seq<Db>, ops: seq<Op>, k: nat)
    requires IsHistory(dbs, ops) && k < |ops| && ops[k].Request?
    ensures OpAt(dbs, ops, k)
    ensures var op, ids := ops[k], VersionIds(dbs, ops, ops[k].tenant, ops[k].call, k);
            && dbs[k + 1].results == dbs[k].results
            && if Decide(dbs[k], op).Ok? && Decide(dbs[k], op).value.NewVersion? then
                 && op.newId !in dbs[k].rows
                 && dbs[k + 1].rows == dbs[k].rows[op.newId := Job(op.tenant, true, Pending, 0, Some(op.now), None, None, None, None)]
                 && dbs[k + 1].info == dbs[k].info[op.newId := Info(op.call, |ids| + 1, op.now)]
               else dbs[k + 1].rows == dbs[k].rows && dbs[k + 1].info == dbs[k].info
  {
    RequestAnswers(dbs, ops, k);
  }

  /**
   Two versions in flight. A forced request refuses while the newest version is in flight, but it
   looks at that one only: after it made version n + 1, an older version of the call can still be
   claimed exactly when, before, one was in flight or failed with attempts left.
   */
  lemma RebuildLeavesClaimableVersionIff(dbs: seq<Db>, ops: seq<Op>, k: nat)
    requires IsHistory(dbs, ops) && k < |ops| && ops[k].Request? && OpAt(dbs, ops, k)
    requires Decide(dbs[k], ops[k]).Ok? && Decide(dbs[k], ops[k]).value.NewVersion?
    ensures var op, db, db' := ops[k], dbs[k], dbs[k + 1];
            (exists x :: x in db'.info && x != op.newId && InCall(db', op.tenant, op.call, x)
                         && exists t :: Eligible(db'.rows[x], op.tenant, t))
            <==>
            (exists x :: x in db.info && InCall(db, op.tenant, op.call, x)
                         && (db.rows[x].status == Processing
                             || (db.rows[x].status == Failed && db.rows[x].attemptCount < 3)))
  {
    var op, db, db' := ops[k], dbs[k], dbs[k + 1];
    assert OpAt(dbs, ops, k);
    ReachableTidy(dbs, ops, k);
    VersionsAreNumbered(dbs, ops, op.tenant, op.call, k);
    var ids := VersionIds(dbs, ops, op.tenant, op.call, k);
    LatestIsLast(db, op.tenant, op.call, ids, op.latest);
    forall x | x in db.info && InCall(db, op.tenant, op.call, x)
      ensures x in db'.info && x != op.newId && InCall(db', op.tenant, op.call, x) && db'.rows[x] == db.rows[x]
      ensures (exists t :: Eligible(db.rows[x], op.tenant, t))
              <==> db.rows[x].status == Processing || (db.rows[x].status == Failed && db.rows[x].attemptCount < 3)
    {
      OlderVersionClaimableIff(dbs, ops, k, op.tenant, op.call, ids, x);
    }
    assert forall x :: x in db'.info && x != op.newId && InCall(db', op.tenant, op.call, x) ==>
             x in db.info && InCall(db, op.tenant, op.call, x);
  }

  lemma OlderVersionClaimableIff(dbs: seq<Db>, ops: seq<Op>, k: nat, tenant: nat, call: nat, ids: seq<nat>, x: nat)
    requires IsHistory(dbs, ops) && k < |dbs| && Numbered(dbs[k], tenant, call, ids)
    requires x in dbs[k].info && InCall(dbs[k], tenant, call, x)
    requires !dbs[k].rows[ids[|ids| - 1]].status.Pending?
    ensures (exists t :: Eligible(dbs[k].rows[x], tenant, t))
            <==> dbs[k].rows[x].status == Processing
                 || (dbs[k].rows[x].status == Failed && dbs[k].rows[x].attemptCount < 3)
  {
    ReachableJob(dbs, ops, k, x);
    ReachableTidy(dbs, ops, k);
    var j := dbs[k].rows[x];
    assert ids[dbs[k].info[x].version - 1] == x;
    if j.nextAttemptAt.Some? && (j.status == Processing || j.status == Failed) {
      assert Eligible(j, tenant, j.nextAttemptAt.value);
    }
  }

  /** A first version fails and waits for its retry, a forced request adds a second, both get claimed. */
  ghost function RaceOps(): seq<Op> {
    [Request(0, 0, 9, true, true, false, None, 1), Work(Claim(0, 0, {}, Some(1), 7)),
     Work(Fail(0, 0, 1, 7, ProviderError)), Request(0, 0, 9, true, true, true, Some(1), 2),
     Work(Claim(0, 30, {}, Some(2), 8)), Work(Claim(0, 30, {}, Some(1), 8))]
  }

  ghost function RaceDb(k: nat): Db {
    var fresh1 := NewJob(0, true, Some(0));
    var held1 := ClaimedJob(ANALYSIS_POLICY, fresh1, 0, 7);
    var failed1 := held1.(status := Failed, failureReason := Some(ProviderError), nextAttemptAt := Some(30));
    var held2 := ClaimedJob(ANALYSIS_POLICY, fresh1, 30, 8);
    var one, two := map[1 := Info(9, 1, 0)], map[1 := Info(9, 1, 0), 2 := Info(9, 2, 0)];
    if k == 0 then Db(0, map[], map[], map[])
    else if k == 1 then Db(0, map[1 := fresh1], one, map[])
    else if k == 2 then Db(0, map[1 := held1], one, map[])
    else if k == 3 then Db(0, map[1 := failed1], one, map[])
    else if k == 4 then Db(0, map[1 := failed1, 2 := fresh1], two, map[])
    else if k == 5 then Db(30, map[1 := failed1, 2 := held2], two, map[])
    else Db(30, map[1 := ClaimedJob(ANALYSIS_POLICY, failed1, 30, 8), 2 := held2], two, map[])
  }

  ghost predicate RaceStep(k: nat)
    requires k < 6
  {
    var db, op := RaceDb(k), RaceOps()[k];
    && Possible(db, op)
    && Enabled(Snapshot(db.clock, db.rows), LeaseStep(db, op))
    && RaceDb(k + 1) == ApplyOp(db, op)
  }

  lemma RaceUntilRetry()
    ensures RaceStep(0) && RaceStep(1) && RaceStep(2)
  {
    assert Scaled(30, 0) == 30;
    assert RaceStep(0);
    assert RaceStep(1);
  }

  lemma RaceAfterRetry()
    ensures RaceStep(3) && RaceStep(4) && RaceStep(5)
  {
    assert RaceStep(3);
    assert RaceStep(4);
  }

  /** Both versions of one call in flight at once. */
  lemma TwoVersionsInFlight() returns (dbs: seq<Db>, ops: seq<Op>)
    ensures IsHistory(dbs, ops) && |dbs| == 7
    ensures InCall(dbs[6], 0, 9, 1) && dbs[6].rows[1].status == Processing
    ensures InCall(dbs[6], 0, 9, 2) && dbs[6].rows[2].status == Processing
  {
    ops := RaceOps();
    dbs := seq(7, k requires 0 <= k < 7 => RaceDb(k));
    RaceUntilRetry();
    RaceAfterRetry();
    forall k: nat | k < |ops| ensures OpAt(dbs, ops, k) {
      assert RaceStep(k);
    }
  }

  // -- The service and its driver ------------------------------------------------------------

  /** How the privacy check, the prompt and the provider answer; `*Crash` is any other exception. */
  datatype Authorization = Allowed | Denied | Misconfigured | AuthorizationCrash
  datatype Prompt = Built | CallGone | PromptCrash
  datatype ProviderCode = Down | CodeTimeout | CodeMalformed | Auth | RateLimit | InvalidRequest | Transient
  datatype Answer = TimedOut | ProviderRaised(code: ProviderCode) | Text(parsed: Option<nat>) | ProviderCrash

  function ErrorReason(code: ProviderCode): Reason {
    match code
    case Down => ProviderUnavailable
    case CodeTimeout => ProviderTimeout
    case CodeMalformed => MalformedResponse
    case _ => ProviderError
  }

  /** Follows the driver from top to bottom; the provider is asked only behind both gates. */
  function VerdictOf(a: Authorization, p: Prompt, answer: Answer): (r: (Verdict, bool))
    ensures r.1 <==> a.Allowed? && p.Built?
    ensures r.0.Succeed? <==> a.Allowed? && p.Built? && answer.Text? && answer.parsed.Some?
    ensures r.0.Report? ==> r.0.reason in ANALYSIS_POLICY.reasons
  {
    match a
    case Denied => (Report(PrivacyDenied), false)
    case Misconfigured => (Report(UnexpectedError), false)
    case AuthorizationCrash => (Escape, false)
    case Allowed =>
      match p
      case CallGone => (Report(UnexpectedError), false)
      case PromptCrash => (Escape, false)
      case Built =>
        match answer
        case TimedOut => (Report(ProviderTimeout), true)
        case ProviderRaised(code) => (Report(ErrorReason(code)), true)
        case ProviderCrash => (Escape, true)
        case Text(parsed) => (if parsed.None? then Report(MalformedResponse) else Succeed, true)
  }

  // -- One analysis among the operations of others ---------------------------------------------

  /** The identity a claim leaves on the row. */
  function Held(j: Job, now: int, newId: nat): nat {
    ClaimedJob(ANALYSIS_POLICY, j, now, newId).executionId.value
  }

  /** The operation that records a verdict; an escaping exception records nothing. */
  function FinalOps(tenant: nat, id: nat, execution: nat, later: int, verdict: Verdict, answer: Answer): seq<Op> {
    match verdict
    case Succeed =>
      [Finish(Complete(tenant, later, id, execution), if answer.Text? && answer.parsed.Some? then answer.parsed.value else 0)]
    case Report(reason) => [Work(Fail(tenant, later, id, execution, reason))]
    case Escape => []
  }

  /** Whatever row the claim takes, the others can do what they do after it, and the outcome comes after them. */
  ghost predicate OthersRunnable(db: Db, tenant: nat, now: int, locked: set<nat>, newId: nat, between: nat -> seq<Op>, later: int) {
    forall id :: PickOk(db.rows, tenant, now, locked, Some(id)) ==>
      RunnableUntil(ApplyOp(db, Work(Claim(tenant, now, locked, Some(id), newId))), between(id), later)
  }

  ghost predicate RunnableUntil(claimed: Db, between: seq<Op>, later: int) {
    Runnable(claimed, between) && OpsAfter(claimed, between).clock <= later
  }

  /** What the others do, given the row the execution took. */
  function Meanwhile(between: nat -> seq<Op>, r: Execution): seq<Op> {
    if r.NothingDue? then [] else between(r.id)
  }

  /** The others' steps on the lease columns, after the claim of this execution. */
  ghost function OthersSteps(db: Db, tenant: nat, now: int, locked: set<nat>, newId: nat, between: seq<Op>, r: Execution): seq<Step> {
    if r.NothingDue? then []
    else
      var claimed := ApplyOp(db, Work(Claim(tenant, now, locked, Some(r.id), newId)));
      if Runnable(claimed, between) then StepsOf(claimed, between) else []
  }

  lemma OneOp(db: Db, op: Op)
    requires CanFollow(db, op)
    ensures Runnable(db, [op]) && OpsAfter(db, [op]) == ApplyOp(db, op)
  {
    assert [op][..0] == [];
  }

  /** The database when the outcome is recorded. */
  ghost function Middle(db: Db, tenant: nat, c: Circumstances, id: nat, between: seq<Op>): Db
    requires Runnable(ApplyOp(db, Work(ClaimStep(tenant, c, id))), between)
  {
    OpsAfter(ApplyOp(db, Work(ClaimStep(tenant, c, id))), between)
  }

  ghost function Recorded(db: Db, final: seq<Op>): Db
    requires forall op :: op in final ==> Possible(db, op)
  {
    if final == [] then db else ApplyOp(db, final[0])
  }

  predicate SameTables(a: Db, b: Db) {
    a.rows == b.rows && a.info == b.info && a.results == b.results
  }

  /** One analysis: a run of operations of the history model, and an execution of the lease protocol. */
  ghost predicate IsAnalysis(start: Db, tenant: nat, c: Circumstances, between: seq<Op>, answer: Answer,
                             r: Execution, performed: seq<Op>, work: seq<Step>, after: Db)
  {
    && Executes(ANALYSIS_POLICY, start.rows, tenant, c, r, work, after.rows)
    && Runnable(start, performed)
    && SameTables(after, OpsAfter(start, performed))
    && if r.NothingDue? then performed == []
       else
         && r.id in start.rows
         && performed == [Work(ClaimStep(tenant, c, r.id))] + between
                         + FinalOps(tenant, r.id, Held(start.rows[r.id], c.now, c.newId), c.later, c.verdict, answer)
  }

  lemma MiddleRows(db: Db, tenant: nat, c: Circumstances, id: nat, between: seq<Op>)
    requires var claimed := ApplyOp(db, Work(ClaimStep(tenant, c, id)));
             Runnable(claimed, between) && c.between == StepsOf(claimed, between)
    ensures Middle(db, tenant, c, id, between).rows == BeforeOutcome(ANALYSIS_POLICY, db.rows, tenant, c, id)
  {
    OpsAreSteps(ApplyOp(db, Work(ClaimStep(tenant, c, id))), between);
  }

  lemma FinalLeads(middle: Db, tenant: nat, c: Circumstances, id: nat, execution: nat, answer: Answer)
    requires middle.clock <= c.later
    ensures var final := FinalOps(tenant, id, execution, c.later, c.verdict, answer);
            Leads(middle, final, Recorded(middle, final))
  {
    var final := FinalOps(tenant, id, execution, c.later, c.verdict, answer);
    if !c.verdict.Escape? {
      assert final == [final[0]];
      OneOp(middle, final[0]);
    }
  }

  lemma AnalysisLeads(db: Db, tenant: nat, c: Circumstances, id: nat, between: seq<Op>, answer: Answer)
    requires db.clock <= c.now && PickOk(db.rows, tenant, c.now, c.locked, Some(id))
    requires var claimed := ApplyOp(db, Work(ClaimStep(tenant, c, id)));
             Runnable(claimed, between) && OpsAfter(claimed, between).clock <= c.later
    ensures var final := FinalOps(tenant, id, Held(db.rows[id], c.now, c.newId), c.later, c.verdict, answer);
            Leads(db, [Work(ClaimStep(tenant, c, id))] + between + final, Recorded(Middle(db, tenant, c, id, between), final))
  {
    var claim := Work(ClaimStep(tenant, c, id));
    var claimed, middle := ApplyOp(db, claim), Middle(db, tenant, c, id, between);
    var execution := Held(db.rows[id], c.now, c.newId);
    var final := FinalOps(tenant, id, execution, c.later, c.verdict, answer);
    OneOp(db, claim);
    LeadsConcat(db, [claim], claimed, between, middle);
    FinalLeads(middle, tenant, c, id, execution, answer);
    LeadsConcat(db, [claim] + between, middle, final, Recorded(middle, final));
  }

  /** Claim, the operations of others, and the outcome are runnable, and are an execution of the protocol. */
  lemma AnalysisRuns(db: Db, tenant: nat, c: Circumstances, id: nat, between: seq<Op>, answer: Answer)
    requires db.clock <= c.now && PickOk(db.rows, tenant, c.now, c.locked, Some(id))
    requires var claimed := ApplyOp(db, Work(ClaimStep(tenant, c, id)));
             Runnable(claimed, between) && OpsAfter(claimed, between).clock <= c.later && c.between == StepsOf(claimed, between)
    ensures var final := FinalOps(tenant, id, Held(db.rows[id], c.now, c.newId), c.later, c.verdict, answer);
            var ops := [Work(ClaimStep(tenant, c, id))] + between + final;
            && Runnable(db, ops)
            && OpsAfter(db, ops) == Recorded(Middle(db, tenant, c, id, between), final)
            && OpsAfter(db, ops).rows == After(ANALYSIS_POLICY, db.rows, WorkSteps(ANALYSIS_POLICY, db.rows, tenant, c, id))
  {
    AnalysisLeads(db, tenant, c, id, between, answer);
    MiddleRows(db, tenant, c, id, between);
    ThreePhases(ANALYSIS_POLICY, db.rows, ClaimStep(tenant, c, id), c.between,
                OutcomeStep(tenant, id, Identity(ANALYSIS_POLICY, db.rows, c, id), c));
  }

  lemma AnalysisCloses(start: Db, tenant: nat, c: Circumstances, id: nat, between: seq<Op>, answer: Answer, after: Db)
    requires start.clock <= c.now && PickOk(start.rows, tenant, c.now, c.locked, Some(id))
    requires var claimed := ApplyOp(start, Work(ClaimStep(tenant, c, id)));
             Runnable(claimed, between) && OpsAfter(claimed, between).clock <= c.later && c.between == StepsOf(claimed, between)
    requires var final := FinalOps(tenant, id, Held(start.rows[id], c.now, c.newId), c.later, c.verdict, answer);
             SameTables(after, Recorded(Middle(start, tenant, c, id, between), final))
    ensures IsAnalysis(start, tenant, c, between, answer, ResultOf(ANALYSIS_POLICY, start.rows, tenant, c, id),
                       [Work(ClaimStep(tenant, c, id))] + between
                       + FinalOps(tenant, id, Held(start.rows[id], c.now, c.newId), c.later, c.verdict, answer),
                       WorkSteps(ANALYSIS_POLICY, start.rows, tenant, c, id), after)
  {
    AnalysisRuns(start, tenant, c, id, between, answer);
  }

  lemma AcceptedVerdictShows(db: Db, tenant: nat, id: nat, execution: nat, c: Circumstances, answer: Answer)
    requires !c.verdict.Escape? && Perform(ANALYSIS_POLICY, db.rows, OutcomeStep(tenant, id, execution, c)).Ok?
    ensures var after := Recorded(db, FinalOps(tenant, id, execution, c.later, c.verdict, answer));
            && id in after.rows
            && (c.verdict.Succeed? ==>
                  && after.rows[id].status == Completed && after.rows[id].failureReason == None && id in after.results
                  && (answer.Text? && answer.parsed.Some? ==> after.results[id] == answer.parsed.value))
            && (c.verdict.Report? ==>
                  after.rows[id].status == Failed && after.rows[id].failureReason == Some(c.verdict.reason))
  {
  }

  /** A finished analysis shows its verdict on its row, with the result stored exactly on success. */
  lemma AnalysisOutcome(start: Db, tenant: nat, c: Circumstances, between: seq<Op>, answer: Answer,
                        r: Execution, performed: seq<Op>, work: seq<Step>, after: Db)
    requires IsAnalysis(start, tenant, c, between, answer, r, performed, work, after)
    requires r.Executed? && PickOk(start.rows, tenant, c.now, c.locked, Some(r.id)) && start.clock <= c.now
    requires var claimed := ApplyOp(start, Work(ClaimStep(tenant, c, r.id)));
             Runnable(claimed, between) && OpsAfter(claimed, between).clock <= c.later && c.between == StepsOf(claimed, between)
    ensures r.id in after.rows && !c.verdict.Escape?
    ensures c.verdict.Succeed? ==>
              && after.rows[r.id].status == Completed && after.rows[r.id].failureReason == None
              && r.id in after.results
              && (answer.Text? && answer.parsed.Some? ==> after.results[r.id] == answer.parsed.value)
    ensures c.verdict.Report? ==> after.rows[r.id].status == Failed && after.rows[r.id].failureReason == Some(c.verdict.reason)
  {
    MiddleRows(start, tenant, c, r.id, between);
    AnalysisRuns(start, tenant, c, r.id, between, answer);
    AcceptedVerdictShows(Middle(start, tenant, c, r.id, between), tenant, r.id, Held(start.rows[r.id], c.now, c.newId), c, answer);
  }

  /** Unless an exception escaped, the row is out of flight, and a refused outcome is the only error. */
  lemma AnalysisOutOfFlight(start: Db, tenant: nat, c: Circumstances, between: seq<Op>, r: Execution, work: seq<Step>, after: Table)
    requires Executes(ANALYSIS_POLICY, start.rows, tenant, c, r, work, after) && !r.NothingDue?
    requires var claimed := ApplyOp(start, Work(ClaimStep(tenant, c, r.id)));
             Runnable(claimed, between) && c.between == StepsOf(claimed, between)
    requires !c.verdict.Escape? && (c.verdict.Report? ==> c.verdict.reason in ANALYSIS_POLICY.reasons)
    ensures r.id in after && after[r.id].status != Processing
    ensures r.Raised? ==> r.error == Some(Conflict)
  {
    OpsAreSteps(ApplyOp(start, Work(ClaimStep(tenant, c, r.id))), between);
    FinishedOutOfFlight(ANALYSIS_POLICY, start.rows, tenant, c, r, work, after);
  }

  // -- The driver under the polling worker ---------------------------------------------------------

  /** How the three systems answer for one row. */
  datatype Replies = Replies(a: Authorization, p: Prompt, answer: Answer)

  predicate Parsed(x: Replies) {
    x.a.Allowed? && x.p.Built? && x.answer.Text? && x.answer.parsed.Some?
  }

  /** The worker's verdict on the row is the driver's. */
  ghost predicate Drives(i: Input, id: nat, x: Replies) {
    i.verdict(id) == VerdictOf(x.a, x.p, x.answer).0
  }

  lemma OutcomeTells(rows: Table, tenant: nat, id: nat, execution: nat, c: Circumstances, x: Replies)
    requires c.verdict == VerdictOf(x.a, x.p, x.answer).0 && !c.verdict.Escape?
    requires Perform(ANALYSIS_POLICY, rows, OutcomeStep(tenant, id, execution, c)).Ok?
    ensures var rows' := Apply(ANALYSIS_POLICY, rows, OutcomeStep(tenant, id, execution, c));
            && id in rows'
            && (rows'[id].status == Completed <==> Parsed(x))
            && (rows'[id].status == Failed <==> !Parsed(x))
            && (rows'[id].failureReason == Some(PrivacyDenied) <==> x.a.Denied?)
  {
  }

  lemma ExecutionTells(before: Table, tenant: nat, c: Circumstances, r: Execution, work: seq<Step>, after: Table, x: Replies)
    requires Executes(ANALYSIS_POLICY, before, tenant, c, r, work, after) && r.Executed?
    requires c.verdict == VerdictOf(x.a, x.p, x.answer).0
    ensures r.id in after
    ensures after[r.id].status == Completed <==> Parsed(x)
    ensures after[r.id].status == Failed <==> !Parsed(x)
    ensures after[r.id].failureReason == Some(PrivacyDenied) <==> x.a.Denied?
  {
    var execution := Identity(ANALYSIS_POLICY, before, c, r.id);
    ThreePhases(ANALYSIS_POLICY, before, ClaimStep(tenant, c, r.id), c.between, OutcomeStep(tenant, r.id, execution, c));
    OutcomeTells(BeforeOutcome(ANALYSIS_POLICY, before, tenant, c, r.id), tenant, r.id, execution, c, x);
  }

  /**
   Every execution of every tick of a poll, in any interleaving, leaves its row out of flight unless an
   exception escapes the driver. An accepted outcome completes exactly a parsed answer behind both
   gates; without such an exception, a tick ends with an error only because somebody else had taken
   its row out of flight.
   */
  lemma PolledAnalysisTells(start: Table, run: seq<Step>, tenants: seq<nat>, limit: nat, inputs: seq<seq<Input>>,
                            schedule: seq<Move>, workers: seq<Worker>, tracks: seq<Track>, i: nat, k: nat, x: Replies)
    requires Polling(ANALYSIS_POLICY, start, run, tenants, limit, inputs, schedule, workers, tracks)
    requires AllAddressed(ANALYSIS_POLICY, start, run) && i < |tenants| && k < |tracks[i].log|
    requires !tracks[i].log[k].result.NothingDue? && k < |inputs[i]|
    requires Drives(inputs[i][k], tracks[i].log[k].result.id, x)
    ensures var turn, escapes := tracks[i].log[k], VerdictOf(x.a, x.p, x.answer).0.Escape?;
            && (turn.result.Raised? && turn.result.error.None? <==> escapes)
            && (!escapes ==> turn.result.id in turn.after && turn.after[turn.result.id].status != Processing)
            && (!escapes && turn.result.Raised? ==> turn.result.error == Some(Conflict))
            && (turn.result.Executed? ==>
                  && (turn.after[turn.result.id].status == Completed <==> Parsed(x))
                  && (turn.after[turn.result.id].status == Failed <==> !Parsed(x))
                  && (turn.after[turn.result.id].failureReason == Some(PrivacyDenied) <==> x.a.Denied?))
  {
    var turn, c, tenant := tracks[i].log[k], tracks[i].slots[k].c, tenants[i];
    TurnOfPoll(ANALYSIS_POLICY, start, run, tenants, limit, inputs, schedule, workers, tracks, i, k);
    if !c.verdict.Escape? {
      FinishedOutOfFlight(ANALYSIS_POLICY, turn.before, tenant, c, turn.result, turn.work, turn.after);
      if turn.result.Executed? {
        ExecutionTells(turn.before, tenant, c, turn.result, turn.work, turn.after, x);
      }
    }
  }

  class AnalysisService {
    const jobs: JobTable
    var info: map<nat, Info>
    var results: map<nat, nat>

    ghost predicate Valid()
      reads this, jobs
    {
      jobs.policy == ANALYSIS_POLICY
    }

    constructor ()
      ensures Valid() && fresh(jobs)
      ensures View(0) == Db(0, map[], map[], map[])
    {
      jobs := new JobTable(ANALYSIS_POLICY);
      info := map[];
      results := map[];
    }

    function View(clock: int): Db
      reads this, jobs
    {
      Db(clock, jobs.rows, info, results)
    }

    method RequestAnalysis(tenant: nat, now: int, call: nat, found: bool, ended: bool, force: bool, newId: nat)
        returns (r: Result<nat, RequestError>, ghost latest: Option<nat>)
      requires Valid() && newId !in jobs.rows && newId !in info
      modifies this, jobs
      ensures Valid()
      ensures var op := Request(tenant, now, call, found, ended, force, latest, newId);
              && Possible(old(View(now)), op)
              && View(now) == ApplyOp(old(View(now)), op)
              && match Decide(old(View(now)), op)
                 case Err(e) => r == Err(e)
                 case Ok(Existing(id)) => r == Ok(id)
                 case Ok(NewVersion(v)) => r == Ok(newId) && newId in info && info[newId] == Info(call, v, now)
    {
      latest := NewestVersion(tenant, call);
      if !found {
        return Err(CallNotFound), latest;
      }
      if !ended {
        return Err(NotEligible), latest;
      }
      var newest := NewestVersion(tenant, call);
      latest := newest;
      if newest.Some? && (jobs.rows[newest.value].status == Pending || jobs.rows[newest.value].status == Processing) {
        if force {
          return Err(InProgress), latest;
        }
        return Ok(newest.value), latest;
      }
      if newest.Some? && !force {
        return Ok(newest.value), latest;
      }
      var nextVersion: nat := 1;
      if newest.Some? {
        nextVersion := info[newest.value].version + 1;
      }
      jobs.Insert(tenant, now, newId, true, Some(now));
      info := info[newId := Info(call, nextVersion, now)];
      r := Ok(newId);
    }

    /** `get_latest_analysis`: the highest version whatever its status, or nothing. */
    method NewestVersion(tenant: nat, call: nat) returns (latest: Option<nat>)
      ensures IsLatest(View(0), tenant, call, latest)
      ensures forall now :: IsLatest(View(now), tenant, call, latest)
    {
      var ids := set x | x in info && x in jobs.rows && jobs.rows[x].tenant == tenant && info[x].call == call;
      var versions := set x | x in ids :: info[x].version as int;
      if ids == {} {
        assert forall x :: x in info && InCall(View(0), tenant, call, x) ==> x in ids;
        return None;
      }
      ghost var some := AnyOf(ids);
      assert info[some].version as int in versions;
      var newest := Max(versions);
      var id: nat :| id in ids && info[id].version as int == newest;
      forall x | x in info && InCall(View(0), tenant, call, x) ensures info[x].version <= info[id].version {
        assert x in ids && info[x].version as int in versions;
      }
      latest := Some(id);
    }

    /**
     One analysis: claim, authorize, build the prompt, ask the provider, record, while others go on
     with operations of their own. The provider is asked only when the check allowed it and the prompt
     was built. A result is stored exactly with a completion; an exception the driver does not handle
     leaves the row to its lease. What happened is a run of operations of the history model, `performed`.
     */
    method RunCallAiAnalysis(ghost clock: int, tenant: nat, now: int, locked: set<nat>, newId: nat,
                             between: nat -> seq<Op>, later: int, a: Authorization, p: Prompt, answer: Answer)
        returns (r: Execution, asked: bool, ghost performed: seq<Op>, ghost work: seq<Step>)
      requires Valid() && clock <= now
      requires OthersRunnable(View(clock), tenant, now, locked, newId, between, later)
      modifies this, jobs
      ensures Valid()
      ensures IsAnalysis(old(View(clock)), tenant,
                         Circumstances(now, locked, newId,
                                       OthersSteps(old(View(clock)), tenant, now, locked, newId, Meanwhile(between, r), r),
                                       VerdictOf(a, p, answer).0, later),
                         Meanwhile(between, r), answer, r, performed, work, View(later))
      ensures asked <==> !r.NothingDue? && a.Allowed? && p.Built?
      ensures r.Executed? ==> r.id in jobs.rows
      ensures r.Executed? && answer.Text? && answer.parsed.Some? && asked ==>
                && jobs.rows[r.id].status == Completed
                && r.id in results && results[r.id] == answer.parsed.value
      ensures r.Executed? && !(answer.Text? && answer.parsed.Some? && asked) ==>
                jobs.rows[r.id].status == Failed && jobs.rows[r.id].failureReason.Some?
      ensures r.Executed? && !asked ==>
                jobs.rows[r.id].failureReason == Some(if a.Denied? then PrivacyDenied else UnexpectedError)
      ensures r.Executed? && asked ==>
                jobs.rows[r.id].failureReason ==
                (match answer
                 case TimedOut => Some(ProviderTimeout)
                 case ProviderRaised(Down) => Some(ProviderUnavailable)
                 case ProviderRaised(CodeTimeout) => Some(ProviderTimeout)
                 case ProviderRaised(CodeMalformed) => Some(MalformedResponse)
                 case ProviderRaised(_) => Some(ProviderError)
                 case Text(parsed) => if parsed.Some? then None else Some(MalformedResponse)
                 case ProviderCrash => None)
      ensures !r.NothingDue? && !(r.Raised? && r.error.None?) ==>
                && r.id in jobs.rows && jobs.rows[r.id].status != Processing
                && (r.Raised? ==> r.error == Some(Conflict))
      ensures r.Raised? && r.error.None? <==>
                !r.NothingDue? && (a.AuthorizationCrash? || (a.Allowed? && p.PromptCrash?) || (asked && answer.ProviderCrash?))
    {
      var (verdict, consulted) := VerdictOf(a, p, answer);
      ghost var start := View(clock);
      r, performed, work := ClaimAndRecord(clock, tenant, now, locked, newId, between, later, verdict, answer);
      asked := consulted && !r.NothingDue?;
      ghost var meanwhile := Meanwhile(between, r);
      ghost var c := Circumstances(now, locked, newId, OthersSteps(start, tenant, now, locked, newId, meanwhile, r), verdict, later);
      if !r.NothingDue? && !verdict.Escape? {
        AnalysisOutOfFlight(start, tenant, c, meanwhile, r, work, jobs.rows);
      }
      if r.Executed? {
        AnalysisOutcome(start, tenant, c, meanwhile, answer, r, performed, work, View(later));
      }
    }

    /** The database side of an analysis whose verdict is known: claim, let the others go on, record. */
    method ClaimAndRecord(ghost clock: int, tenant: nat, now: int, locked: set<nat>, newId: nat,
                          between: nat -> seq<Op>, later: int, verdict: Verdict, answer: Answer)
        returns (r: Execution, ghost performed: seq<Op>, ghost work: seq<Step>)
      requires Valid() && clock <= now && (verdict.Succeed? ==> answer.Text? && answer.parsed.Some?)
      requires OthersRunnable(View(clock), tenant, now, locked, newId, between, later)
      modifies this, jobs
      ensures Valid()
      ensures IsAnalysis(old(View(clock)), tenant,
                         Circumstances(now, locked, newId,
                                       OthersSteps(old(View(clock)), tenant, now, locked, newId, Meanwhile(between, r), r),
                                       verdict, later),
                         Meanwhile(between, r), answer, r, performed, work, View(later))
      ensures r.Raised? && r.error.None? <==> !r.NothingDue? && verdict.Escape?
    {
      ghost var start := View(clock);
      var pick := jobs.ClaimDue(tenant, now, locked, newId);
      if pick.None? {
        return NothingDue, [], [];
      }
      assert View(now) == ApplyOp(start, Work(Claim(tenant, now, locked, pick, newId)));
      assert RunnableUntil(View(now), between(pick.value), later);
      r, performed, work := FinishAnalysis(start, tenant, now, locked, newId, pick.value, between(pick.value), later, verdict, answer);
    }

    /** The rest of an analysis whose claim took row `id` of the database `start`. */
    method FinishAnalysis(ghost start: Db, tenant: nat, now: int, locked: set<nat>, newId: nat, id: nat,
                          between: seq<Op>, later: int, verdict: Verdict, answer: Answer)
        returns (r: Execution, ghost performed: seq<Op>, ghost work: seq<Step>)
      requires Valid() && start.clock <= now && (verdict.Succeed? ==> answer.Text? && answer.parsed.Some?)
      requires PickOk(start.rows, tenant, now, locked, Some(id))
      requires View(now) == ApplyOp(start, Work(Claim(tenant, now, locked, Some(id), newId)))
      requires RunnableUntil(View(now), between, later)
      modifies this, jobs
      ensures Valid() && !r.NothingDue? && r.id == id
      ensures var claimed := ApplyOp(start, Work(Claim(tenant, now, locked, Some(id), newId)));
              && Runnable(claimed, between)
              && IsAnalysis(start, tenant, Circumstances(now, locked, newId, StepsOf(claimed, between), verdict, later),
                            between, answer, r, performed, work, View(later))
      ensures r.Raised? && r.error.None? <==> verdict.Escape?
    {
      ghost var c := Circumstances(now, locked, newId, StepsOf(View(now), between), verdict, later);
      var execution := jobs.rows[id].executionId.value;
      // Meanwhile, the others.
      var meanwhile := OpsAfter(View(now), between);
      jobs.rows := meanwhile.rows;
      info := meanwhile.info;
      results := meanwhile.results;
      MiddleRows(start, tenant, c, id, between);
      r := RecordVerdict(tenant, id, execution, later, verdict, answer);
      performed := [Work(ClaimStep(tenant, c, id))] + between + FinalOps(tenant, id, execution, later, verdict, answer);
      work := WorkSteps(ANALYSIS_POLICY, start.rows, tenant, c, id);
      AnalysisCloses(start, tenant, c, id, between, answer, View(later));
    }

    /** Records what the verdict says, unless the exception escapes. */
    method RecordVerdict(tenant: nat, id: nat, execution: nat, later: int, verdict: Verdict, answer: Answer)
        returns (r: Execution)
      requires Valid() && (verdict.Succeed? ==> answer.Text? && answer.parsed.Some?)
      modifies this`results, jobs
      ensures Valid() && info == old(info)
      ensures var final := FinalOps(tenant, id, execution, later, verdict, answer);
              var c := Circumstances(0, {}, 0, [], verdict, later);
              if verdict.Escape? then r == Raised(id, None) && jobs.rows == old(jobs.rows) && results == old(results)
              else
                && View(later) == ApplyOp(old(View(later)), final[0])
                && r == match Perform(ANALYSIS_POLICY, old(jobs.rows), OutcomeStep(tenant, id, execution, c))
                        case Ok(_) => Executed(id)
                        case Err(e) => Raised(id, Some(e))
    {
      match verdict {
        case Succeed =>
          var done := jobs.RecordCompletion(tenant, later, id, execution);
          if done.Ok? {
            results := results[id := answer.parsed.value];
          }
          r := if done.Ok? then Executed(id) else Raised(id, Some(done.error));
        case Report(reason) =>
          var done := jobs.RecordFailure(tenant, later, id, execution, reason);
          r := if done.Ok? then Executed(id) else Raised(id, Some(done.error));
        case Escape =>
          r := Raised(id, None);
      }
    }
  }
}
