/** Tenant isolation of the versioned analyses: decisions, versions and results, not the lease columns alone. */
module AnalysisTenancy {
  import opened Wrappers
  import opened RetryPolicy
  import opened LeaseProtocol
  import opened LeaseFairness
  import opened Analyses

  function OpTenant(op: Op): nat {
    match op
    case Request(tenant, _, _, _, _, _, _, _) => tenant
    case Work(step) => step.tenant
    case Finish(step, _) => step.tenant
  }

  /** The entries of a table that belong to the tenant's rows. */
  function OwnPart<T>(m: map<nat, T>, rows: Table, tenant: nat): map<nat, T> {
    map x | x in m && Visible(rows, tenant, x) :: m[x]
  }

  /** What one tenant sees of the database. */
  function OwnDb(db: Db, tenant: nat): Db {
    Db(db.clock, Own(db.rows, tenant), OwnPart(db.info, db.rows, tenant), OwnPart(db.results, db.rows, tenant))
  }

  lemma PartStays<T>(m: map<nat, T>, rows: Table, rows': Table, tenant: nat)
    requires forall x :: x in m ==> (Visible(rows', tenant, x) <==> Visible(rows, tenant, x))
    ensures OwnPart(m, rows', tenant) == OwnPart(m, rows, tenant)
  {
  }

  lemma PartGrows<T>(m: map<nat, T>, rows: Table, rows': Table, tenant: nat, k: nat, v: T)
    requires forall x :: x in m ==> (Visible(rows', tenant, x) <==> Visible(rows, tenant, x))
    ensures OwnPart(m[k := v], rows', tenant) ==
            if Visible(rows', tenant, k) then OwnPart(m, rows, tenant)[k := v] else OwnPart(m, rows, tenant)
  {
  }

  /** The operation is a possible one, at whatever time: new identifiers are new, and a claim takes a row of its tenant. */
  predicate Fits(db: Db, op: Op) {
    Possible(db, op) && Addressed(db.rows, LeaseStep(db, op))
  }

  lemma FollowingFits(db: Db, op: Op)
    requires CanFollow(db, op)
    ensures Fits(db, op)
  {
    OpActsAsStep(db, op);
  }

  // -- One operation -------------------------------------------------------------------------------

  lemma OwnInCall(db: Db, tenant: nat, call: nat, x: nat)
    ensures InCall(OwnDb(db, tenant), tenant, call, x) <==> InCall(db, tenant, call, x)
  {
  }

  lemma LatestProjects(db: Db, tenant: nat, call: nat, latest: Option<nat>)
    ensures IsLatest(OwnDb(db, tenant), tenant, call, latest) <==> IsLatest(db, tenant, call, latest)
  {
    forall x ensures InCall(OwnDb(db, tenant), tenant, call, x) <==> InCall(db, tenant, call, x) {
      OwnInCall(db, tenant, call, x);
    }
  }

  /** Whether an operation is possible, what a request decides and which step is taken: all read off the tenant's own rows. */
  lemma DecisionProjects(db: Db, op: Op)
    requires Possible(db, op)
    ensures Possible(OwnDb(db, OpTenant(op)), op)
    ensures op.Request? ==> Decide(OwnDb(db, op.tenant), op) == Decide(db, op)
    ensures LeaseStep(OwnDb(db, OpTenant(op)), op) == LeaseStep(db, op)
  {
    if op.Request? {
      LatestProjects(db, op.tenant, op.call, op.latest);
    }
  }

  lemma StepRows(db: Db, op: Op)
    requires Possible(db, op)
    ensures ApplyOp(db, op).rows == Apply(ANALYSIS_POLICY, db.rows, LeaseStep(db, op))
  {
  }

  lemma StepTenant(db: Db, op: Op)
    requires Possible(db, op)
    ensures LeaseStep(db, op).tenant == OpTenant(op)
  {
  }

  lemma RowsProject(db: Db, op: Op, tenant: nat)
    requires Fits(db, op)
    ensures Own(ApplyOp(db, op).rows, tenant) ==
            if OpTenant(op) == tenant then Apply(ANALYSIS_POLICY, Own(db.rows, tenant), LeaseStep(db, op)) else Own(db.rows, tenant)
  {
    StepRows(db, op);
    StepTenant(db, op);
    StepProjects(ANALYSIS_POLICY, db.rows, LeaseStep(db, op), tenant);
  }

  /** Rows keep their tenants, and only a request adds one, for its own tenant. */
  lemma VisibilityProjects(db: Db, op: Op, tenant: nat, x: nat)
    requires Fits(db, op)
    ensures x in db.rows ==> (Visible(ApplyOp(db, op).rows, tenant, x) <==> Visible(db.rows, tenant, x))
    ensures op.Request? && LeaseStep(db, op).Create? ==>
              (Visible(ApplyOp(db, op).rows, tenant, op.newId) <==> op.tenant == tenant)
    ensures op.Finish? ==> x !in db.rows ==> x !in ApplyOp(db, op).rows
  {
  }

  predicate AddsRow(db: Db, op: Op)
    requires Possible(db, op)
  {
    op.Request? && LeaseStep(db, op).Create?
  }

  predicate StoresResult(db: Db, op: Op)
    requires Possible(db, op)
  {
    op.Finish? && Perform(ANALYSIS_POLICY, db.rows, op.step).Ok?
  }

  function NewInfo(db: Db, op: Op): Info
    requires Possible(db, op) && AddsRow(db, op)
  {
    Info(op.call, Decide(db, op).value.version, op.now)
  }

  /** The fixed columns and the results an operation writes. */
  lemma TablesAfter(db: Db, op: Op)
    requires Possible(db, op)
    ensures ApplyOp(db, op).info == if AddsRow(db, op) then db.info[op.newId := NewInfo(db, op)] else db.info
    ensures ApplyOp(db, op).results == if StoresResult(db, op) then db.results[op.step.id := op.result] else db.results
    ensures StoresResult(db, op) ==> Visible(db.rows, OpTenant(op), op.step.id)
  {
  }

  lemma TablesProject(db: Db, op: Op, tenant: nat)
    requires Tidy(db) && Fits(db, op)
    ensures var own, db' := OwnDb(db, tenant), OwnDb(ApplyOp(db, op), tenant);
            && db'.info == (if OpTenant(op) == tenant && AddsRow(db, op) then own.info[op.newId := NewInfo(db, op)] else own.info)
            && db'.results ==
               (if OpTenant(op) == tenant && StoresResult(db, op) then own.results[op.step.id := op.result] else own.results)
  {
    var rows' := ApplyOp(db, op).rows;
    TablesAfter(db, op);
    forall x | x in db.rows ensures Visible(rows', tenant, x) <==> Visible(db.rows, tenant, x) {
      VisibilityProjects(db, op, tenant, x);
    }
    PartStays(db.info, db.rows, rows', tenant);
    PartStays(db.results, db.rows, rows', tenant);
    if AddsRow(db, op) {
      VisibilityProjects(db, op, tenant, op.newId);
      PartGrows(db.info, db.rows, rows', tenant, op.newId, NewInfo(db, op));
    }
    if StoresResult(db, op) {
      PartGrows(db.results, db.rows, rows', tenant, op.step.id, op.result);
    }
  }

  /** The tenant's own operation writes to its tables what it would write to them alone. */
  lemma OwnTablesProject(db: Db, op: Op)
    requires Tidy(db) && Fits(db, op) && Possible(OwnDb(db, OpTenant(op)), op)
    ensures OwnDb(ApplyOp(db, op), OpTenant(op)).info == ApplyOp(OwnDb(db, OpTenant(op)), op).info
    ensures OwnDb(ApplyOp(db, op), OpTenant(op)).results == ApplyOp(OwnDb(db, OpTenant(op)), op).results
  {
    var own := OwnDb(db, OpTenant(op));
    DecisionProjects(db, op);
    StepRows(db, op);
    StepTenant(db, op);
    ResultProjects(ANALYSIS_POLICY, db.rows, LeaseStep(db, op));
    TablesProject(db, op, OpTenant(op));
    TablesAfter(own, op);
  }

  /**
   A tenant sees of an operation exactly what the operation does to that tenant's rows, versions and
   results alone: everything if the operation is the tenant's, and nothing if it is another's.
   */
  lemma OpProjects(db: Db, op: Op, tenant: nat)
    requires Tidy(db) && Fits(db, op)
    ensures OpTenant(op) == tenant ==>
              Possible(OwnDb(db, tenant), op) && OwnDb(ApplyOp(db, op), tenant) == ApplyOp(OwnDb(db, tenant), op)
    ensures OpTenant(op) != tenant ==> SameTables(OwnDb(ApplyOp(db, op), tenant), OwnDb(db, tenant))
  {
    RowsProject(db, op, tenant);
    if OpTenant(op) == tenant {
      DecisionProjects(db, op);
      OwnTablesProject(db, op);
    } else {
      TablesProject(db, op, tenant);
    }
  }

  lemma FollowProjects(db: Db, own: Db, op: Op)
    requires CanFollow(db, op) && SameTables(own, OwnDb(db, OpTenant(op))) && own.clock <= db.clock
    ensures CanFollow(own, op) && SameTables(ApplyOp(own, op), ApplyOp(OwnDb(db, OpTenant(op)), op))
    ensures ApplyOp(own, op).clock == ApplyOp(db, op).clock
    ensures Possible(OwnDb(db, OpTenant(op)), op)
  {
    DecisionProjects(db, op);
    StepTenant(db, op);
    OpsReadTables(own, OwnDb(db, OpTenant(op)), op);
    EligibleRowsProject(Snapshot(db.clock, db.rows), LeaseStep(db, op), own.clock);
  }

  /** Operations read the tables, not the clock. */
  lemma OpsReadTables(a: Db, b: Db, op: Op)
    requires SameTables(a, b) && Possible(b, op)
    ensures Possible(a, op) && LeaseStep(a, op) == LeaseStep(b, op) && SameTables(ApplyOp(a, op), ApplyOp(b, op))
    ensures op.Request? ==> Decide(a, op) == Decide(b, op)
  {
    if op.Request? {
      assert forall x :: InCall(a, op.tenant, op.call, x) <==> InCall(b, op.tenant, op.call, x);
    }
  }

  // -- Operations of two tenants -----------------------------------------------------------------------

  lemma DbsEqualByTenant(a: Db, b: Db)
    requires Tidy(a) && Tidy(b)
    requires forall t :: SameTables(OwnDb(a, t), OwnDb(b, t))
    ensures SameTables(a, b)
  {
    forall t ensures Own(a.rows, t) == Own(b.rows, t) {
      assert SameTables(OwnDb(a, t), OwnDb(b, t));
    }
    TablesEqualByTenant(a.rows, b.rows);
    forall x | x in a.rows
      ensures a.info[x] == b.info[x]
      ensures x in a.results <==> x in b.results
      ensures x in a.results ==> a.results[x] == b.results[x]
    {
      var t := a.rows[x].tenant;
      var own, own' := OwnDb(a, t), OwnDb(b, t);
      assert SameTables(own, own');
      assert x in own.info && x in own'.info;
      assert x in a.results <==> x in own.results;
      assert x in b.results <==> x in own'.results;
    }
  }

  /** Another tenant's operation does not get in the way. */
  lemma FitSurvives(db: Db, a: Op, b: Op)
    requires Tidy(db) && OpTenant(a) != OpTenant(b) && Fits(db, a) && Fits(db, b)
    requires a.Request? && b.Request? ==> a.newId != b.newId
    ensures Fits(ApplyOp(db, a), b)
  {
    var after, t := ApplyOp(db, a), OpTenant(b);
    OpProjects(db, a, t);
    OpKeepsTidy(db, a);
    DecisionProjects(db, b);
    OpsReadTables(OwnDb(after, t), OwnDb(db, t), b);
    StepRows(db, a);
    if b.Request? {
      LatestProjects(after, t, b.call, b.latest);
      assert b.newId !in after.rows;
    } else if b.Work? && b.step.Claim? && b.step.pick.Some? {
      VisibilityProjects(db, a, t, b.step.pick.value);
    }
  }

  /** Requests, claims and outcomes of different tenants commute, in every table. */
  lemma OpsOfTwoTenantsCommute(db: Db, a: Op, b: Op)
    requires Tidy(db) && OpTenant(a) != OpTenant(b) && Fits(db, a) && Fits(db, b)
    requires a.Request? && b.Request? ==> a.newId != b.newId
    ensures Fits(ApplyOp(db, a), b) && Fits(ApplyOp(db, b), a)
    ensures SameTables(ApplyOp(ApplyOp(db, a), b), ApplyOp(ApplyOp(db, b), a))
  {
    FitSurvives(db, a, b);
    FitSurvives(db, b, a);
    var afterA, afterB := ApplyOp(db, a), ApplyOp(db, b);
    OpKeepsTidy(db, a);
    OpKeepsTidy(db, b);
    OpKeepsTidy(afterA, b);
    OpKeepsTidy(afterB, a);
    forall t ensures SameTables(OwnDb(ApplyOp(afterA, b), t), OwnDb(ApplyOp(afterB, a), t)) {
      OpProjects(db, a, t);
      OpProjects(db, b, t);
      OpProjects(afterA, b, t);
      OpProjects(afterB, a, t);
      if t == OpTenant(a) {
        OpsReadTables(OwnDb(afterB, t), OwnDb(db, t), a);
      } else if t == OpTenant(b) {
        OpsReadTables(OwnDb(afterA, t), OwnDb(db, t), b);
      }
    }
    DbsEqualByTenant(ApplyOp(afterA, b), ApplyOp(afterB, a));
  }

  // -- Histories -------------------------------------------------------------------------------------

  ghost function OwnOps(ops: seq<Op>, tenant: nat, k: nat): seq<Op>
    requires k <= |ops|
  {
    if k == 0 then [] else OwnOps(ops, tenant, k - 1) + if OpTenant(ops[k - 1]) == tenant then [ops[k - 1]] else []
  }

  ghost function OwnDbs(dbs: seq<Db>, ops: seq<Op>, tenant: nat, k: nat): (r: seq<Db>)
    requires k <= |ops| < |dbs|
    ensures |r| == |OwnOps(ops, tenant, k)| + 1
  {
    if k == 0 then [Db(dbs[0].clock, map[], map[], map[])]
    else
      OwnDbs(dbs, ops, tenant, k - 1) + if OpTenant(ops[k - 1]) == tenant then [OwnDb(dbs[k], tenant)] else []
  }

  lemma HistoryExtends(dbs: seq<Db>, ops: seq<Op>, op: Op, db: Db)
    requires IsHistory(dbs, ops) && CanFollow(dbs[|ops|], op) && db == ApplyOp(dbs[|ops|], op)
    ensures IsHistory(dbs + [db], ops + [op])
  {
    forall k: nat | k < |ops + [op]| ensures OpAt(dbs + [db], ops + [op], k) {
      if k < |ops| {
        assert OpAt(dbs, ops, k);
      }
    }
  }

  /**
   Tenant projection of analyses: what one tenant sees of any interleaved history, its decisions,
   version numbers and results included, is a history of that tenant's operations alone.
   */
  lemma {:induction false} HistoryProjection(dbs: seq<Db>, ops: seq<Op>, tenant: nat, k: nat)
    requires IsHistory(dbs, ops) && k <= |ops|
    ensures var mine, work := OwnDbs(dbs, ops, tenant, k), OwnOps(ops, tenant, k);
            && IsHistory(mine, work)
            && SameTables(mine[|work|], OwnDb(dbs[k], tenant))
            && mine[|work|].clock <= dbs[k].clock
  {
    if k == 0 {
      assert Own(dbs[0].rows, tenant) == map[];
    } else {
      HistoryProjection(dbs, ops, tenant, k - 1);
      assert OpAt(dbs, ops, k - 1);
      ReachableTidy(dbs, ops, k - 1);
      var mine, work := OwnDbs(dbs, ops, tenant, k - 1), OwnOps(ops, tenant, k - 1);
      var db, op := dbs[k - 1], ops[k - 1];
      FollowingFits(db, op);
      OpProjects(db, op, tenant);
      if OpTenant(op) == tenant {
        FollowProjects(db, mine[|work|], op);
        HistoryExtends(mine, work, op, OwnDb(dbs[k], tenant));
      } else {
        assert OwnDbs(dbs, ops, tenant, k) == mine && OwnOps(ops, tenant, k) == work;
      }
    }
  }
}
