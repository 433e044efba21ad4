/** No starvation and tenant isolation of the lease protocol. */
module LeaseFairness {
  import opened Wrappers
  import opened RetryPolicy
  import opened LeaseProtocol
  import opened LeaseRuns

  // -- No starvation ---------------------------------------------------------------

  /** The tenant's rows whose deadline is no later than `deadline`. */
  ghost function Ahead(rows: Table, tenant: nat, deadline: int): set<nat> {
    set x | x in rows && rows[x].tenant == tenant
            && rows[x].nextAttemptAt.Some? && rows[x].nextAttemptAt.value <= deadline
  }

  /** The step gives no row of the tenant a deadline as early as this one, by creation or reprocess. */
  predicate Quiet(step: Step, tenant: nat, deadline: int) {
    step.tenant != tenant
    || (match step
        case Create(_, _, _, executable, due) => executable && due.Some? ==> due.value > deadline
        case Reprocess(_, now, _) => now > deadline
        case _ => true)
  }

  predicate AttemptsClaim(step: Step, tenant: nat) {
    step.Claim? && step.tenant == tenant
  }

  /** The tenant's claim attempts among the steps `lo..hi`. */
  ghost function Attempts(steps: seq<Step>, tenant: nat, lo: nat, hi: nat): nat
    requires lo <= hi <= |steps|
  {
    if lo == hi then 0
    else Attempts(steps, tenant, lo, hi - 1) + if AttemptsClaim(steps[hi - 1], tenant) then 1 else 0
  }

  lemma {:induction false} SubsetSize<T>(a: set<T>, b: set<T>)
    requires a <= b
    ensures |a| <= |b| && (a != b ==> |a| < |b|)
  {
    if a != {} {
      var x := AnyOf(a);
      SubsetSize(a - {x}, b - {x});
      if a != b {
        assert exists y :: y in b && y !in a;
        var y: T :| y in b && y !in a;
        assert y in b - {x} && y !in a - {x};
      }
    } else if b != {} {
      var y := AnyOf(b);
      assert |b| == |b - {y}| + 1;
    }
  }

  /** While the row waits, nothing moves in front of it and every claim takes one row out of its way. */
  lemma QuietStepShrinksAhead(p: Policy, s: Snapshot, step: Step, s': Snapshot, tenant: nat, id: nat)
    requires Sound(p) && Next(p, s, step, s')
    requires id in s.rows && Eligible(s.rows[id], tenant, s.clock)
    requires id in s'.rows && s'.rows[id] == s.rows[id]
    requires Quiet(step, tenant, s.rows[id].nextAttemptAt.value)
    requires AttemptsClaim(step, tenant) ==> id !in step.locked
    ensures var d := s.rows[id].nextAttemptAt.value;
            && Ahead(s'.rows, tenant, d) <= Ahead(s.rows, tenant, d)
            && (AttemptsClaim(step, tenant) ==> Ahead(s'.rows, tenant, d) < Ahead(s.rows, tenant, d))
  {
    var d := s.rows[id].nextAttemptAt.value;
    forall x | x in Ahead(s'.rows, tenant, d) ensures x in Ahead(s.rows, tenant, d) {
      OnlyQuietRowsStayAhead(p, s, step, s', tenant, d, x);
    }
    if AttemptsClaim(step, tenant) {
      assert step.pick.Some?;
      var x := step.pick.value;
      assert x in Ahead(s.rows, tenant, d) && x !in Ahead(s'.rows, tenant, d);
    }
  }

  lemma OnlyQuietRowsStayAhead(p: Policy, s: Snapshot, step: Step, s': Snapshot, tenant: nat, d: int, x: nat)
    requires Sound(p) && Next(p, s, step, s') && d <= s.clock && Quiet(step, tenant, d)
    requires x in Ahead(s'.rows, tenant, d)
    ensures x in Ahead(s.rows, tenant, d)
  {
  }

  ghost predicate WaitsQuietly(steps: seq<Step>, tenant: nat, id: nat, deadline: int, k: nat) {
    && k < |steps|
    && Quiet(steps[k], tenant, deadline)
    && (AttemptsClaim(steps[k], tenant) ==> id !in steps[k].locked)
  }

  lemma {:induction false} ClaimsUseUpAhead(p: Policy, states: seq<Snapshot>, steps: seq<Step>, tenant: nat, id: nat, lo: nat, hi: nat)
    requires IsRun(p, states, steps) && lo <= hi <= |steps|
    requires Has(states, lo, id) && Eligible(Row(states, lo, id), tenant, states[lo].clock)
    requires forall k: nat :: lo <= k < hi ==>
               WaitsQuietly(steps, tenant, id, Row(states, lo, id).nextAttemptAt.value, k)
    requires forall k: nat :: lo <= k <= hi ==> Has(states, k, id) && Row(states, k, id) == Row(states, lo, id)
    ensures var d := Row(states, lo, id).nextAttemptAt.value;
            && states[lo].clock <= states[hi].clock
            && |Ahead(states[hi].rows, tenant, d)| >= 1
            && Attempts(steps, tenant, lo, hi) + |Ahead(states[hi].rows, tenant, d)| <= |Ahead(states[lo].rows, tenant, d)|
  {
    var d := Row(states, lo, id).nextAttemptAt.value;
    assert Has(states, hi, id) && id in Ahead(states[hi].rows, tenant, d);
    if lo < hi {
      ClaimsUseUpAhead(p, states, steps, tenant, id, lo, hi - 1);
      assert StepAt(p, states, steps, hi - 1);
      assert WaitsQuietly(steps, tenant, id, d, hi - 1);
      assert Has(states, hi - 1, id) && Has(states, hi, id);
      QuietStepShrinksAhead(p, states[hi - 1], steps[hi - 1], states[hi], tenant, id);
      SubsetSize(Ahead(states[hi].rows, tenant, d), Ahead(states[hi - 1].rows, tenant, d));
    }
  }

  /**
   No starvation. Take an eligible row and any stretch of a run in which no other row of the tenant
   gets a deadline as early by creation or reprocess, no claim attempt of the tenant finds the row
   locked, and nothing but a claim changes the row. If the tenant's claim attempts in the stretch
   are at least as many as its rows with a deadline no later than this one's, one of them takes it.
   */
  lemma NoStarvation(p: Policy, states: seq<Snapshot>, steps: seq<Step>, tenant: nat, id: nat, lo: nat, hi: nat)
    requires IsRun(p, states, steps) && lo <= hi <= |steps|
    requires Has(states, lo, id) && Eligible(Row(states, lo, id), tenant, states[lo].clock)
    requires forall k: nat :: lo <= k < hi ==>
               WaitsQuietly(steps, tenant, id, Row(states, lo, id).nextAttemptAt.value, k)
    requires forall k: nat :: lo <= k < hi && Has(states, k, id) && Has(states, k + 1, id) ==>
               Row(states, k + 1, id) == Row(states, k, id) || Claims(steps[k], id)
    requires Attempts(steps, tenant, lo, hi) >= |Ahead(states[lo].rows, tenant, Row(states, lo, id).nextAttemptAt.value)|
    ensures exists k: nat :: lo <= k < hi && Claims(steps[k], id)
  {
    if forall k: nat :: lo <= k < hi ==> !Claims(steps[k], id) {
      UnclaimedRowWaits(p, states, steps, id, lo, hi);
      ClaimsUseUpAhead(p, states, steps, tenant, id, lo, hi);
      assert false;
    }
  }

  lemma {:induction false} UnclaimedRowWaits(p: Policy, states: seq<Snapshot>, steps: seq<Step>, id: nat, lo: nat, hi: nat)
    requires IsRun(p, states, steps) && lo <= hi <= |steps| && Has(states, lo, id)
    requires forall k: nat :: lo <= k < hi ==> !Claims(steps[k], id)
    requires forall k: nat :: lo <= k < hi && Has(states, k, id) && Has(states, k + 1, id) ==>
               Row(states, k + 1, id) == Row(states, k, id) || Claims(steps[k], id)
    ensures forall k: nat :: lo <= k <= hi ==> Has(states, k, id) && Row(states, k, id) == Row(states, lo, id)
  {
    if lo < hi {
      UnclaimedRowWaits(p, states, steps, id, lo, hi - 1);
      RowsPersist(p, states, steps, lo, hi - 1, id);
      RowsPersist(p, states, steps, lo, hi, id);
      assert !Claims(steps[hi - 1], id);
    }
  }

  // -- Tenant isolation ------------------------------------------------------------

  function Own(rows: Table, tenant: nat): Table {
    map x | x in rows && rows[x].tenant == tenant :: rows[x]
  }

  /** New rows get new identifiers and a claim takes a row of its tenant, as in every enabled step. */
  predicate Addressed(rows: Table, step: Step) {
    && (step.Create? ==> step.id !in rows)
    && (step.Claim? && step.pick.Some? ==> Visible(rows, step.tenant, step.pick.value))
  }

  /** A tenant sees of a step exactly what the step does to that tenant's rows alone. */
  lemma StepProjects(p: Policy, rows: Table, step: Step, tenant: nat)
    requires Addressed(rows, step)
    ensures Own(Apply(p, rows, step), tenant) ==
            if step.tenant == tenant then Apply(p, Own(rows, tenant), step) else Own(rows, tenant)
  {
    var a := Own(Apply(p, rows, step), tenant);
    if step.tenant == tenant {
      var b := Apply(p, Own(rows, tenant), step);
      assert forall x :: x in a <==> x in b;
      assert forall x :: x in a ==> a[x] == b[x];
    } else {
      assert forall x :: x in a <==> x in Own(rows, tenant);
    }
  }

  /** What an operation answers depends on its own tenant's rows only. */
  lemma ResultProjects(p: Policy, rows: Table, step: Step)
    requires Addressed(rows, step)
    ensures Perform(p, rows, step).Ok? <==> Perform(p, Own(rows, step.tenant), step).Ok?
    ensures Perform(p, rows, step).Err? ==>
              Perform(p, rows, step).error == Perform(p, Own(rows, step.tenant), step).error
  {
  }

  lemma StepsOfTwoTenantsCommute(p: Policy, rows: Table, a: Step, b: Step)
    requires a.tenant != b.tenant && Addressed(rows, a) && Addressed(rows, b)
    requires !(a.Create? && b.Create? && a.id == b.id)
    ensures Apply(p, Apply(p, rows, a), b) == Apply(p, Apply(p, rows, b), a)
  {
    AddressedSurvives(p, rows, a, b);
    AddressedSurvives(p, rows, b, a);
    var ab, ba := Apply(p, Apply(p, rows, a), b), Apply(p, Apply(p, rows, b), a);
    forall t ensures Own(ab, t) == Own(ba, t) {
      StepProjects(p, rows, a, t);
      StepProjects(p, rows, b, t);
      StepProjects(p, Apply(p, rows, a), b, t);
      StepProjects(p, Apply(p, rows, b), a, t);
    }
    TablesEqualByTenant(ab, ba);
  }

  lemma AddressedSurvives(p: Policy, rows: Table, a: Step, b: Step)
    requires a.tenant != b.tenant && Addressed(rows, a) && Addressed(rows, b)
    requires !(a.Create? && b.Create? && a.id == b.id)
    ensures Addressed(Apply(p, rows, a), b)
  {
  }

  lemma TablesEqualByTenant(a: Table, b: Table)
    requires forall t :: Own(a, t) == Own(b, t)
    ensures a == b
  {
    TableWithin(a, b);
    TableWithin(b, a);
  }

  lemma TableWithin(a: Table, b: Table)
    requires forall t :: Own(a, t) == Own(b, t)
    ensures forall x :: x in a ==> x in b && a[x] == b[x]
  {
    forall x | x in a ensures x in b && a[x] == b[x] {
      assert x in Own(a, a[x].tenant) && Own(a, a[x].tenant) == Own(b, a[x].tenant);
    }
  }

  ghost function OwnSteps(steps: seq<Step>, tenant: nat, k: nat): seq<Step>
    requires k <= |steps|
  {
    if k == 0 then []
    else OwnSteps(steps, tenant, k - 1) + if steps[k - 1].tenant == tenant then [steps[k - 1]] else []
  }

  ghost function OwnStates(states: seq<Snapshot>, steps: seq<Step>, tenant: nat, k: nat): (r: seq<Snapshot>)
    requires k <= |steps| < |states|
    ensures |r| == |OwnSteps(steps, tenant, k)| + 1
  {
    if k == 0 then [Snapshot(states[0].clock, map[])]
    else
      OwnStates(states, steps, tenant, k - 1)
      + if steps[k - 1].tenant == tenant then [Snapshot(states[k].clock, Own(states[k].rows, tenant))] else []
  }

  lemma EligibleRowsProject(s: Snapshot, step: Step, clock: int)
    requires Enabled(s, step) && clock <= s.clock
    ensures Addressed(s.rows, step)
    ensures Enabled(Snapshot(clock, Own(s.rows, step.tenant)), step)
  {
  }

  /**
   Tenant projection: what one tenant sees of any interleaved run is itself a run, of that tenant's
   steps alone, and ends in that tenant's rows.
   */
  lemma {:induction false} TenantProjection(p: Policy, states: seq<Snapshot>, steps: seq<Step>, tenant: nat, k: nat)
    requires IsRun(p, states, steps) && k <= |steps|
    ensures var mine := OwnStates(states, steps, tenant, k);
            && IsRun(p, mine, OwnSteps(steps, tenant, k))
            && mine[|mine| - 1].rows == Own(states[k].rows, tenant)
            && mine[|mine| - 1].clock <= states[k].clock
  {
    var mine, work := OwnStates(states, steps, tenant, k), OwnSteps(steps, tenant, k);
    if k > 0 {
      TenantProjection(p, states, steps, tenant, k - 1);
      assert StepAt(p, states, steps, k - 1);
      var mine', work' := OwnStates(states, steps, tenant, k - 1), OwnSteps(steps, tenant, k - 1);
      var s, step := states[k - 1], steps[k - 1];
      EligibleRowsProject(s, step, mine'[|work'|].clock);
      StepProjects(p, s.rows, step, tenant);
      if step.tenant == tenant {
        forall m: nat | m < |work| ensures StepAt(p, mine, work, m) {
          if m < |work'| {
            assert StepAt(p, mine', work', m);
          } else {
            assert Next(p, mine[m], work[m], mine[m + 1]);
          }
        }
      } else {
        assert mine == mine' && work == work';
      }
    } else {
      assert Own(states[0].rows, tenant) == map[];
    }
  }
}
