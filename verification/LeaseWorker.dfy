/**
 The polling worker. A tick drains one tenant: claim, work, outcome, until nothing is due. A poll drains
 many tenants at the same time, its claims and outcomes interleaved with one another and with the steps
 of other processes in any order; each tenant's part of it is shown to be a tick, and to be the tick a
 worker would make that serves this tenant alone.
 */
module LeaseWorker {
  import opened Wrappers
  import opened RetryPolicy
  import opened LeaseProtocol
  import opened LeaseFairness
  import opened LeaseTable

  // -- One tick of one tenant ----------------------------------------------------------------

  /** The steps of others before an execution, and what shapes the execution itself. */
  datatype Slot = Slot(lead: seq<Step>, c: Circumstances)

  datatype Turn = Turn(before: Table, result: Execution, work: seq<Step>, after: Table)

  ghost predicate IsTurn(p: Policy, tenant: nat, c: Circumstances, turn: Turn) {
    Executes(p, turn.before, tenant, c, turn.result, turn.work, turn.after)
  }

  /** The table that the turns before the `k`-th left. */
  function TableAt(start: Table, log: seq<Turn>, k: nat): Table
    requires k <= |log|
  {
    if k == 0 then start else log[k - 1].after
  }

  function LastTable(start: Table, log: seq<Turn>): Table {
    TableAt(start, log, |log|)
  }

  /** The turn's claim comes after the turns before it and the steps of others since. */
  ghost predicate TurnAt(p: Policy, start: Table, tenant: nat, slots: seq<Slot>, log: seq<Turn>, k: nat) {
    && k < |log| && k < |slots|
    && log[k].before == After(p, TableAt(start, log, k), slots[k].lead)
    && IsTurn(p, tenant, slots[k].c, log[k])
  }

  /** Executions one after the other, with steps of others before each claim. */
  ghost predicate Turns(p: Policy, start: Table, tenant: nat, slots: seq<Slot>, log: seq<Turn>) {
    |log| <= |slots| && forall k: nat :: k < |log| ==> TurnAt(p, start, tenant, slots, log, k)
  }

  lemma SameTurn(p: Policy, start: Table, tenant: nat, slots: seq<Slot>, log: seq<Turn>, slots': seq<Slot>, log': seq<Turn>, k: nat)
    requires TurnAt(p, start, tenant, slots, log, k) && k < |log'| && k < |slots'|
    requires slots'[k] == slots[k] && log'[k] == log[k] && TableAt(start, log', k) == TableAt(start, log, k)
    ensures TurnAt(p, start, tenant, slots', log', k)
  {
  }

  lemma TurnsPrefix(p: Policy, start: Table, tenant: nat, slots: seq<Slot>, log: seq<Turn>, n: nat)
    requires Turns(p, start, tenant, slots, log) && n <= |log|
    ensures Turns(p, start, tenant, slots, log[..n])
  {
    forall k: nat | k < n ensures TurnAt(p, start, tenant, slots, log[..n], k) {
      SameTurn(p, start, tenant, slots, log, slots, log[..n], k);
    }
  }

  lemma AddTurn(p: Policy, start: Table, tenant: nat, slots: seq<Slot>, log: seq<Turn>, slot: Slot, turn: Turn)
    requires |slots| == |log| && Turns(p, start, tenant, slots, log)
    requires turn.before == After(p, LastTable(start, log), slot.lead) && IsTurn(p, tenant, slot.c, turn)
    ensures Turns(p, start, tenant, slots + [slot], log + [turn])
  {
    var slots', log' := slots + [slot], log + [turn];
    forall k: nat | k < |log'| ensures TurnAt(p, start, tenant, slots', log', k) {
      if k < |log| {
        SameTurn(p, start, tenant, slots, log, slots', log', k);
      } else {
        assert TableAt(start, log', k) == LastTable(start, log);
      }
    }
  }

  /** All steps of the tick's stretch of time, those of others included. */
  function TickSteps(slots: seq<Slot>, log: seq<Turn>): seq<Step>
    requires |log| <= |slots|
  {
    if log == [] then []
    else TickSteps(slots, log[..|log| - 1]) + (slots[|log| - 1].lead + log[|log| - 1].work)
  }

  lemma {:induction false} StepsOfPrefix(slots: seq<Slot>, log: seq<Turn>, slot: Slot)
    requires |log| <= |slots|
    ensures TickSteps(slots + [slot], log) == TickSteps(slots, log)
  {
    if log == [] {
      assert TickSteps(slots, log) == [];
    } else {
      StepsOfPrefix(slots, log[..|log| - 1], slot);
    }
  }

  lemma StepsSnoc(slots: seq<Slot>, log: seq<Turn>, slot: Slot, turn: Turn)
    requires |slots| == |log|
    ensures TickSteps(slots + [slot], log + [turn]) == TickSteps(slots, log) + (slot.lead + turn.work)
  {
    StepsOfPrefix(slots, log, slot);
    assert (log + [turn])[..|log|] == log;
  }

  lemma TurnMoves(p: Policy, start: Table, tenant: nat, slots: seq<Slot>, log: seq<Turn>, k: nat)
    requires TurnAt(p, start, tenant, slots, log, k)
    ensures log[k].after == After(p, TableAt(start, log, k), slots[k].lead + log[k].work)
  {
    AfterConcat(p, TableAt(start, log, k), slots[k].lead, log[k].work);
  }

  lemma {:induction false} TurnsAreSteps(p: Policy, start: Table, tenant: nat, slots: seq<Slot>, log: seq<Turn>)
    requires Turns(p, start, tenant, slots, log)
    ensures LastTable(start, log) == After(p, start, TickSteps(slots, log))
  {
    if log != [] {
      var n := |log| - 1;
      TurnsPrefix(p, start, tenant, slots, log, n);
      TurnsAreSteps(p, start, tenant, slots, log[..n]);
      assert TurnAt(p, start, tenant, slots, log, n);
      TurnMoves(p, start, tenant, slots, log, n);
      AfterConcat(p, start, TickSteps(slots, log[..n]), slots[n].lead + log[n].work);
      assert TableAt(start, log, n) == LastTable(start, log[..n]);
    }
  }

  lemma NextTurn(p: Policy, start: Table, tenant: nat, slots: seq<Slot>, log: seq<Turn>, turn: Turn)
    requires Turns(p, start, tenant, slots, log) && |log| < |slots|
    requires turn.before == After(p, LastTable(start, log), slots[|log|].lead) && IsTurn(p, tenant, slots[|log|].c, turn)
    ensures Turns(p, start, tenant, slots, log + [turn])
  {
    var log' := log + [turn];
    forall k: nat | k < |log'| ensures TurnAt(p, start, tenant, slots, log', k) {
      if k < |log| {
        SameTurn(p, start, tenant, slots, log, slots, log', k);
      } else {
        assert TableAt(start, log', k) == LastTable(start, log);
      }
    }
  }

  lemma OneStepMore(p: Policy, start: Table, run: seq<Step>, step: Step)
    ensures After(p, start, run + [step]) == Apply(p, After(p, start, run), step)
    ensures AllAddressed(p, start, run + [step]) <==> AllAddressed(p, start, run) && Addressed(After(p, start, run), step)
  {
    assert (run + [step])[..|run|] == run;
  }

  /** `executed` turns went through; then the limit was reached, nothing was due, or an error ended the tick. */
  ghost predicate Ends(log: seq<Turn>, limit: nat, executed: nat, failed: bool) {
    && executed <= |log| <= limit
    && (forall i :: 0 <= i < executed ==> log[i].result.Executed?)
    && (|log| == executed ==> executed == limit && !failed)
    && (|log| > executed ==>
          |log| == executed + 1 && !log[executed].result.Executed? && (failed <==> log[executed].result.Raised?))
  }

  ghost predicate IsTick(p: Policy, start: Table, tenant: nat, limit: nat, slots: seq<Slot>,
                         log: seq<Turn>, executed: nat, failed: bool)
  {
    Turns(p, start, tenant, slots, log) && Ends(log, limit, executed, failed)
  }

  /** A tick that stopped early without an error found nothing due. */
  lemma StoppedEarlyIdle(p: Policy, start: Table, tenant: nat, limit: nat, slots: seq<Slot>,
                         log: seq<Turn>, executed: nat, failed: bool)
    requires IsTick(p, start, tenant, limit, slots, log, executed, failed) && !failed && executed < limit
    ensures |log| == executed + 1
    ensures PickOk(LastTable(start, log), tenant, slots[executed].c.now, slots[executed].c.locked, None)
  {
    assert TurnAt(p, start, tenant, slots, log, executed);
  }

  /** The accepted executions of a tick. */
  ghost function ExecutedTurns(log: seq<Turn>): set<int> {
    set k | 0 <= k < |log| && log[k].result.Executed?
  }

  /** Some execution of the tick raised an error. */
  ghost predicate HasRaised(log: seq<Turn>) {
    exists k :: 0 <= k < |log| && log[k].result.Raised?
  }

  lemma {:induction false} AllExecutedSize(log: seq<Turn>)
    requires forall k :: 0 <= k < |log| ==> log[k].result.Executed?
    ensures |ExecutedTurns(log)| == |log|
  {
    if log == [] {
      assert ExecutedTurns(log) == {};
    } else {
      var n := |log| - 1;
      AllExecutedSize(log[..n]);
      assert ExecutedTurns(log) == ExecutedTurns(log[..n]) + {n};
    }
  }

  /** A tick counts its accepted executions, fails exactly if one raised, and goes on after accepted ones only. */
  lemma TickReports(log: seq<Turn>, limit: nat, executed: nat, failed: bool)
    requires Ends(log, limit, executed, failed)
    ensures executed == |ExecutedTurns(log)| && executed <= limit
    ensures failed <==> HasRaised(log)
    ensures forall k :: 0 <= k < |log| - 1 ==> log[k].result.Executed?
    ensures !failed && executed < limit ==> |log| == executed + 1 && log[executed].result.NothingDue?
  {
    TickCounts(log, executed);
    if failed {
      assert log[executed].result.Raised?;
    }
  }

  lemma TickCounts(log: seq<Turn>, executed: nat)
    requires executed <= |log| <= executed + 1
    requires forall k :: 0 <= k < executed ==> log[k].result.Executed?
    requires executed < |log| ==> !log[executed].result.Executed?
    ensures executed == |ExecutedTurns(log)|
  {
    AllExecutedSize(log[..executed]);
    assert ExecutedTurns(log) == ExecutedTurns(log[..executed]);
  }

  // -- Seen from the tenant alone --------------------------------------------------------------

  function OwnSlot(slot: Slot, tenant: nat): Slot {
    Slot(Only(slot.lead, tenant), OwnTick(slot.c, tenant))
  }

  function OwnSlots(slots: seq<Slot>, tenant: nat): seq<Slot> {
    seq(|slots|, i requires 0 <= i < |slots| => OwnSlot(slots[i], tenant))
  }

  function OwnTurn(turn: Turn, tenant: nat): Turn {
    Turn(Own(turn.before, tenant), turn.result, Only(turn.work, tenant), Own(turn.after, tenant))
  }

  function OwnLog(log: seq<Turn>, tenant: nat): seq<Turn> {
    seq(|log|, i requires 0 <= i < |log| => OwnTurn(log[i], tenant))
  }

  lemma TurnProjects(p: Policy, start: Table, tenant: nat, slots: seq<Slot>, log: seq<Turn>, k: nat)
    requires TurnAt(p, start, tenant, slots, log, k)
    requires AllAddressed(p, TableAt(start, log, k), slots[k].lead) && AllAddressed(p, log[k].before, log[k].work)
    ensures TurnAt(p, Own(start, tenant), tenant, OwnSlots(slots, tenant), OwnLog(log, tenant), k)
  {
    TenantSeesOwnSteps(p, TableAt(start, log, k), slots[k].lead, tenant);
    ExecutionProjects(p, log[k].before, tenant, slots[k].c, log[k].result, log[k].work, log[k].after);
    assert TableAt(Own(start, tenant), OwnLog(log, tenant), k) == Own(TableAt(start, log, k), tenant);
  }

  lemma {:induction false} TurnAddressed(p: Policy, start: Table, tenant: nat, slots: seq<Slot>, log: seq<Turn>, k: nat)
    requires Turns(p, start, tenant, slots, log) && k < |log|
    requires AllAddressed(p, start, TickSteps(slots, log))
    ensures AllAddressed(p, TableAt(start, log, k), slots[k].lead) && AllAddressed(p, log[k].before, log[k].work)
  {
    var n := |log| - 1;
    TurnsPrefix(p, start, tenant, slots, log, n);
    AddressedSplit(p, start, TickSteps(slots, log[..n]), slots[n].lead + log[n].work);
    if k < n {
      TurnAddressed(p, start, tenant, slots, log[..n], k);
      assert TableAt(start, log[..n], k) == TableAt(start, log, k);
    } else {
      TurnsAreSteps(p, start, tenant, slots, log[..n]);
      assert TableAt(start, log, n) == LastTable(start, log[..n]);
      assert TurnAt(p, start, tenant, slots, log, n);
      AddressedSplit(p, TableAt(start, log, n), slots[n].lead, log[n].work);
    }
  }

  lemma TurnsProject(p: Policy, start: Table, tenant: nat, slots: seq<Slot>, log: seq<Turn>)
    requires Turns(p, start, tenant, slots, log)
    requires AllAddressed(p, start, TickSteps(slots, log))
    ensures Turns(p, Own(start, tenant), tenant, OwnSlots(slots, tenant), OwnLog(log, tenant))
  {
    forall k: nat | k < |log|
      ensures TurnAt(p, Own(start, tenant), tenant, OwnSlots(slots, tenant), OwnLog(log, tenant), k)
    {
      TurnAddressed(p, start, tenant, slots, log, k);
      TurnProjects(p, start, tenant, slots, log, k);
    }
  }

  /** A tick, its count and its error are those of a tick on the tenant's rows alone, with the tenant's steps alone. */
  lemma TickProjects(p: Policy, start: Table, tenant: nat, limit: nat, slots: seq<Slot>,
                     log: seq<Turn>, executed: nat, failed: bool)
    requires IsTick(p, start, tenant, limit, slots, log, executed, failed)
    requires AllAddressed(p, start, TickSteps(slots, log))
    ensures IsTick(p, Own(start, tenant), tenant, limit, OwnSlots(slots, tenant), OwnLog(log, tenant), executed, failed)
  {
    TurnsProject(p, start, tenant, slots, log);
  }

  /** No step of the list is the tenant's. */
  ghost predicate Spares(steps: seq<Step>, tenant: nat) {
    forall step :: step in steps ==> step.tenant != tenant
  }

  /** Nobody but the worker acted for the tenant. */
  ghost predicate Undisturbed(slots: seq<Slot>, tenant: nat) {
    forall i :: 0 <= i < |slots| ==> Spares(slots[i].lead, tenant) && Spares(slots[i].c.between, tenant)
  }

  function Quiet(slot: Slot): Slot {
    Slot([], slot.c.(between := []))
  }

  function QuietSlots(slots: seq<Slot>): seq<Slot> {
    seq(|slots|, i requires 0 <= i < |slots| => Quiet(slots[i]))
  }

  /**
   A tick that nobody else disturbs for its tenant is, with its count and its error, the tick of a
   worker alone with the tenant's rows: whatever the steps of other tenants around it did.
   */
  lemma UndisturbedTickIsAlone(p: Policy, start: Table, tenant: nat, limit: nat, slots: seq<Slot>,
                               log: seq<Turn>, executed: nat, failed: bool)
    requires IsTick(p, start, tenant, limit, slots, log, executed, failed)
    requires AllAddressed(p, start, TickSteps(slots, log)) && Undisturbed(slots, tenant)
    ensures IsTick(p, Own(start, tenant), tenant, limit, QuietSlots(slots), OwnLog(log, tenant), executed, failed)
  {
    TickProjects(p, start, tenant, limit, slots, log, executed, failed);
    forall i | 0 <= i < |slots| ensures OwnSlot(slots[i], tenant) == Quiet(slots[i]) {
      OnlyEmpty(slots[i].lead, tenant);
      OnlyEmpty(slots[i].c.between, tenant);
    }
    assert OwnSlots(slots, tenant) == QuietSlots(slots);
  }

  /** The steps are possible ones, and each tenant's rows end where its own steps among them lead. */
  ghost predicate Isolates(p: Policy, before: Table, steps: seq<Step>, after: Table) {
    && AllAddressed(p, before, steps)
    && forall t :: Own(after, t) == After(p, Own(before, t), Only(steps, t))
  }

  lemma AddressedIsolates(p: Policy, before: Table, steps: seq<Step>)
    requires AllAddressed(p, before, steps)
    ensures Isolates(p, before, steps, After(p, before, steps))
  {
    forall t ensures Own(After(p, before, steps), t) == After(p, Own(before, t), Only(steps, t)) {
      TenantSeesOwnSteps(p, before, steps, t);
    }
  }

  // -- Workers at the same time ------------------------------------------------------------------

  /** What shapes one execution from outside, apart from the steps of others. The verdict may depend on the row claimed. */
  datatype Input = Input(now: int, locked: set<nat>, newId: nat, verdict: nat -> Verdict, later: int)

  /** Between two transactions a tenant's tick waits to claim, works on a row, or has stopped. */
  datatype Phase = Waiting | Working(id: nat, execution: nat) | Stopped(failed: bool)

  datatype Worker = Worker(tenant: nat, executed: nat, phase: Phase)

  /** Who takes the next transaction: one of the ticks, or another process. */
  datatype Move = Advance(worker: nat) | Other(step: Step)

  /** What one tick has been through: `seen` steps of the common run up to its last execution. */
  datatype Track = Track(seen: nat, claimAt: nat, slots: seq<Slot>, log: seq<Turn>)

  function CircumstancesOf(i: Input, id: nat, between: seq<Step>): Circumstances {
    Circumstances(i.now, i.locked, i.newId, between, i.verdict(id), i.later)
  }

  ghost predicate Shaped(c: Circumstances, i: Input, r: Execution) {
    && c.now == i.now && c.locked == i.locked && c.newId == i.newId && c.later == i.later
    && (!r.NothingDue? ==> c.verdict == i.verdict(r.id))
  }

  /** The executions of the tick so far, in the run so far. */
  ghost predicate Records(p: Policy, start: Table, run: seq<Step>, tenant: nat, limit: nat, inputs: seq<Input>, t: Track) {
    && limit <= |inputs|
    && t.seen <= |run| && |t.slots| == |t.log| <= limit
    && Turns(p, start, tenant, t.slots, t.log)
    && TickSteps(t.slots, t.log) == run[..t.seen]
    && forall k :: 0 <= k < |t.log| ==> Shaped(t.slots[k].c, inputs[k], t.log[k].result)
  }

  /** The tick so far, and where its worker stands. */
  ghost predicate Follows(p: Policy, start: Table, run: seq<Step>, w: Worker, limit: nat, inputs: seq<Input>, t: Track) {
    && Records(p, start, run, w.tenant, limit, inputs, t)
    && match w.phase
       case Waiting => |t.log| == w.executed && AllExecuted(t.log)
       case Working(id, execution) =>
         && |t.log| == w.executed < limit && AllExecuted(t.log)
         && t.seen <= t.claimAt < |run|
         && Holding(p, After(p, start, run[..t.claimAt]), w.tenant, inputs[w.executed], id, execution, run[t.claimAt])
       case Stopped(failed) => Ends(t.log, limit, w.executed, failed)
  }

  ghost predicate AllExecuted(log: seq<Turn>) {
    forall k :: 0 <= k < |log| ==> log[k].result.Executed?
  }

  /** The step claims the row for the worker, on this table. */
  ghost predicate Holding(p: Policy, at: Table, tenant: nat, i: Input, id: nat, execution: nat, claim: Step) {
    && PickOk(at, tenant, i.now, i.locked, Some(id))
    && execution == ClaimedJob(p, at[id], i.now, i.newId).executionId.value
    && claim == Claim(tenant, i.now, i.locked, Some(id), i.newId)
  }

  /** Steps taken by anybody leave what a tick has been through as it is. */
  lemma RunGrows(p: Policy, start: Table, run: seq<Step>, more: seq<Step>, w: Worker, limit: nat, inputs: seq<Input>, t: Track)
    requires Follows(p, start, run, w, limit, inputs, t)
    ensures Follows(p, start, run + more, w, limit, inputs, t)
  {
    assert (run + more)[..t.seen] == run[..t.seen];
    if w.phase.Working? {
      assert (run + more)[..t.claimAt] == run[..t.claimAt];
    }
  }

  /** A stretch of the run leads from where its first part ends to where it ends. */
  lemma Stretch(p: Policy, start: Table, run: seq<Step>, i: nat, j: nat)
    requires i <= j <= |run|
    ensures After(p, start, run[..j]) == After(p, After(p, start, run[..i]), run[i..j])
  {
    AfterConcat(p, start, run[..i], run[i..j]);
    assert run[..j] == run[..i] + run[i..j];
  }

  lemma Rest(p: Policy, start: Table, run: seq<Step>, i: nat)
    requires i <= |run|
    ensures After(p, start, run) == After(p, After(p, start, run[..i]), run[i..])
    ensures run == run[..i] + (run[i..] + [])
  {
    Stretch(p, start, run, i, |run|);
    assert run[..|run|] == run && run[i..|run|] == run[i..];
  }

  /** One more execution, which takes the run from where the tick had seen it to `run'`. */
  lemma RecordsOneMore(p: Policy, start: Table, run: seq<Step>, run': seq<Step>, tenant: nat, limit: nat,
                       inputs: seq<Input>, t: Track, slot: Slot, turn: Turn)
    requires Records(p, start, run, tenant, limit, inputs, t) && |t.log| < limit
    requires run' == run[..t.seen] + (slot.lead + turn.work)
    requires turn.before == After(p, After(p, start, run[..t.seen]), slot.lead)
    requires IsTurn(p, tenant, slot.c, turn) && Shaped(slot.c, inputs[|t.log|], turn.result)
    ensures Records(p, start, run', tenant, limit, inputs, Track(|run'|, 0, t.slots + [slot], t.log + [turn]))
  {
    TurnsAreSteps(p, start, tenant, t.slots, t.log);
    AddTurn(p, start, tenant, t.slots, t.log, slot, turn);
    StepsSnoc(t.slots, t.log, slot, turn);
    assert run'[..|run'|] == run';
    AllShapedOneMore(t.slots, t.log, inputs, slot, turn);
  }

  /** Every execution of the tick had its own input. */
  ghost predicate AllShaped(slots: seq<Slot>, log: seq<Turn>, inputs: seq<Input>) {
    && |log| <= |slots| && |log| <= |inputs|
    && forall k :: 0 <= k < |log| ==> Shaped(slots[k].c, inputs[k], log[k].result)
  }

  lemma AllShapedOneMore(slots: seq<Slot>, log: seq<Turn>, inputs: seq<Input>, slot: Slot, turn: Turn)
    requires AllShaped(slots, log, inputs) && |slots| == |log| < |inputs|
    requires Shaped(slot.c, inputs[|log|], turn.result)
    ensures AllShaped(slots + [slot], log + [turn], inputs)
  {
    forall k | 0 <= k < |log + [turn]| ensures Shaped((slots + [slot])[k].c, inputs[k], (log + [turn])[k].result) {
      if k < |log| {
        assert Shaped(slots[k].c, inputs[k], log[k].result);
      }
    }
  }

  function IdleTrack(run: seq<Step>, rows: Table, i: Input, t: Track): Track
    requires t.seen <= |run|
  {
    Track(|run|, 0, t.slots + [Slot(run[t.seen..], CircumstancesOf(i, 0, []))], t.log + [Turn(rows, NothingDue, [], rows)])
  }

  lemma IdleRecorded(p: Policy, start: Table, run: seq<Step>, tenant: nat, limit: nat, inputs: seq<Input>, t: Track)
    requires Records(p, start, run, tenant, limit, inputs, t) && |t.log| < limit
    requires PickOk(After(p, start, run), tenant, inputs[|t.log|].now, inputs[|t.log|].locked, None)
    ensures Records(p, start, run, tenant, limit, inputs, IdleTrack(run, After(p, start, run), inputs[|t.log|], t))
  {
    var rows, slot := After(p, start, run), Slot(run[t.seen..], CircumstancesOf(inputs[|t.log|], 0, []));
    Rest(p, start, run, t.seen);
    RecordsOneMore(p, start, run, run, tenant, limit, inputs, t, slot, Turn(rows, NothingDue, [], rows));
  }

  /** A claim that finds nothing ends the tick. */
  lemma IdleClaim(p: Policy, start: Table, run: seq<Step>, w: Worker, limit: nat, inputs: seq<Input>, t: Track)
    requires Follows(p, start, run, w, limit, inputs, t) && w.phase.Waiting? && w.executed < limit
    requires PickOk(After(p, start, run), w.tenant, inputs[w.executed].now, inputs[w.executed].locked, None)
    ensures Follows(p, start, run, w.(phase := Stopped(false)), limit, inputs,
                    IdleTrack(run, After(p, start, run), inputs[w.executed], t))
  {
    IdleRecorded(p, start, run, w.tenant, limit, inputs, t);
  }

  /** A claim puts the worker to work. */
  lemma Claimed(p: Policy, start: Table, run: seq<Step>, w: Worker, limit: nat, inputs: seq<Input>, t: Track, id: nat)
    requires Follows(p, start, run, w, limit, inputs, t) && w.phase.Waiting? && w.executed < limit
    requires PickOk(After(p, start, run), w.tenant, inputs[w.executed].now, inputs[w.executed].locked, Some(id))
    ensures var i := inputs[w.executed];
            var execution := ClaimedJob(p, After(p, start, run)[id], i.now, i.newId).executionId.value;
            Follows(p, start, run + [Claim(w.tenant, i.now, i.locked, Some(id), i.newId)],
                    w.(phase := Working(id, execution)), limit, inputs, t.(claimAt := |run|))
  {
    var claim := Claim(w.tenant, inputs[w.executed].now, inputs[w.executed].locked, Some(id), inputs[w.executed].newId);
    RunGrows(p, start, run, [claim], w, limit, inputs, t);
    assert (run + [claim])[..|run|] == run;
  }

  /** Where the worker stands after its outcome was accepted or refused. */
  function Reported(w: Worker, r: Execution): Worker {
    if r.Executed? then w.(executed := w.executed + 1, phase := Waiting) else w.(phase := Stopped(true))
  }

  /** The execution that the run holds from position `at` to an outcome at its end. */
  function WorkedTurn(p: Policy, start: Table, run: seq<Step>, at: nat, r: Execution, outcome: Step): Turn
    requires at < |run|
  {
    Turn(After(p, start, run[..at]), r, [run[at]] + run[at + 1..] + [outcome], After(p, start, run + [outcome]))
  }

  function WorkedTrack(p: Policy, start: Table, run: seq<Step>, i: Input, id: nat, r: Execution, outcome: Step, t: Track): Track
    requires t.seen <= t.claimAt < |run|
  {
    Track(|run| + 1, 0, t.slots + [Slot(run[t.seen..t.claimAt], CircumstancesOf(i, id, run[t.claimAt + 1..]))],
          t.log + [WorkedTurn(p, start, run, t.claimAt, r, outcome)])
  }

  lemma RunHoldsSteps(p: Policy, start: Table, run: seq<Step>, at: nat, outcome: Step)
    requires at < |run|
    ensures var before := After(p, start, run[..at]);
            && After(p, start, run) == After(p, Apply(p, before, run[at]), run[at + 1..])
            && After(p, start, run + [outcome]) == After(p, before, [run[at]] + run[at + 1..] + [outcome])
  {
    var before := After(p, start, run[..at]);
    assert run[..at + 1] == run[..at] + [run[at]] && (run[..at + 1])[..at] == run[..at];
    assert After(p, start, run[..at + 1]) == Apply(p, before, run[at]);
    Stretch(p, start, run, at + 1, |run|);
    assert run[..|run|] == run && run[at + 1..|run|] == run[at + 1..];
    ThreePhases(p, before, run[at], run[at + 1..], outcome);
    assert (run + [outcome])[..|run|] == run;
  }

  /** From claim to outcome the run holds exactly one execution, with the steps of everybody else inside it. */
  lemma RunHoldsExecution(p: Policy, start: Table, run: seq<Step>, tenant: nat, i: Input, id: nat, execution: nat, at: nat)
    requires at < |run| && Holding(p, After(p, start, run[..at]), tenant, i, id, execution, run[at])
    ensures var before, c := After(p, start, run[..at]), CircumstancesOf(i, id, run[at + 1..]);
            && execution == Identity(p, before, c, id)
            && BeforeOutcome(p, before, tenant, c, id) == After(p, start, run)
            && IsTurn(p, tenant, c, WorkedTurn(p, start, run, at, ResultOf(p, before, tenant, c, id),
                                               OutcomeStep(tenant, id, execution, c)))
  {
    var c := CircumstancesOf(i, id, run[at + 1..]);
    assert run[at] == ClaimStep(tenant, c, id);
    RunHoldsSteps(p, start, run, at, OutcomeStep(tenant, id, execution, c));
  }

  lemma Cut(run: seq<Step>, i: nat, j: nat, last: Step)
    requires i <= j < |run|
    ensures run + [last] == run[..i] + (run[i..j] + ([run[j]] + run[j + 1..] + [last]))
  {
  }

  lemma WorkRecorded(p: Policy, start: Table, run: seq<Step>, tenant: nat, limit: nat, inputs: seq<Input>, t: Track, id: nat, execution: nat)
    requires Records(p, start, run, tenant, limit, inputs, t) && |t.log| < limit && t.seen <= t.claimAt < |run|
    requires Holding(p, After(p, start, run[..t.claimAt]), tenant, inputs[|t.log|], id, execution, run[t.claimAt])
    ensures var i := inputs[|t.log|];
            var before, c := After(p, start, run[..t.claimAt]), CircumstancesOf(i, id, run[t.claimAt + 1..]);
            var outcome := OutcomeStep(tenant, id, execution, c);
            Records(p, start, run + [outcome], tenant, limit, inputs,
                    WorkedTrack(p, start, run, i, id, ResultOf(p, before, tenant, c, id), outcome, t))
  {
    var i := inputs[|t.log|];
    var before, c := After(p, start, run[..t.claimAt]), CircumstancesOf(i, id, run[t.claimAt + 1..]);
    var outcome := OutcomeStep(tenant, id, execution, c);
    var turn := WorkedTurn(p, start, run, t.claimAt, ResultOf(p, before, tenant, c, id), outcome);
    RunHoldsExecution(p, start, run, tenant, i, id, execution, t.claimAt);
    Stretch(p, start, run, t.seen, t.claimAt);
    Cut(run, t.seen, t.claimAt, outcome);
    RecordsOneMore(p, start, run, run + [outcome], tenant, limit, inputs, t, Slot(run[t.seen..t.claimAt], c), turn);
  }

  lemma ReportedFollows(p: Policy, start: Table, run: seq<Step>, w: Worker, limit: nat, inputs: seq<Input>, t: Track, earlier: seq<Turn>, last: Turn)
    requires Records(p, start, run, w.tenant, limit, inputs, t) && t.log == earlier + [last]
    requires |earlier| == w.executed < limit && AllExecuted(earlier) && !last.result.NothingDue?
    ensures Follows(p, start, run, Reported(w, last.result), limit, inputs, t)
  {
  }

  lemma HeldInRun(p: Policy, start: Table, run: seq<Step>, tenant: nat, i: Input, id: nat, execution: nat, at: nat)
    requires at < |run| && Holding(p, After(p, start, run[..at]), tenant, i, id, execution, run[at])
    ensures var before, c := After(p, start, run[..at]), CircumstancesOf(i, id, run[at + 1..]);
            && id in before
            && execution == Identity(p, before, c, id)
            && BeforeOutcome(p, before, tenant, c, id) == After(p, start, run)
  {
    RunHoldsExecution(p, start, run, tenant, i, id, execution, at);
  }

  /** The outcome the worker reports next, with the steps of others since its claim. */
  ghost function NextOutcome(run: seq<Step>, w: Worker, inputs: seq<Input>, t: Track): Step
    requires w.phase.Working? && w.executed < |inputs| && t.claimAt < |run|
  {
    OutcomeStep(w.tenant, w.phase.id, w.phase.execution, CircumstancesOf(inputs[w.executed], w.phase.id, run[t.claimAt + 1..]))
  }

  /** What the table answers to the worker's outcome now. */
  ghost function AnswerTo(p: Policy, rows: Table, i: Input, id: nat, outcome: Step): Execution {
    if i.verdict(id).Escape? then Raised(id, None)
    else
      match Perform(p, rows, outcome)
      case Ok(_) => Executed(id)
      case Err(e) => Raised(id, Some(e))
  }

  lemma AnswerIsResult(p: Policy, start: Table, run: seq<Step>, tenant: nat, i: Input, id: nat, execution: nat, at: nat)
    requires at < |run| && Holding(p, After(p, start, run[..at]), tenant, i, id, execution, run[at])
    ensures var before, c := After(p, start, run[..at]), CircumstancesOf(i, id, run[at + 1..]);
            && id in before
            && ResultOf(p, before, tenant, c, id) == AnswerTo(p, After(p, start, run), i, id, OutcomeStep(tenant, id, execution, c))
  {
    HeldInRun(p, start, run, tenant, i, id, execution, at);
  }

  lemma WorkAnswered(p: Policy, start: Table, run: seq<Step>, tenant: nat, limit: nat, inputs: seq<Input>, t: Track,
                     id: nat, execution: nat, r: Execution)
    requires Records(p, start, run, tenant, limit, inputs, t) && |t.log| < limit && t.seen <= t.claimAt < |run|
    requires Holding(p, After(p, start, run[..t.claimAt]), tenant, inputs[|t.log|], id, execution, run[t.claimAt])
    requires var outcome := OutcomeStep(tenant, id, execution, CircumstancesOf(inputs[|t.log|], id, run[t.claimAt + 1..]));
             r == AnswerTo(p, After(p, start, run), inputs[|t.log|], id, outcome)
    ensures var outcome := OutcomeStep(tenant, id, execution, CircumstancesOf(inputs[|t.log|], id, run[t.claimAt + 1..]));
            Records(p, start, run + [outcome], tenant, limit, inputs, WorkedTrack(p, start, run, inputs[|t.log|], id, r, outcome, t))
  {
    AnswerIsResult(p, start, run, tenant, inputs[|t.log|], id, execution, t.claimAt);
    WorkRecorded(p, start, run, tenant, limit, inputs, t, id, execution);
  }

  /** The outcome of the worker's row: the execution is complete, and the tick goes on or ends with an error. */
  lemma OutcomeRecorded(p: Policy, start: Table, run: seq<Step>, w: Worker, limit: nat, inputs: seq<Input>, t: Track, r: Execution)
    requires Follows(p, start, run, w, limit, inputs, t) && w.phase.Working?
    requires r == AnswerTo(p, After(p, start, run), inputs[w.executed], w.phase.id, NextOutcome(run, w, inputs, t))
    ensures Follows(p, start, run + [NextOutcome(run, w, inputs, t)], Reported(w, r), limit, inputs,
                    WorkedTrack(p, start, run, inputs[w.executed], w.phase.id, r, NextOutcome(run, w, inputs, t), t))
  {
    var id, i, outcome := w.phase.id, inputs[w.executed], NextOutcome(run, w, inputs, t);
    WorkAnswered(p, start, run, w.tenant, limit, inputs, t, id, w.phase.execution, r);
    var t' := WorkedTrack(p, start, run, i, id, r, outcome, t);
    ReportedFollows(p, start, run + [outcome], w, limit, inputs, t', t.log, t'.log[|t.log|]);
  }

  // -- A poll ------------------------------------------------------------------------------------------

  /** Nobody else acts for the tenant: no other tick of the poll, and no other process. */
  predicate Private(tenants: seq<nat>, schedule: seq<Move>, i: nat)
    requires i < |tenants|
  {
    && (forall j :: 0 <= j < |tenants| && j != i ==> tenants[j] != tenants[i])
    && (forall k :: 0 <= k < |schedule| && schedule[k].Other? ==> schedule[k].step.tenant != tenants[i])
  }

  /** Since its last execution or claim, too, nobody acted for the tick's tenant but the tick. */
  ghost predicate Unshared(run: seq<Step>, w: Worker, t: Track) {
    && Undisturbed(t.slots, w.tenant)
    && if w.phase.Working? then
         t.seen <= t.claimAt < |run| && Spares(run[t.seen..t.claimAt], w.tenant) && Spares(run[t.claimAt + 1..], w.tenant)
       else t.seen <= |run| && Spares(run[t.seen..], w.tenant)
  }

  lemma UnsharedGrows(run: seq<Step>, more: seq<Step>, w: Worker, t: Track)
    requires Unshared(run, w, t) && Spares(more, w.tenant)
    ensures Unshared(run + more, w, t)
  {
    if w.phase.Working? {
      assert (run + more)[t.seen..t.claimAt] == run[t.seen..t.claimAt];
      assert (run + more)[t.claimAt + 1..] == run[t.claimAt + 1..] + more;
    } else {
      assert (run + more)[t.seen..] == run[t.seen..] + more;
    }
  }

  /** How much a tick can still do. */
  function Remaining(w: Worker, limit: nat): int {
    match w.phase
    case Waiting => 2 * (limit - w.executed) + 2
    case Working(_, _) => 2 * (limit - w.executed) + 1
    case Stopped(_) => 0
  }

  /** One transaction of the tick, or the end of it, extends the run by `more`. */
  ghost predicate Moved(p: Policy, start: Table, run: seq<Step>, w: Worker, limit: nat, inputs: seq<Input>, t: Track,
                        w': Worker, more: seq<Step>, t': Track)
  {
    && w'.tenant == w.tenant && Follows(p, start, run + more, w', limit, inputs, t')
    && |more| <= 1
    && (more != [] ==> more[0].tenant == w.tenant && !more[0].Create? && Obeys(After(p, start, run), more[0]))
    && (Unshared(run, w, t) ==> Unshared(run + more, w', t'))
    && (AllAddressed(p, start, run) ==> AllAddressed(p, start, run + more))
    && (if w.phase.Stopped? then w' == w else 0 <= Remaining(w', limit) < Remaining(w, limit))
  }

  lemma StandsStill(p: Policy, start: Table, run: seq<Step>, w: Worker, limit: nat, inputs: seq<Input>, t: Track)
    requires Follows(p, start, run, w, limit, inputs, t)
    ensures w.phase.Stopped? ==> Moved(p, start, run, w, limit, inputs, t, w, [], t)
    ensures w.phase.Waiting? && w.executed == limit ==>
              Moved(p, start, run, w, limit, inputs, t, w.(phase := Stopped(false)), [], t)
  {
    assert run + [] == run;
  }

  lemma IdleMoves(p: Policy, start: Table, run: seq<Step>, w: Worker, limit: nat, inputs: seq<Input>, t: Track)
    requires Follows(p, start, run, w, limit, inputs, t) && w.phase.Waiting? && w.executed < limit
    requires PickOk(After(p, start, run), w.tenant, inputs[w.executed].now, inputs[w.executed].locked, None)
    ensures Moved(p, start, run, w, limit, inputs, t, w.(phase := Stopped(false)), [],
                  IdleTrack(run, After(p, start, run), inputs[w.executed], t))
  {
    IdleClaim(p, start, run, w, limit, inputs, t);
    assert run + [] == run && run[|run|..] == [];
  }

  lemma ClaimMoves(p: Policy, start: Table, run: seq<Step>, w: Worker, limit: nat, inputs: seq<Input>, t: Track, id: nat)
    requires Follows(p, start, run, w, limit, inputs, t) && w.phase.Waiting? && w.executed < limit
    requires PickOk(After(p, start, run), w.tenant, inputs[w.executed].now, inputs[w.executed].locked, Some(id))
    ensures var i := inputs[w.executed];
            var execution := ClaimedJob(p, After(p, start, run)[id], i.now, i.newId).executionId.value;
            Moved(p, start, run, w, limit, inputs, t, w.(phase := Working(id, execution)),
                  [Claim(w.tenant, i.now, i.locked, Some(id), i.newId)], t.(claimAt := |run|))
  {
    var claim := Claim(w.tenant, inputs[w.executed].now, inputs[w.executed].locked, Some(id), inputs[w.executed].newId);
    Claimed(p, start, run, w, limit, inputs, t, id);
    OneStepMore(p, start, run, claim);
    assert (run + [claim])[t.seen..|run|] == run[t.seen..] && (run + [claim])[|run| + 1..] == [];
  }

  lemma UnsharedWork(p: Policy, start: Table, run: seq<Step>, w: Worker, t: Track, i: Input, r: Execution, outcome: Step)
    requires w.phase.Working? && Unshared(run, w, t) && !r.NothingDue?
    ensures Unshared(run + [outcome], Reported(w, r), WorkedTrack(p, start, run, i, w.phase.id, r, outcome, t))
  {
    assert (run + [outcome])[|run| + 1..] == [];
  }

  lemma OutcomeIsAddressed(p: Policy, start: Table, run: seq<Step>, tenant: nat, id: nat, execution: nat, c: Circumstances)
    ensures AllAddressed(p, start, run) ==> AllAddressed(p, start, run + [OutcomeStep(tenant, id, execution, c)])
  {
    OneStepMore(p, start, run, OutcomeStep(tenant, id, execution, c));
  }

  lemma OutcomeKeepsUnshared(p: Policy, start: Table, run: seq<Step>, w: Worker, t: Track, i: Input, r: Execution, outcome: Step)
    requires w.phase.Working? && !r.NothingDue? && t.seen <= t.claimAt < |run|
    ensures Unshared(run, w, t) ==> Unshared(run + [outcome], Reported(w, r), WorkedTrack(p, start, run, i, w.phase.id, r, outcome, t))
  {
    if Unshared(run, w, t) {
      UnsharedWork(p, start, run, w, t, i, r, outcome);
    }
  }

  lemma OutcomeMoves(p: Policy, start: Table, run: seq<Step>, w: Worker, limit: nat, inputs: seq<Input>, t: Track, r: Execution)
    requires Follows(p, start, run, w, limit, inputs, t) && w.phase.Working?
    requires r == AnswerTo(p, After(p, start, run), inputs[w.executed], w.phase.id, NextOutcome(run, w, inputs, t))
    ensures Moved(p, start, run, w, limit, inputs, t, Reported(w, r), [NextOutcome(run, w, inputs, t)],
                  WorkedTrack(p, start, run, inputs[w.executed], w.phase.id, r, NextOutcome(run, w, inputs, t), t))
  {
    var id, i, outcome := w.phase.id, inputs[w.executed], NextOutcome(run, w, inputs, t);
    OutcomeRecorded(p, start, run, w, limit, inputs, t, r);
    OutcomeIsAddressed(p, start, run, w.tenant, id, w.phase.execution, CircumstancesOf(i, id, run[t.claimAt + 1..]));
    OutcomeKeepsUnshared(p, start, run, w, t, i, r, outcome);
    MovedByOutcome(p, start, run, w, limit, inputs, t, r, outcome, WorkedTrack(p, start, run, i, id, r, outcome, t));
  }

  lemma MovedByOutcome(p: Policy, start: Table, run: seq<Step>, w: Worker, limit: nat, inputs: seq<Input>, t: Track,
                       r: Execution, outcome: Step, t': Track)
    requires Follows(p, start, run, w, limit, inputs, t) && w.phase.Working?
    requires outcome.tenant == w.tenant && !outcome.Create? && !outcome.Claim?
    requires Follows(p, start, run + [outcome], Reported(w, r), limit, inputs, t')
    requires Unshared(run, w, t) ==> Unshared(run + [outcome], Reported(w, r), t')
    requires AllAddressed(p, start, run) ==> AllAddressed(p, start, run + [outcome])
    ensures Moved(p, start, run, w, limit, inputs, t, Reported(w, r), [outcome], t')
  {
  }

  /** The step is one of the schedule, or one that a tick of the poll took as the protocol wants it. */
  ghost predicate Accountable(p: Policy, start: Table, run: seq<Step>, tenants: seq<nat>, schedule: seq<Move>, k: nat) {
    k < |run| && (Other(run[k]) in schedule || (run[k].tenant in tenants && ObeysAt(p, start, run, k)))
  }

  lemma AccountGrows(p: Policy, start: Table, run: seq<Step>, step: Step, tenants: seq<nat>, schedule: seq<Move>)
    requires forall k: nat :: k < |run| ==> Accountable(p, start, run, tenants, schedule, k)
    requires Other(step) in schedule || (step.tenant in tenants && Obeys(After(p, start, run), step))
    ensures forall k: nat :: k < |run + [step]| ==> Accountable(p, start, run + [step], tenants, schedule, k)
  {
    forall k: nat | k < |run + [step]| ensures Accountable(p, start, run + [step], tenants, schedule, k) {
      assert (run + [step])[..k] == run[..k];
      assert k < |run| ==> Accountable(p, start, run, tenants, schedule, k);
      assert run[..|run|] == run;
    }
  }

  ghost predicate Polling(p: Policy, start: Table, run: seq<Step>, tenants: seq<nat>, limit: nat, inputs: seq<seq<Input>>,
                          schedule: seq<Move>, workers: seq<Worker>, tracks: seq<Track>)
  {
    && |workers| == |tracks| == |tenants| == |inputs|
    && (forall i :: 0 <= i < |tenants| ==> workers[i].tenant == tenants[i])
    && (forall i :: 0 <= i < |tenants| ==> Follows(p, start, run, workers[i], limit, inputs[i], tracks[i]))
    && (forall i :: 0 <= i < |tenants| && Private(tenants, schedule, i) ==> Unshared(run, workers[i], tracks[i]))
    && (forall k: nat :: k < |run| ==> Accountable(p, start, run, tenants, schedule, k))
  }

  /** Steps by another process go on around the ticks. */
  lemma OtherMoves(p: Policy, start: Table, run: seq<Step>, tenants: seq<nat>, limit: nat, inputs: seq<seq<Input>>,
                   schedule: seq<Move>, workers: seq<Worker>, tracks: seq<Track>, step: Step)
    requires Polling(p, start, run, tenants, limit, inputs, schedule, workers, tracks) && Other(step) in schedule
    ensures Polling(p, start, run + [step], tenants, limit, inputs, schedule, workers, tracks)
  {
    forall i | 0 <= i < |tenants| ensures Follows(p, start, run + [step], workers[i], limit, inputs[i], tracks[i]) {
      RunGrows(p, start, run, [step], workers[i], limit, inputs[i], tracks[i]);
    }
    forall i | 0 <= i < |tenants| && Private(tenants, schedule, i) ensures Unshared(run + [step], workers[i], tracks[i]) {
      UnsharedGrows(run, [step], workers[i], tracks[i]);
    }
    AccountGrows(p, start, run, step, tenants, schedule);
  }

  lemma AccountMoves(p: Policy, start: Table, run: seq<Step>, more: seq<Step>, tenants: seq<nat>, schedule: seq<Move>)
    requires forall k: nat :: k < |run| ==> Accountable(p, start, run, tenants, schedule, k)
    requires |more| <= 1 && (more != [] ==> more[0].tenant in tenants && Obeys(After(p, start, run), more[0]))
    ensures forall k: nat :: k < |run + more| ==> Accountable(p, start, run + more, tenants, schedule, k)
  {
    if more == [] {
      assert run + more == run;
    } else {
      assert more == [more[0]];
      AccountGrows(p, start, run, more[0], tenants, schedule);
    }
  }

  /** While one tick moves, the others have been through what they had been through. */
  lemma StillFollowed(p: Policy, start: Table, run: seq<Step>, more: seq<Step>, limit: nat, inputs: seq<seq<Input>>,
                      workers: seq<Worker>, tracks: seq<Track>, i: nat, w: Worker, t: Track)
    requires i < |workers| == |tracks| == |inputs|
    requires forall j :: 0 <= j < |workers| ==> Follows(p, start, run, workers[j], limit, inputs[j], tracks[j])
    requires Follows(p, start, run + more, w, limit, inputs[i], t)
    ensures forall j :: 0 <= j < |workers| ==>
              Follows(p, start, run + more, workers[i := w][j], limit, inputs[j], tracks[i := t][j])
  {
    forall j | 0 <= j < |workers|
      ensures Follows(p, start, run + more, workers[i := w][j], limit, inputs[j], tracks[i := t][j])
    {
      if j != i {
        RunGrows(p, start, run, more, workers[j], limit, inputs[j], tracks[j]);
      }
    }
  }

  /** A tick's steps are its tenant's, so a tenant that no other tick serves is not disturbed by them. */
  lemma StillUnshared(run: seq<Step>, more: seq<Step>, tenants: seq<nat>, schedule: seq<Move>,
                      workers: seq<Worker>, tracks: seq<Track>, i: nat, w: Worker, t: Track)
    requires i < |workers| == |tracks| == |tenants|
    requires forall j :: 0 <= j < |tenants| ==> workers[j].tenant == tenants[j]
    requires forall j :: 0 <= j < |tenants| && Private(tenants, schedule, j) ==> Unshared(run, workers[j], tracks[j])
    requires forall tenant :: tenant != tenants[i] ==> Spares(more, tenant)
    requires Unshared(run, workers[i], tracks[i]) ==> Unshared(run + more, w, t)
    ensures forall j :: 0 <= j < |tenants| && Private(tenants, schedule, j) ==>
              Unshared(run + more, workers[i := w][j], tracks[i := t][j])
  {
    forall j | 0 <= j < |tenants| && Private(tenants, schedule, j)
      ensures Unshared(run + more, workers[i := w][j], tracks[i := t][j])
    {
      if j != i {
        assert tenants[i] != tenants[j];
        UnsharedGrows(run, more, workers[j], tracks[j]);
      }
    }
  }

  lemma OthersFollow(p: Policy, start: Table, run: seq<Step>, more: seq<Step>, tenants: seq<nat>, limit: nat, inputs: seq<seq<Input>>,
                     schedule: seq<Move>, workers: seq<Worker>, tracks: seq<Track>, i: nat, w: Worker, t: Track)
    requires Polling(p, start, run, tenants, limit, inputs, schedule, workers, tracks) && i < |tenants|
    requires Moved(p, start, run, workers[i], limit, inputs[i], tracks[i], w, more, t)
    ensures forall j :: 0 <= j < |tenants| ==>
              Follows(p, start, run + more, workers[i := w][j], limit, inputs[j], tracks[i := t][j])
  {
    StillFollowed(p, start, run, more, limit, inputs, workers, tracks, i, w, t);
  }

  lemma OthersUnshared(p: Policy, start: Table, run: seq<Step>, more: seq<Step>, tenants: seq<nat>, limit: nat, inputs: seq<seq<Input>>,
                       schedule: seq<Move>, workers: seq<Worker>, tracks: seq<Track>, i: nat, w: Worker, t: Track)
    requires Polling(p, start, run, tenants, limit, inputs, schedule, workers, tracks) && i < |tenants|
    requires Moved(p, start, run, workers[i], limit, inputs[i], tracks[i], w, more, t)
    ensures forall j :: 0 <= j < |tenants| && Private(tenants, schedule, j) ==>
              Unshared(run + more, workers[i := w][j], tracks[i := t][j])
  {
    StillUnshared(run, more, tenants, schedule, workers, tracks, i, w, t);
  }

  /** One tick moves, by steps of its own tenant; the others stay where they are. */
  lemma OneMoves(p: Policy, start: Table, run: seq<Step>, more: seq<Step>, tenants: seq<nat>, limit: nat, inputs: seq<seq<Input>>,
                 schedule: seq<Move>, workers: seq<Worker>, tracks: seq<Track>, i: nat, w: Worker, t: Track)
    requires Polling(p, start, run, tenants, limit, inputs, schedule, workers, tracks) && i < |tenants|
    requires Moved(p, start, run, workers[i], limit, inputs[i], tracks[i], w, more, t)
    ensures Polling(p, start, run + more, tenants, limit, inputs, schedule, workers[i := w], tracks[i := t])
  {
    OthersFollow(p, start, run, more, tenants, limit, inputs, schedule, workers, tracks, i, w, t);
    OthersUnshared(p, start, run, more, tenants, limit, inputs, schedule, workers, tracks, i, w, t);
    AccountMoves(p, start, run, more, tenants, schedule);
  }

  /** The ticks so far, on the table as it is; `fit` tells that the steps so far were possible ones. */
  ghost predicate PollAt(p: Policy, start: Table, run: seq<Step>, tenants: seq<nat>, limit: nat, inputs: seq<seq<Input>>,
                         schedule: seq<Move>, workers: seq<Worker>, tracks: seq<Track>, rows: Table, fit: bool)
  {
    && Polling(p, start, run, tenants, limit, inputs, schedule, workers, tracks)
    && rows == After(p, start, run)
    && (fit ==> AllAddressed(p, start, run))
  }

  lemma MoveOne(p: Policy, start: Table, run: seq<Step>, more: seq<Step>, tenants: seq<nat>, limit: nat, inputs: seq<seq<Input>>,
                schedule: seq<Move>, workers: seq<Worker>, tracks: seq<Track>, i: nat, w: Worker, t: Track, rows: Table, fit: bool)
    requires i < |tenants| && rows == After(p, start, run + more)
    requires PollAt(p, start, run, tenants, limit, inputs, schedule, workers, tracks, After(p, start, run), fit)
    requires Moved(p, start, run, workers[i], limit, inputs[i], tracks[i], w, more, t)
    ensures PollAt(p, start, run + more, tenants, limit, inputs, schedule, workers[i := w], tracks[i := t], rows, fit)
  {
    OneMoves(p, start, run, more, tenants, limit, inputs, schedule, workers, tracks, i, w, t);
  }

  /** The schedule up to `k` creates a row under this identifier. */
  predicate Creates(schedule: seq<Move>, k: nat, id: nat)
    requires k <= |schedule|
  {
    exists m :: 0 <= m < k && schedule[m].Other? && schedule[m].step.Create? && schedule[m].step.id == id
  }

  predicate CreatesFor(schedule: seq<Move>, k: nat, tenant: nat, id: nat)
    requires k <= |schedule|
  {
    exists m :: 0 <= m < k && schedule[m].Other? && schedule[m].step.Create?
                && schedule[m].step.id == id && schedule[m].step.tenant == tenant
  }

  /** Other processes use new identifiers for new rows, and claim rows of their tenant that are there by then. */
  predicate Proper(rows: Table, schedule: seq<Move>) {
    forall k: nat :: k < |schedule| && schedule[k].Other? ==>
      && (schedule[k].step.Create? ==> schedule[k].step.id !in rows && !Creates(schedule, k, schedule[k].step.id))
      && (schedule[k].step.Claim? && schedule[k].step.pick.Some? ==>
            || Visible(rows, schedule[k].step.tenant, schedule[k].step.pick.value)
            || CreatesFor(schedule, k, schedule[k].step.tenant, schedule[k].step.pick.value))
  }

  /** Rows are those of the start and those the schedule created so far. */
  ghost predicate Accounts(start: Table, schedule: seq<Move>, k: nat, rows: Table)
    requires k <= |schedule|
  {
    && (forall x :: x in start ==> x in rows && rows[x].tenant == start[x].tenant)
    && (forall x :: x in rows ==> x in start || Creates(schedule, k, x))
    && (forall x, t :: CreatesFor(schedule, k, t, x) ==> Visible(rows, t, x))
  }

  lemma {:induction false} NoNewRows(p: Policy, rows: Table, steps: seq<Step>)
    requires forall step :: step in steps ==> !step.Create?
    ensures After(p, rows, steps).Keys == rows.Keys
    ensures forall x :: x in rows ==> After(p, rows, steps)[x].tenant == rows[x].tenant
  {
    if steps != [] {
      NoNewRows(p, rows, steps[..|steps| - 1]);
    }
  }

  lemma AccountsLater(start: Table, schedule: seq<Move>, k: nat, rows: Table, rows': Table)
    requires k < |schedule| && Accounts(start, schedule, k, rows)
    requires forall x :: x in rows ==> x in rows' && rows'[x].tenant == rows[x].tenant
    requires forall x :: x in rows' ==> x in rows || (schedule[k].Other? && schedule[k].step.Create? && x == schedule[k].step.id)
    requires schedule[k].Other? && schedule[k].step.Create? ==> Visible(rows', schedule[k].step.tenant, schedule[k].step.id)
    ensures Accounts(start, schedule, k + 1, rows')
  {
    forall x | x in rows' && x !in start ensures Creates(schedule, k + 1, x) {
      if x in rows {
        var m :| 0 <= m < k && schedule[m].Other? && schedule[m].step.Create? && schedule[m].step.id == x;
      }
    }
    forall x, t | CreatesFor(schedule, k + 1, t, x) ensures Visible(rows', t, x) {
      var m :| 0 <= m < k + 1 && schedule[m].Other? && schedule[m].step.Create?
               && schedule[m].step.id == x && schedule[m].step.tenant == t;
      if m < k {
        assert CreatesFor(schedule, k, t, x);
      }
    }
  }

  lemma ProperStep(p: Policy, start: Table, schedule: seq<Move>, k: nat, rows: Table)
    requires k < |schedule| && schedule[k].Other? && Proper(start, schedule) && Accounts(start, schedule, k, rows)
    ensures Addressed(rows, schedule[k].step)
    ensures Accounts(start, schedule, k + 1, Apply(p, rows, schedule[k].step))
  {
    AccountsLater(start, schedule, k, rows, Apply(p, rows, schedule[k].step));
  }

  lemma TickStep(p: Policy, start: Table, schedule: seq<Move>, k: nat, run: seq<Step>, more: seq<Step>)
    requires k < |schedule| && schedule[k].Advance? && Accounts(start, schedule, k, After(p, start, run))
    requires |more| <= 1 && (more != [] ==> !more[0].Create?)
    ensures Accounts(start, schedule, k + 1, After(p, start, run + more))
  {
    AfterConcat(p, start, run, more);
    assert forall step :: step in more ==> !step.Create?;
    NoNewRows(p, After(p, start, run), more);
    AccountsLater(start, schedule, k, After(p, start, run), After(p, start, run + more));
  }

  lemma PollBegins(p: Policy, start: Table, tenants: seq<nat>, limit: nat, inputs: seq<seq<Input>>,
                   schedule: seq<Move>, workers: seq<Worker>, tracks: seq<Track>)
    requires |inputs| == |tenants| && forall i :: 0 <= i < |inputs| ==> |inputs[i]| >= limit
    requires |workers| == |tracks| == |tenants|
    requires forall i :: 0 <= i < |tenants| ==> workers[i] == Worker(tenants[i], 0, Waiting) && tracks[i] == Track(0, 0, [], [])
    ensures PollAt(p, start, [], tenants, limit, inputs, schedule, workers, tracks, start, true)
  {
  }

  lemma OtherStep(p: Policy, start: Table, run: seq<Step>, tenants: seq<nat>, limit: nat, inputs: seq<seq<Input>>,
                  schedule: seq<Move>, workers: seq<Worker>, tracks: seq<Track>, rows: Table, fit: bool, step: Step)
    requires PollAt(p, start, run, tenants, limit, inputs, schedule, workers, tracks, rows, fit) && Other(step) in schedule
    ensures PollAt(p, start, run + [step], tenants, limit, inputs, schedule, workers, tracks, Apply(p, rows, step),
                   fit && Addressed(rows, step))
  {
    OtherMoves(p, start, run, tenants, limit, inputs, schedule, workers, tracks, step);
    OneStepMore(p, start, run, step);
  }

  ghost predicate AllStopped(workers: seq<Worker>) {
    forall i :: 0 <= i < |workers| ==> workers[i].phase.Stopped?
  }

  function TotalExecuted(workers: seq<Worker>): nat {
    if workers == [] then 0 else TotalExecuted(workers[..|workers| - 1]) + workers[|workers| - 1].executed
  }

  function Errored(workers: seq<Worker>): seq<nat> {
    if workers == [] then []
    else
      var last := workers[|workers| - 1];
      Errored(workers[..|workers| - 1]) + if last.phase == Stopped(true) then [last.tenant] else []
  }

  // -- The report of a poll -----------------------------------------------------------------------------

  ghost function FailedTicks(workers: seq<Worker>, n: nat): set<int>
    requires n <= |workers|
  {
    set i | 0 <= i < n && workers[i].phase == Stopped(true)
  }

  predicate FailedFor(w: Worker, tenant: nat) {
    w.tenant == tenant && w.phase == Stopped(true)
  }

  lemma ErroredStep(workers: seq<Worker>, n: nat)
    requires n < |workers|
    ensures Errored(workers[..n + 1]) ==
            Errored(workers[..n]) + if workers[n].phase == Stopped(true) then [workers[n].tenant] else []
  {
    assert workers[..n + 1][..n] == workers[..n];
  }

  lemma {:induction false} ErroredSize(workers: seq<Worker>, n: nat)
    requires n <= |workers|
    ensures |Errored(workers[..n])| == |FailedTicks(workers, n)|
  {
    if n == 0 {
      assert FailedTicks(workers, n) == {};
    } else {
      ErroredSize(workers, n - 1);
      ErroredStep(workers, n - 1);
      assert FailedTicks(workers, n) ==
             FailedTicks(workers, n - 1) + if workers[n - 1].phase == Stopped(true) then {n - 1} else {};
    }
  }

  lemma {:induction false} ErroredGrows(workers: seq<Worker>, m: nat, n: nat)
    requires m <= n <= |workers|
    ensures Errored(workers[..m]) <= Errored(workers[..n])
  {
    if m < n {
      ErroredGrows(workers, m, n - 1);
      ErroredStep(workers, n - 1);
    }
  }

  lemma {:induction false} ErroredMember(workers: seq<Worker>, n: nat, t: nat) returns (i: nat)
    requires n <= |workers| && t in Errored(workers[..n])
    ensures i < n && FailedFor(workers[i], t)
  {
    ErroredStep(workers, n - 1);
    if t in Errored(workers[..n - 1]) {
      i := ErroredMember(workers, n - 1, t);
    } else {
      i := n - 1;
    }
  }

  /** The failed tenants, one entry for each failed tick, in the order of the ticks. */
  lemma ErroredListsFailures(workers: seq<Worker>, i: nat)
    requires i < |workers| && workers[i].phase == Stopped(true)
    ensures |FailedTicks(workers, i)| < |Errored(workers)|
    ensures Errored(workers)[|FailedTicks(workers, i)|] == workers[i].tenant
  {
    ErroredSize(workers, i);
    ErroredStep(workers, i);
    ErroredGrows(workers, i + 1, |workers|);
    assert workers[..|workers|] == workers;
  }

  ghost function Pairs(i: int, turns: set<int>): set<(int, int)> {
    set k | k in turns :: (i, k)
  }

  lemma {:induction false} PairsSize(i: int, turns: set<int>)
    ensures |Pairs(i, turns)| == |turns|
  {
    if turns == {} {
      assert Pairs(i, turns) == {};
    } else {
      var k := AnyOf(turns);
      PairsSize(i, turns - {k});
      assert Pairs(i, turns) == Pairs(i, turns - {k}) + {(i, k)};
    }
  }

  /** All accepted executions of the first `n` ticks. */
  ghost function ExecutedPairs(tracks: seq<Track>, n: nat): set<(int, int)>
    requires n <= |tracks|
  {
    set i, k | 0 <= i < n && k in ExecutedTurns(tracks[i].log) :: (i, k)
  }

  ghost predicate CountsTurns(workers: seq<Worker>, tracks: seq<Track>) {
    |workers| == |tracks| && forall i :: 0 <= i < |workers| ==> workers[i].executed == |ExecutedTurns(tracks[i].log)|
  }

  lemma OneMoreTick(tracks: seq<Track>, n: nat)
    requires n < |tracks|
    ensures |ExecutedPairs(tracks, n + 1)| == |ExecutedPairs(tracks, n)| + |ExecutedTurns(tracks[n].log)|
  {
    var last := Pairs(n, ExecutedTurns(tracks[n].log));
    PairsSize(n, ExecutedTurns(tracks[n].log));
    assert ExecutedPairs(tracks, n + 1) == ExecutedPairs(tracks, n) + last;
    assert ExecutedPairs(tracks, n) !! last;
  }

  lemma TotalStep(workers: seq<Worker>, n: nat)
    requires n < |workers|
    ensures TotalExecuted(workers[..n + 1]) == TotalExecuted(workers[..n]) + workers[n].executed
  {
    assert workers[..n + 1][..n] == workers[..n];
  }

  lemma {:induction false} TotalCountsTurns(workers: seq<Worker>, tracks: seq<Track>, n: nat)
    requires CountsTurns(workers, tracks) && n <= |workers|
    ensures TotalExecuted(workers[..n]) == |ExecutedPairs(tracks, n)|
  {
    if n == 0 {
      assert ExecutedPairs(tracks, n) == {};
    } else {
      TotalCountsTurns(workers, tracks, n - 1);
      TotalStep(workers, n - 1);
      OneMoreTick(tracks, n - 1);
    }
  }

  ghost predicate TellsFailures(workers: seq<Worker>, tracks: seq<Track>, tenants: seq<nat>) {
    && |workers| == |tracks| == |tenants|
    && forall i :: 0 <= i < |workers| ==>
         workers[i].tenant == tenants[i] && (workers[i].phase == Stopped(true) <==> HasRaised(tracks[i].log))
  }

  lemma ReportNames(workers: seq<Worker>, tracks: seq<Track>, tenants: seq<nat>)
    requires TellsFailures(workers, tracks, tenants)
    ensures |Errored(workers)| == |set i | 0 <= i < |tracks| && HasRaised(tracks[i].log)|
    ensures forall i :: 0 <= i < |tracks| && HasRaised(tracks[i].log) ==>
              var earlier := |set m | 0 <= m < i && HasRaised(tracks[m].log)|;
              earlier < |Errored(workers)| && Errored(workers)[earlier] == tenants[i]
    ensures forall t :: t in Errored(workers) <==> exists i :: 0 <= i < |tracks| && tenants[i] == t && HasRaised(tracks[i].log)
  {
    assert workers[..|workers|] == workers;
    ErroredSize(workers, |workers|);
    assert FailedTicks(workers, |workers|) == set i | 0 <= i < |tracks| && HasRaised(tracks[i].log);
    forall i: nat | i < |tracks| && HasRaised(tracks[i].log)
      ensures var earlier := |set m | 0 <= m < i && HasRaised(tracks[m].log)|;
              earlier < |Errored(workers)| && Errored(workers)[earlier] == tenants[i]
    {
      ErroredListsFailures(workers, i);
      assert FailedTicks(workers, i) == set m | 0 <= m < i && HasRaised(tracks[m].log);
    }
    forall t | t in Errored(workers) ensures exists i :: 0 <= i < |tracks| && tenants[i] == t && HasRaised(tracks[i].log) {
      var i := ErroredMember(workers, |workers|, t);
    }
  }

  /**
   The report of a poll, read off the executions themselves: the total is the number of executions of
   all ticks that went through, and the failed tenants are those of the ticks with an execution that
   raised, in the order of the ticks.
   */
  lemma ReportIsExact(p: Policy, start: Table, run: seq<Step>, tenants: seq<nat>, limit: nat, inputs: seq<seq<Input>>,
                      schedule: seq<Move>, workers: seq<Worker>, tracks: seq<Track>)
    requires Polling(p, start, run, tenants, limit, inputs, schedule, workers, tracks) && AllStopped(workers)
    ensures TotalExecuted(workers) == |set i, k | 0 <= i < |tracks| && 0 <= k < |tracks[i].log|
                                                  && tracks[i].log[k].result.Executed? :: (i, k)|
    ensures |Errored(workers)| == |set i | 0 <= i < |tracks| && HasRaised(tracks[i].log)|
    ensures forall i :: 0 <= i < |tracks| && HasRaised(tracks[i].log) ==>
              var earlier := |set m | 0 <= m < i && HasRaised(tracks[m].log)|;
              earlier < |Errored(workers)| && Errored(workers)[earlier] == tenants[i]
    ensures forall t :: t in Errored(workers) <==> exists i :: 0 <= i < |tracks| && tenants[i] == t && HasRaised(tracks[i].log)
  {
    forall i | 0 <= i < |workers|
      ensures workers[i].executed == |ExecutedTurns(tracks[i].log)|
      ensures workers[i].phase == Stopped(true) <==> HasRaised(tracks[i].log)
    {
      assert Follows(p, start, run, workers[i], limit, inputs[i], tracks[i]);
      TickReports(tracks[i].log, limit, workers[i].executed, workers[i].phase.failed);
    }
    TotalCountsTurns(workers, tracks, |workers|);
    assert workers[..|workers|] == workers;
    assert ExecutedPairs(tracks, |workers|) ==
           set i, k | 0 <= i < |tracks| && 0 <= k < |tracks[i].log| && tracks[i].log[k].result.Executed? :: (i, k);
    ReportNames(workers, tracks, tenants);
  }

  // -- Independence ------------------------------------------------------------------------------------

  lemma PrefixAddressed(p: Policy, start: Table, run: seq<Step>, k: nat)
    requires k <= |run| && AllAddressed(p, start, run)
    ensures AllAddressed(p, start, run[..k]) && AllAddressed(p, After(p, start, run[..k]), run[k..])
  {
    assert run == run[..k] + run[k..];
    AddressedSplit(p, start, run[..k], run[k..]);
  }

  lemma RestSpares(p: Policy, start: Table, run: seq<Step>, k: nat, tenant: nat)
    requires k <= |run| && AllAddressed(p, start, run) && Spares(run[k..], tenant)
    ensures Own(After(p, start, run), tenant) == Own(After(p, start, run[..k]), tenant)
  {
    PrefixAddressed(p, start, run, k);
    assert run == run[..k] + run[k..];
    AfterConcat(p, start, run[..k], run[k..]);
    TenantSeesOwnSteps(p, After(p, start, run[..k]), run[k..], tenant);
    OnlyEmpty(run[k..], tenant);
  }

  /** Each report of a poll is that of a tick on the common run. */
  lemma ReportsAreTicks(p: Policy, start: Table, run: seq<Step>, tenants: seq<nat>, limit: nat, inputs: seq<seq<Input>>,
                        schedule: seq<Move>, workers: seq<Worker>, tracks: seq<Track>, i: nat)
    requires Polling(p, start, run, tenants, limit, inputs, schedule, workers, tracks) && i < |tenants|
    requires workers[i].phase.Stopped?
    ensures var t := tracks[i];
            && t.seen <= |run| && |t.log| <= |t.slots|
            && IsTick(p, start, tenants[i], limit, t.slots, t.log, workers[i].executed, workers[i].phase.failed)
            && TickSteps(t.slots, t.log) == run[..t.seen]
            && LastTable(start, t.log) == After(p, start, run[..t.seen])
  {
    assert Follows(p, start, run, workers[i], limit, inputs[i], tracks[i]);
    TurnsAreSteps(p, start, tenants[i], tracks[i].slots, tracks[i].log);
  }

  /**
   The reports of a poll do not depend on one another. In any interleaving of the ticks with each other
   and with other processes, a tenant for which nobody else acts gets the count, the error and the
   rows of a worker that serves it alone, from the rows it had at the start: whatever the ticks of
   other tenants met, errors included.
   */
  lemma ReportsAreIndependent(p: Policy, start: Table, run: seq<Step>, tenants: seq<nat>, limit: nat, inputs: seq<seq<Input>>,
                              schedule: seq<Move>, workers: seq<Worker>, tracks: seq<Track>, i: nat)
    requires Polling(p, start, run, tenants, limit, inputs, schedule, workers, tracks) && i < |tenants|
    requires workers[i].phase.Stopped? && Private(tenants, schedule, i) && AllAddressed(p, start, run)
    ensures var tenant, t := tenants[i], tracks[i];
            && IsTick(p, Own(start, tenant), tenant, limit, QuietSlots(t.slots), OwnLog(t.log, tenant),
                      workers[i].executed, workers[i].phase.failed)
            && Own(After(p, start, run), tenant) == LastTable(Own(start, tenant), OwnLog(t.log, tenant))
  {
    var tenant, t := tenants[i], tracks[i];
    ReportsAreTicks(p, start, run, tenants, limit, inputs, schedule, workers, tracks, i);
    assert Unshared(run, workers[i], t);
    PrefixAddressed(p, start, run, t.seen);
    UndisturbedTickIsAlone(p, start, tenant, limit, t.slots, t.log, workers[i].executed, workers[i].phase.failed);
    RestSpares(p, start, run, t.seen, tenant);
    assert LastTable(Own(start, tenant), OwnLog(t.log, tenant)) == Own(LastTable(start, t.log), tenant);
  }

  /** Even if others act for the tenant, only what they do for it matters to its report. */
  lemma ReportsSeeOwnSteps(p: Policy, start: Table, run: seq<Step>, tenants: seq<nat>, limit: nat, inputs: seq<seq<Input>>,
                           schedule: seq<Move>, workers: seq<Worker>, tracks: seq<Track>, i: nat)
    requires Polling(p, start, run, tenants, limit, inputs, schedule, workers, tracks) && i < |tenants|
    requires workers[i].phase.Stopped? && AllAddressed(p, start, run)
    ensures var tenant, t := tenants[i], tracks[i];
            IsTick(p, Own(start, tenant), tenant, limit, OwnSlots(t.slots, tenant), OwnLog(t.log, tenant),
                   workers[i].executed, workers[i].phase.failed)
  {
    var t := tracks[i];
    ReportsAreTicks(p, start, run, tenants, limit, inputs, schedule, workers, tracks, i);
    PrefixAddressed(p, start, run, t.seen);
    TickProjects(p, start, tenants[i], limit, t.slots, t.log, workers[i].executed, workers[i].phase.failed);
  }

  /** One execution of one tick of a poll: its own input, and the possible steps of others inside it. */
  lemma TurnOfPoll(p: Policy, start: Table, run: seq<Step>, tenants: seq<nat>, limit: nat, inputs: seq<seq<Input>>,
                   schedule: seq<Move>, workers: seq<Worker>, tracks: seq<Track>, i: nat, k: nat)
    requires Polling(p, start, run, tenants, limit, inputs, schedule, workers, tracks) && AllAddressed(p, start, run)
    requires i < |tenants| && k < |tracks[i].log| && !tracks[i].log[k].result.NothingDue?
    ensures k < |tracks[i].slots| && k < |inputs[i]|
    ensures var turn, c := tracks[i].log[k], tracks[i].slots[k].c;
            && IsTurn(p, tenants[i], c, turn) && c.verdict == inputs[i][k].verdict(turn.result.id)
            && AllAddressed(p, Apply(p, turn.before, ClaimStep(tenants[i], c, turn.result.id)), c.between)
  {
    var t := tracks[i];
    assert Records(p, start, run, tenants[i], limit, inputs[i], t) by {
      assert Follows(p, start, run, workers[i], limit, inputs[i], t);
    }
    assert TurnAt(p, start, tenants[i], t.slots, t.log, k);
    PrefixAddressed(p, start, run, t.seen);
    TurnAddressed(p, start, tenants[i], t.slots, t.log, k);
    WorkAddressed(p, t.log[k].before, tenants[i], t.slots[k].c, t.log[k].result.id);
  }

  /** A tenant nobody acted for during the poll keeps every row. */
  lemma UninvolvedTenantUnchanged(p: Policy, start: Table, run: seq<Step>, tenants: seq<nat>, limit: nat, inputs: seq<seq<Input>>,
                                  schedule: seq<Move>, workers: seq<Worker>, tracks: seq<Track>, tenant: nat)
    requires Polling(p, start, run, tenants, limit, inputs, schedule, workers, tracks) && AllAddressed(p, start, run)
    requires tenant !in tenants
    requires forall k :: 0 <= k < |schedule| && schedule[k].Other? ==> schedule[k].step.tenant != tenant
    ensures Own(After(p, start, run), tenant) == Own(start, tenant)
  {
    TenantSeesOwnSteps(p, start, run, tenant);
    forall step | step in run ensures step.tenant != tenant {
      var k :| 0 <= k < |run| && run[k] == step;
      assert Accountable(p, start, run, tenants, schedule, k);
    }
    OnlyEmpty(run, tenant);
  }

  /**
   A poll continues a run of the protocol, if its steps do not go back in time and those of other
   processes are enabled where they are taken: counting, leases and backoff hold across polls.
   */
  lemma PollContinues(p: Policy, states: seq<Snapshot>, steps: seq<Step>, run: seq<Step>, tenants: seq<nat>, limit: nat,
                      inputs: seq<seq<Input>>, schedule: seq<Move>, workers: seq<Worker>, tracks: seq<Track>)
      returns (states': seq<Snapshot>)
    requires IsRun(p, states, steps)
    requires Polling(p, states[|steps|].rows, run, tenants, limit, inputs, schedule, workers, tracks)
    requires Ordered(states[|steps|].clock, run)
    requires forall k: nat :: k < |run| && Other(run[k]) in schedule ==> ObeysAt(p, states[|steps|].rows, run, k)
    ensures IsRun(p, states', steps + run) && states <= states'
    ensures states'[|steps + run|].rows == After(p, states[|steps|].rows, run)
  {
    forall k: nat | k < |run| ensures ObeysAt(p, states[|steps|].rows, run, k) {
      assert Accountable(p, states[|steps|].rows, run, tenants, schedule, k);
    }
    states' := RunContinues(p, states, steps, run);
  }

  class PollingWorker {
    const jobs: JobTable

    constructor (jobs: JobTable)
      ensures this.jobs == jobs
    {
      this.jobs := jobs;
    }

    /**
     One tick for one tenant: execute until nothing is due, at most `limit` times; an error ends the
     tick and is reported, not raised. The slots hold what others do before and during each execution.
     */
    method DrainOneTenant(tenant: nat, limit: nat, slots: seq<Slot>)
        returns (executed: nat, failed: bool, ghost log: seq<Turn>)
      requires |slots| >= limit
      modifies jobs
      ensures IsTick(jobs.policy, old(jobs.rows), tenant, limit, slots, log, executed, failed)
      ensures executed == |ExecutedTurns(log)| <= limit && (failed <==> HasRaised(log))
      ensures jobs.rows == LastTable(old(jobs.rows), log) == After(jobs.policy, old(jobs.rows), TickSteps(slots, log))
      ensures AllAddressed(jobs.policy, old(jobs.rows), TickSteps(slots, log)) ==>
                Isolates(jobs.policy, old(jobs.rows), TickSteps(slots, log), jobs.rows)
      ensures !failed && executed < limit ==>
                PickOk(jobs.rows, tenant, slots[executed].c.now, slots[executed].c.locked, None)
    {
      executed, failed, log := 0, false, [];
      ghost var start := jobs.rows;
      for k := 0 to limit
        invariant executed == k == |log| && !failed && AllExecuted(log)
        invariant Turns(jobs.policy, start, tenant, slots, log)
        invariant jobs.rows == LastTable(start, log)
      {
        jobs.rows := After(jobs.policy, jobs.rows, slots[k].lead);
        ghost var before := jobs.rows;
        var r, work := jobs.ExecuteDue(tenant, slots[k].c);
        ghost var turn := Turn(before, r, work, jobs.rows);
        NextTurn(jobs.policy, start, tenant, slots, log, turn);
        log := log + [turn];
        if r.NothingDue? {
          break;
        }
        if r.Raised? {
          failed := true;
          break;
        }
        executed := executed + 1;
      }
      TurnsAreSteps(jobs.policy, start, tenant, slots, log);
      TickReports(log, limit, executed, failed);
      if !failed && executed < limit {
        StoppedEarlyIdle(jobs.policy, start, tenant, limit, slots, log, executed, failed);
      }
      if AllAddressed(jobs.policy, start, TickSteps(slots, log)) {
        AddressedIsolates(jobs.policy, start, TickSteps(slots, log));
      }
    }

    /** The next transaction of a tick: nothing, a claim or an outcome. */
    method Advance(w: Worker, limit: nat, inputs: seq<Input>, ghost start: Table, ghost run: seq<Step>, ghost t: Track)
        returns (w': Worker, ghost more: seq<Step>, ghost t': Track)
      requires Follows(jobs.policy, start, run, w, limit, inputs, t)
      requires jobs.rows == After(jobs.policy, start, run)
      modifies jobs
      ensures Moved(jobs.policy, start, run, w, limit, inputs, t, w', more, t')
      ensures jobs.rows == After(jobs.policy, start, run + more)
    {
      match w.phase {
        case Stopped(_) =>
          StandsStill(jobs.policy, start, run, w, limit, inputs, t);
          assert run + [] == run;
          w', more, t' := w, [], t;
        case Waiting =>
          if w.executed == limit {
            StandsStill(jobs.policy, start, run, w, limit, inputs, t);
            assert run + [] == run;
            w', more, t' := w.(phase := Stopped(false)), [], t;
          } else {
            w', more, t' := ClaimNext(w, limit, inputs, start, run, t);
          }
        case Working(_, _) =>
          w', more, t' := ReportOutcome(w, limit, inputs, start, run, t);
      }
    }

    method ClaimNext(w: Worker, limit: nat, inputs: seq<Input>, ghost start: Table, ghost run: seq<Step>, ghost t: Track)
        returns (w': Worker, ghost more: seq<Step>, ghost t': Track)
      requires Follows(jobs.policy, start, run, w, limit, inputs, t) && w.phase.Waiting? && w.executed < limit
      requires jobs.rows == After(jobs.policy, start, run)
      modifies jobs
      ensures Moved(jobs.policy, start, run, w, limit, inputs, t, w', more, t')
      ensures jobs.rows == After(jobs.policy, start, run + more)
    {
      var i := inputs[w.executed];
      var pick := jobs.ClaimDue(w.tenant, i.now, i.locked, i.newId);
      if pick.None? {
        IdleMoves(jobs.policy, start, run, w, limit, inputs, t);
        assert run + [] == run;
        w', more, t' := w.(phase := Stopped(false)), [], IdleTrack(run, After(jobs.policy, start, run), i, t);
      } else {
        var execution := jobs.rows[pick.value].executionId.value;
        ClaimMoves(jobs.policy, start, run, w, limit, inputs, t, pick.value);
        more := [Claim(w.tenant, i.now, i.locked, pick, i.newId)];
        OneStepMore(jobs.policy, start, run, more[0]);
        w', t' := w.(phase := Working(pick.value, execution)), t.(claimAt := |run|);
      }
    }

    method ReportOutcome(w: Worker, limit: nat, inputs: seq<Input>, ghost start: Table, ghost run: seq<Step>, ghost t: Track)
        returns (w': Worker, ghost more: seq<Step>, ghost t': Track)
      requires Follows(jobs.policy, start, run, w, limit, inputs, t) && w.phase.Working?
      requires jobs.rows == After(jobs.policy, start, run)
      modifies jobs
      ensures Moved(jobs.policy, start, run, w, limit, inputs, t, w', more, t')
      ensures jobs.rows == After(jobs.policy, start, run + more)
    {
      var i, id, execution := inputs[w.executed], w.phase.id, w.phase.execution;
      ghost var outcome := NextOutcome(run, w, inputs, t);
      var r := jobs.Report(w.tenant, id, execution, i.verdict(id), i.later);
      OneStepMore(jobs.policy, start, run, outcome);
      OutcomeMoves(jobs.policy, start, run, w, limit, inputs, t, r);
      w', more, t' := Reported(w, r), [outcome], WorkedTrack(jobs.policy, start, run, i, id, r, outcome, t);
    }

    /**
     One tick over all tenants at the same time. Any schedule of the ticks' transactions and of other
     processes' steps is followed to its end, and then every tick to its own. Every tenant is drained
     whatever happens to the others; the report adds up the executions and names the tenants whose tick failed.
     */
    method PollOnce(tenants: seq<nat>, limit: nat, inputs: seq<seq<Input>>, schedule: seq<Move>)
        returns (executed: nat, errored: seq<nat>, workers: seq<Worker>, ghost tracks: seq<Track>, ghost run: seq<Step>)
      requires |inputs| == |tenants|
      requires forall i :: 0 <= i < |inputs| ==> |inputs[i]| >= limit
      modifies jobs
      ensures Polling(jobs.policy, old(jobs.rows), run, tenants, limit, inputs, schedule, workers, tracks)
      ensures AllStopped(workers)
      ensures |tracks| == |tenants|
      ensures executed == |set i, k | 0 <= i < |tracks| && 0 <= k < |tracks[i].log| && tracks[i].log[k].result.Executed? :: (i, k)|
      ensures |errored| == |set i | 0 <= i < |tracks| && HasRaised(tracks[i].log)|
      ensures forall t :: t in errored <==> exists i :: 0 <= i < |tracks| && tenants[i] == t && HasRaised(tracks[i].log)
      ensures jobs.rows == After(jobs.policy, old(jobs.rows), run)
      ensures AllAddressed(jobs.policy, old(jobs.rows), run) ==> Isolates(jobs.policy, old(jobs.rows), run, jobs.rows)
      ensures Proper(old(jobs.rows), schedule) ==> AllAddressed(jobs.policy, old(jobs.rows), run)
    {
      ghost var start := jobs.rows;
      ghost var fit;
      workers := seq(|tenants|, i requires 0 <= i < |tenants| => Worker(tenants[i], 0, Waiting));
      tracks := seq(|tenants|, i requires 0 <= i < |tenants| => Track(0, 0, [], []));
      PollBegins(jobs.policy, start, tenants, limit, inputs, schedule, workers, tracks);
      workers, tracks, run, fit := FollowSchedule(tenants, limit, inputs, schedule, workers, start, tracks);
      workers, tracks, run := FinishAll(tenants, limit, inputs, schedule, workers, start, tracks, run, fit);
      executed, errored := Totals(workers);
      ReportIsExact(jobs.policy, start, run, tenants, limit, inputs, schedule, workers, tracks);
      if AllAddressed(jobs.policy, start, run) {
        AddressedIsolates(jobs.policy, start, run);
      }
    }

    method FollowSchedule(tenants: seq<nat>, limit: nat, inputs: seq<seq<Input>>, schedule: seq<Move>, begun: seq<Worker>,
                          ghost start: Table, ghost begunTracks: seq<Track>)
        returns (workers: seq<Worker>, ghost tracks: seq<Track>, ghost run: seq<Step>, ghost fit: bool)
      requires PollAt(jobs.policy, start, [], tenants, limit, inputs, schedule, begun, begunTracks, jobs.rows, true)
      modifies jobs
      ensures PollAt(jobs.policy, start, run, tenants, limit, inputs, schedule, workers, tracks, jobs.rows, fit)
      ensures Proper(start, schedule) ==> fit
    {
      workers, tracks, run, fit := begun, begunTracks, [], true;
      for k := 0 to |schedule|
        invariant PollAt(jobs.policy, start, run, tenants, limit, inputs, schedule, workers, tracks, jobs.rows, fit)
        invariant Proper(start, schedule) ==> fit && Accounts(start, schedule, k, jobs.rows)
      {
        match schedule[k] {
          case Advance(i) =>
            if i >= |workers| {
              if Proper(start, schedule) {
                TickStep(jobs.policy, start, schedule, k, run, []);
                assert run + [] == run;
              }
            } else {
              var w, more, t := Advance(workers[i], limit, inputs[i], start, run, tracks[i]);
              if Proper(start, schedule) {
                TickStep(jobs.policy, start, schedule, k, run, more);
              }
              MoveOne(jobs.policy, start, run, more, tenants, limit, inputs, schedule, workers, tracks, i, w, t, jobs.rows, fit);
              workers, tracks, run := workers[i := w], tracks[i := t], run + more;
            }
          case Other(step) =>
            assert schedule[k] in schedule;
            if Proper(start, schedule) {
              ProperStep(jobs.policy, start, schedule, k, jobs.rows);
            }
            OtherStep(jobs.policy, start, run, tenants, limit, inputs, schedule, workers, tracks, jobs.rows, fit, step);
            fit := fit && Addressed(jobs.rows, step);
            jobs.rows := Apply(jobs.policy, jobs.rows, step);
            run := run + [step];
        }
      }
    }

    method FinishAll(tenants: seq<nat>, limit: nat, inputs: seq<seq<Input>>, schedule: seq<Move>, begun: seq<Worker>,
                     ghost start: Table, ghost begunTracks: seq<Track>, ghost begunRun: seq<Step>, ghost fit: bool)
        returns (workers: seq<Worker>, ghost tracks: seq<Track>, ghost run: seq<Step>)
      requires PollAt(jobs.policy, start, begunRun, tenants, limit, inputs, schedule, begun, begunTracks, jobs.rows, fit)
      modifies jobs
      ensures PollAt(jobs.policy, start, run, tenants, limit, inputs, schedule, workers, tracks, jobs.rows, fit)
      ensures AllStopped(workers)
    {
      workers, tracks, run := begun, begunTracks, begunRun;
      for i := 0 to |workers|
        invariant |workers| == |begun|
        invariant PollAt(jobs.policy, start, run, tenants, limit, inputs, schedule, workers, tracks, jobs.rows, fit)
        invariant forall j :: 0 <= j < i ==> workers[j].phase.Stopped?
      {
        workers, tracks, run := FinishOne(tenants, limit, inputs, schedule, workers, start, tracks, run, fit, i);
      }
    }

    method FinishOne(tenants: seq<nat>, limit: nat, inputs: seq<seq<Input>>, schedule: seq<Move>, begun: seq<Worker>,
                     ghost start: Table, ghost begunTracks: seq<Track>, ghost begunRun: seq<Step>, ghost fit: bool, i: nat)
        returns (workers: seq<Worker>, ghost tracks: seq<Track>, ghost run: seq<Step>)
      requires i < |begun|
      requires PollAt(jobs.policy, start, begunRun, tenants, limit, inputs, schedule, begun, begunTracks, jobs.rows, fit)
      modifies jobs
      ensures PollAt(jobs.policy, start, run, tenants, limit, inputs, schedule, workers, tracks, jobs.rows, fit)
      ensures |workers| == |begun| && workers[i].phase.Stopped?
      ensures forall j :: 0 <= j < |begun| && j != i ==> workers[j] == begun[j]
    {
      var w := begun[i];
      workers, tracks, run := begun, begunTracks, begunRun;
      while !w.phase.Stopped?
        invariant |workers| == |begun| && workers[i] == w
        invariant PollAt(jobs.policy, start, run, tenants, limit, inputs, schedule, workers, tracks, jobs.rows, fit)
        invariant forall j :: 0 <= j < |begun| && j != i ==> workers[j] == begun[j]
        decreases Remaining(w, limit)
      {
        var w', more, t := Advance(w, limit, inputs[i], start, run, tracks[i]);
        MoveOne(jobs.policy, start, run, more, tenants, limit, inputs, schedule, workers, tracks, i, w', t, jobs.rows, fit);
        w, workers, tracks, run := w', workers[i := w'], tracks[i := t], run + more;
      }
    }

    method Totals(workers: seq<Worker>) returns (executed: nat, errored: seq<nat>)
      ensures executed == TotalExecuted(workers) && errored == Errored(workers)
    {
      executed, errored := 0, [];
      for i := 0 to |workers|
        invariant executed == TotalExecuted(workers[..i]) && errored == Errored(workers[..i])
      {
        assert workers[..i + 1][..i] == workers[..i];
        executed := executed + workers[i].executed;
        if workers[i].phase == Stopped(true) {
          errored := errored + [workers[i].tenant];
        }
      }
      assert workers[..|workers|] == workers;
    }
  }
}
