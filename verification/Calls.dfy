/** The call session machine: idempotent creation, exactly-once activation, ownership, timeline. */
module Calls {
  import opened Wrappers

  // -- Lifecycle ---------------------------------------------------------------------

  datatype Status = Initiated | Ringing | Answered | InProgress | Completed | Failed | Interrupted

  predicate Terminal(s: Status) {
    s.Completed? || s.Failed? || s.Interrupted?
  }

  predicate HasEdge(current: Status, target: Status) {
    match current
    case Initiated => target.Ringing? || target.Answered? || target.Failed? || target.Interrupted?
    case Ringing => target.Answered? || target.Failed? || target.Interrupted?
    case Answered => target.InProgress? || target.Completed? || target.Failed? || target.Interrupted?
    case InProgress => target.Completed? || target.Failed? || target.Interrupted?
    case Completed => false
    case Failed => false
    case Interrupted => false
  }

  predicate IsValidTransition(current: Status, target: Status) {
    current == target || HasEdge(current, target)
  }

  /** Every edge climbs. */
  function Rank(s: Status): nat {
    match s
    case Initiated => 0
    case Ringing => 1
    case Answered => 2
    case InProgress => 3
    case _ => 4
  }

  // -- Rows and steps ------------------------------------------------------------------

  /** Instants in microseconds, `durationMs` in milliseconds. */
  datatype Call = Call(tenant: nat, status: Status, channel: Option<string>, owner: Option<string>,
                       assignedAt: Option<int>, agentVersion: nat, startedAt: int, answeredAt: Option<int>,
                       endedAt: Option<int>, durationMs: Option<int>,
                       hangupCause: Option<string>, endReason: Option<string>, contact: Option<nat>)

  type Table = map<nat, Call>

  datatype Error = NotFound | InvalidTransition | OwnershipMismatch | AlreadyOwned | ChannelTaken | ContactNotFound

  datatype Step =
    | Create(tenant: nat, now: int, newId: nat, agentVersion: nat, channel: Option<string>)
    | Activate(tenant: nat, now: int, id: nat)
    | ClaimOwnership(tenant: nat, now: int, id: nat, runtime: string)
    | Transition(tenant: nat, now: int, id: nat, target: Option<Status>, hangupCause: Option<string>,
                 endReason: Option<string>, channel: Option<string>, newRuntime: Option<string>, expected: Option<string>)
    | Associate(tenant: nat, now: int, id: nat, contact: nat, contactFound: bool)

  /** The answer of a step: the row it is about, and whether it took effect or merely agreed. */
  datatype Answer = Answer(id: nat, won: bool)

  predicate Visible(rows: Table, tenant: nat, id: nat) {
    id in rows && rows[id].tenant == tenant
  }

  predicate Holds(rows: Table, id: nat, channel: string) {
    id in rows && rows[id].channel == Some(channel)
  }

  /** The partial unique index on the channel, over all tenants. */
  predicate ChannelFree(rows: Table, id: nat, channel: Option<string>) {
    channel.Some? ==> forall x :: x in rows && Holds(rows, x, channel.value) ==> x == id
  }

  predicate UniqueChannels(rows: Table) {
    forall x, y :: x in rows && y in rows && rows[x].channel.Some? && rows[x].channel == rows[y].channel ==> x == y
  }

  /** The row the fallback lookup of a creation returns, if any. */
  predicate IsHolder(rows: Table, tenant: nat, channel: Option<string>, holder: Option<nat>) {
    match holder
    case Some(id) => channel.Some? && Visible(rows, tenant, id) && Holds(rows, id, channel.value)
    case None => channel.Some? ==> forall x :: x in rows && Visible(rows, tenant, x) ==> !Holds(rows, x, channel.value)
  }

  function NewCall(tenant: nat, now: int, agentVersion: nat, channel: Option<string>): Call {
    Call(tenant, Initiated, channel, None, None, agentVersion, now, None, None, None, None, None, None)
  }

  /** Floor of the elapsed microseconds, in milliseconds. */
  function ElapsedMs(started: int, ended: int): int {
    (ended - started) / 1000
  }

  function WithRuntime(c: Call, now: int, channel: Option<string>, runtime: Option<string>): Call {
    c.(channel := if channel.Some? then channel else c.channel,
       owner := if runtime.Some? then runtime else c.owner,
       assignedAt := if runtime.Some? then Some(now) else c.assignedAt)
  }

  function Moved(c: Call, now: int, target: Status, hangupCause: Option<string>, endReason: Option<string>): Call {
    var answered := if (target.Answered? || target.InProgress?) && c.answeredAt.None? then Some(now) else c.answeredAt;
    if Terminal(target) then
      c.(status := target, answeredAt := answered, endedAt := Some(now), durationMs := Some(ElapsedMs(c.startedAt, now)),
         hangupCause := if hangupCause.Some? then hangupCause else c.hangupCause,
         endReason := if endReason.Some? then endReason else c.endReason)
    else c.(status := target, answeredAt := answered)
  }

  /** The table and the answer after the step; `holder` is what a colliding creation looks up. */
  function Perform(rows: Table, step: Step, holder: Option<nat>): Result<(Table, Answer), Error> {
    match step
    case Create(tenant, now, newId, agentVersion, channel) =>
      if ChannelFree(rows, newId, channel) then
        Ok((rows[newId := NewCall(tenant, now, agentVersion, channel)], Answer(newId, true)))
      else if holder.Some? then Ok((rows, Answer(holder.value, false)))
      else Err(ChannelTaken)
    case Activate(tenant, now, id) =>
      if !Visible(rows, tenant, id) then Err(NotFound)
      else if rows[id].status != Initiated then Ok((rows, Answer(id, false)))
      else Ok((rows[id := rows[id].(status := Ringing)], Answer(id, true)))
    case ClaimOwnership(tenant, now, id, runtime) =>
      if !Visible(rows, tenant, id) then Err(NotFound)
      else if rows[id].owner == Some(runtime) then Ok((rows, Answer(id, false)))
      else if rows[id].owner.Some? then Err(AlreadyOwned)
      else Ok((rows[id := rows[id].(owner := Some(runtime), assignedAt := Some(now))], Answer(id, true)))
    case Transition(tenant, now, id, target, hangupCause, endReason, channel, runtime, expected) =>
      if target.None? then Err(InvalidTransition)
      else if !Visible(rows, tenant, id) then Err(NotFound)
      else if expected.Some? && rows[id].owner != expected then Err(OwnershipMismatch)
      else if !IsValidTransition(rows[id].status, target.value) then Err(InvalidTransition)
      else if !ChannelFree(rows, id, channel) then Err(ChannelTaken)
      else
        var moved := if target.value == rows[id].status then rows[id]
                     else Moved(rows[id], now, target.value, hangupCause, endReason);
        Ok((rows[id := WithRuntime(moved, now, channel, runtime)], Answer(id, target.value != rows[id].status)))
    case Associate(tenant, now, id, contact, contactFound) =>
      if !Visible(rows, tenant, id) then Err(NotFound)
      else if !contactFound then Err(ContactNotFound)
      else Ok((rows[id := rows[id].(contact := Some(contact))], Answer(id, true)))
  }

  function Apply(rows: Table, step: Step, holder: Option<nat>): Table {
    match Perform(rows, step, holder)
    case Ok((rows', _)) => rows'
    case Err(_) => rows
  }

  // -- Runs ----------------------------------------------------------------------------

  datatype Snapshot = Snapshot(clock: int, rows: Table)

  ghost function HolderOf(rows: Table, step: Step): Option<nat> {
    if step.Create? && step.channel.Some? && exists x :: x in rows && Visible(rows, step.tenant, x) && Holds(rows, x, step.channel.value) then
      var x: nat :| x in rows && Visible(rows, step.tenant, x) && Holds(rows, x, step.channel.value);
      Some(x)
    else None
  }

  ghost predicate StepAt(states: seq<Snapshot>, steps: seq<Step>, k: nat) {
    && k < |steps| && k + 1 < |states|
    && states[k].clock <= steps[k].now
    && (steps[k].Create? ==> steps[k].newId !in states[k].rows)
    && states[k + 1] == Snapshot(steps[k].now, Apply(states[k].rows, steps[k], HolderOf(states[k].rows, steps[k])))
  }

  /** Any interleaving of handlers, runtimes and operators; redeliveries are steps like any other. */
  ghost predicate IsRun(states: seq<Snapshot>, steps: seq<Step>) {
    && |states| == |steps| + 1
    && states[0].rows == map[]
    && forall k: nat :: k < |steps| ==> StepAt(states, steps, k)
  }

  ghost predicate Has(states: seq<Snapshot>, k: nat, id: nat) {
    k < |states| && id in states[k].rows
  }

  ghost function Row(states: seq<Snapshot>, k: nat, id: nat): Call
    requires Has(states, k, id)
  {
    states[k].rows[id]
  }

  ghost function AnswerAt(states: seq<Snapshot>, steps: seq<Step>, k: nat): Option<Answer>
    requires k < |steps| && k < |states|
  {
    match Perform(states[k].rows, steps[k], HolderOf(states[k].rows, steps[k]))
    case Ok((_, answer)) => Some(answer)
    case Err(_) => None
  }

  // -- Timeline --------------------------------------------------------------------------

  ghost predicate WellTimed(c: Call, clock: int) {
    && c.startedAt <= clock
    && (c.endedAt.Some? <==> Terminal(c.status))
    && (c.durationMs.Some? <==> Terminal(c.status))
    && (c.answeredAt.Some? ==> c.startedAt <= c.answeredAt.value <= clock)
    && (c.status.Initiated? || c.status.Ringing? ==> c.answeredAt.None?)
    && (c.status.Answered? || c.status.InProgress? || c.status.Completed? ==> c.answeredAt.Some?)
    && (c.endedAt.Some? ==>
          && c.startedAt <= c.endedAt.value <= clock
          && (c.answeredAt.Some? ==> c.answeredAt.value <= c.endedAt.value)
          && c.durationMs == Some((c.endedAt.value - c.startedAt) / 1000))
    && (c.hangupCause.Some? || c.endReason.Some? ==> Terminal(c.status))
    && (c.owner.Some? <==> c.assignedAt.Some?)
  }

  lemma MoveKeepsWellTimed(c: Call, clock: int, now: int, target: Status, hangupCause: Option<string>, endReason: Option<string>)
    requires WellTimed(c, clock) && clock <= now && HasEdge(c.status, target)
    ensures WellTimed(Moved(c, now, target, hangupCause, endReason), now)
  {
  }

  lemma RuntimeKeepsWellTimed(c: Call, now: int, channel: Option<string>, runtime: Option<string>)
    requires WellTimed(c, now)
    ensures WellTimed(WithRuntime(c, now, channel, runtime), now)
  {
  }

  lemma TransitionKeepsWellTimed(rows: Table, clock: int, step: Step, holder: Option<nat>)
    requires step.Transition? && step.id in rows && WellTimed(rows[step.id], clock) && clock <= step.now
    ensures step.id in Apply(rows, step, holder) && WellTimed(Apply(rows, step, holder)[step.id], step.now)
  {
    var c := rows[step.id];
    if Perform(rows, step, holder).Ok? {
      var moved := c;
      if step.target.value != c.status {
        moved := Moved(c, step.now, step.target.value, step.hangupCause, step.endReason);
        MoveKeepsWellTimed(c, clock, step.now, step.target.value, step.hangupCause, step.endReason);
      }
      RuntimeKeepsWellTimed(moved, step.now, step.channel, step.newRuntime);
    }
  }

  lemma StepKeepsWellTimed(states: seq<Snapshot>, steps: seq<Step>, k: nat, id: nat)
    requires StepAt(states, steps, k) && Has(states, k + 1, id)
    requires Has(states, k, id) ==> WellTimed(Row(states, k, id), states[k].clock)
    ensures WellTimed(Row(states, k + 1, id), states[k + 1].clock)
  {
    var rows, step := states[k].rows, steps[k];
    if step.Transition? && step.id == id {
      assert id in rows;
      TransitionKeepsWellTimed(rows, states[k].clock, step, HolderOf(rows, step));
    }
  }

  /**
   The timeline on every run: ended is set exactly on terminal calls, a cause or reason only there, a
   completed call was answered, started <= answered <= ended, and the duration is the floor of the
   distance between start and end in milliseconds.
   */
  lemma {:induction false} TimelineHolds(states: seq<Snapshot>, steps: seq<Step>, k: nat, id: nat)
    requires IsRun(states, steps) && Has(states, k, id)
    ensures WellTimed(Row(states, k, id), states[k].clock)
  {
    if k > 0 {
      assert StepAt(states, steps, k - 1);
      if Has(states, k - 1, id) {
        TimelineHolds(states, steps, k - 1, id);
      }
      StepKeepsWellTimed(states, steps, k - 1, id);
    }
  }

  /** The columns of the timeline, and how the call ended. */
  ghost predicate SameTimeline(a: Call, b: Call) {
    && a.startedAt == b.startedAt && a.answeredAt == b.answeredAt
    && a.endedAt == b.endedAt && a.durationMs == b.durationMs
    && a.hangupCause == b.hangupCause && a.endReason == b.endReason
  }

  /** A step that leaves the status alone, such as a redelivered event, leaves the timeline alone. */
  lemma RedeliveryKeepsTimeline(states: seq<Snapshot>, steps: seq<Step>, k: nat, id: nat)
    requires IsRun(states, steps) && k < |steps| && Has(states, k, id)
    ensures Has(states, k + 1, id)
    ensures Row(states, k + 1, id).status == Row(states, k, id).status ==>
              SameTimeline(Row(states, k, id), Row(states, k + 1, id))
    ensures Row(states, k + 1, id).startedAt == Row(states, k, id).startedAt
    ensures Row(states, k, id).answeredAt.Some? ==> Row(states, k + 1, id).answeredAt == Row(states, k, id).answeredAt
  {
    assert StepAt(states, steps, k);
  }

  // -- At most four status changes -----------------------------------------------------------

  ghost function StatusChanges(states: seq<Snapshot>, k: nat, id: nat): nat
    requires k < |states|
  {
    if k == 0 then 0
    else StatusChanges(states, k - 1, id)
         + if Has(states, k - 1, id) && Has(states, k, id) && Row(states, k - 1, id).status != Row(states, k, id).status
           then 1 else 0
  }

  lemma StepClimbs(states: seq<Snapshot>, steps: seq<Step>, k: nat, id: nat)
    requires StepAt(states, steps, k) && Has(states, k, id)
    ensures Has(states, k + 1, id)
    ensures Row(states, k + 1, id).status == Row(states, k, id).status
            || HasEdge(Row(states, k, id).status, Row(states, k + 1, id).status)
    ensures Row(states, k + 1, id).tenant == Row(states, k, id).tenant
    ensures Row(states, k + 1, id).agentVersion == Row(states, k, id).agentVersion
  {
  }

  /** A call changes its status at most four times, and never leaves a terminal status. */
  lemma {:induction false} StatusChangesAreBounded(states: seq<Snapshot>, steps: seq<Step>, k: nat, id: nat)
    requires IsRun(states, steps) && k < |states|
    ensures StatusChanges(states, k, id) <= if Has(states, k, id) then Rank(Row(states, k, id).status) else 0
    ensures StatusChanges(states, k, id) <= 4
  {
    if k > 0 {
      StatusChangesAreBounded(states, steps, k - 1, id);
      assert StepAt(states, steps, k - 1);
      if Has(states, k - 1, id) {
        StepClimbs(states, steps, k - 1, id);
      }
    }
  }

  /** Rows stay, with tenant and agent version; statuses only climb, and terminal ones absorb. */
  lemma {:induction false} CallsOnlyProgress(states: seq<Snapshot>, steps: seq<Step>, i: nat, k: nat, id: nat)
    requires IsRun(states, steps) && i <= k < |states| && Has(states, i, id)
    ensures Has(states, k, id)
    ensures Row(states, k, id).tenant == Row(states, i, id).tenant
    ensures Row(states, k, id).agentVersion == Row(states, i, id).agentVersion
    ensures Rank(Row(states, i, id).status) <= Rank(Row(states, k, id).status)
    ensures Terminal(Row(states, i, id).status) ==>
              Row(states, k, id).status == Row(states, i, id).status && SameTimeline(Row(states, i, id), Row(states, k, id))
  {
    if i < k {
      CallsOnlyProgress(states, steps, i, k - 1, id);
      assert StepAt(states, steps, k - 1);
      StepClimbs(states, steps, k - 1, id);
      RedeliveryKeepsTimeline(states, steps, k - 1, id);
    }
  }

  // -- Exactly once --------------------------------------------------------------------------

  ghost predicate Activates(states: seq<Snapshot>, steps: seq<Step>, k: nat, id: nat) {
    k < |steps| && k < |states| && steps[k].Activate? && AnswerAt(states, steps, k) == Some(Answer(id, true))
  }

  /** `claim_call_for_activation` answers true at most once per call, whoever asks and however often. */
  lemma ActivationIsExactlyOnce(states: seq<Snapshot>, steps: seq<Step>, i: nat, j: nat, id: nat)
    requires IsRun(states, steps) && Activates(states, steps, i, id) && Activates(states, steps, j, id)
    ensures i == j
  {
    assert StepAt(states, steps, i) && StepAt(states, steps, j);
    if i < j {
      CallsOnlyProgress(states, steps, i + 1, j, id);
      assert false;
    } else if j < i {
      CallsOnlyProgress(states, steps, j + 1, i, id);
      assert false;
    }
  }

  /** Channels stay unique over all calls of all tenants. */
  lemma {:induction false} ChannelsStayUnique(states: seq<Snapshot>, steps: seq<Step>, k: nat)
    requires IsRun(states, steps) && k < |states|
    ensures UniqueChannels(states[k].rows)
  {
    if k > 0 {
      ChannelsStayUnique(states, steps, k - 1);
      assert StepAt(states, steps, k - 1);
      StepKeepsChannelsUnique(states[k - 1].rows, steps[k - 1], HolderOf(states[k - 1].rows, steps[k - 1]));
    }
  }

  lemma StepKeepsChannelsUnique(rows: Table, step: Step, holder: Option<nat>)
    requires UniqueChannels(rows)
    ensures UniqueChannels(Apply(rows, step, holder))
  {
    var rows' := Apply(rows, step, holder);
    forall x, y | x in rows' && y in rows' && rows'[x].channel.Some? && rows'[x].channel == rows'[y].channel
      ensures x == y
    {
      if x in rows && rows'[x].channel == rows[x].channel {
        assert Holds(rows, x, rows'[x].channel.value);
      }
      if y in rows && rows'[y].channel == rows[y].channel {
        assert Holds(rows, y, rows'[y].channel.value);
      }
    }
  }

  /** The step gives no call the channel `id` holds in exchange for another one. */
  ghost predicate KeepsChannel(step: Step, id: nat, channel: string) {
    step.Transition? && step.id == id && step.channel.Some? ==> step.channel.value == channel
  }

  lemma {:induction false} ChannelIsKept(states: seq<Snapshot>, steps: seq<Step>, i: nat, k: nat, id: nat, channel: string)
    requires IsRun(states, steps) && i <= k < |states| && Has(states, i, id) && Holds(states[i].rows, id, channel)
    requires forall m: nat :: i <= m < k ==> KeepsChannel(steps[m], id, channel)
    ensures Has(states, k, id) && Holds(states[k].rows, id, channel)
  {
    if i < k {
      ChannelIsKept(states, steps, i, k - 1, id, channel);
      assert StepAt(states, steps, k - 1) && KeepsChannel(steps[k - 1], id, channel);
    }
  }

  /**
   Idempotent creation: once a creation with a channel has answered a call of the tenant, every later
   creation of the tenant with that channel answers the same call and changes nothing, as long as no
   transition re-labelled the call in between.
   */
  lemma CreationIsIdempotent(states: seq<Snapshot>, steps: seq<Step>, i: nat, j: nat, channel: string)
    requires IsRun(states, steps) && i < j < |steps|
    requires steps[i].Create? && steps[j].Create? && steps[i].tenant == steps[j].tenant
    requires steps[i].channel == Some(channel) == steps[j].channel
    requires AnswerAt(states, steps, i).Some?
    requires forall m: nat :: i < m < j ==> KeepsChannel(steps[m], AnswerAt(states, steps, i).value.id, channel)
    ensures AnswerAt(states, steps, j) == Some(Answer(AnswerAt(states, steps, i).value.id, false))
    ensures states[j + 1].rows == states[j].rows
  {
    var id := AnswerAt(states, steps, i).value.id;
    assert StepAt(states, steps, i) && StepAt(states, steps, j);
    assert Has(states, i + 1, id) && Holds(states[i + 1].rows, id, channel) && Row(states, i + 1, id).tenant == steps[i].tenant;
    ChannelIsKept(states, steps, i + 1, j, id, channel);
    CallsOnlyProgress(states, steps, i + 1, j, id);
    ChannelsStayUnique(states, steps, j);
    assert Visible(states[j].rows, steps[j].tenant, id) && Holds(states[j].rows, id, channel);
    assert steps[j].newId !in states[j].rows;
    assert !ChannelFree(states[j].rows, steps[j].newId, steps[j].channel);
  }

  /** In a reachable state a creation is refused exactly when another tenant's call holds the channel. */
  lemma CreationRefusedIff(states: seq<Snapshot>, steps: seq<Step>, k: nat)
    requires IsRun(states, steps) && k < |steps| && steps[k].Create?
    ensures AnswerAt(states, steps, k).None? <==>
            steps[k].channel.Some?
            && exists x :: x in states[k].rows && Holds(states[k].rows, x, steps[k].channel.value)
                           && states[k].rows[x].tenant != steps[k].tenant
  {
    assert StepAt(states, steps, k);
    ChannelsStayUnique(states, steps, k);
  }

  // -- Ownership -------------------------------------------------------------------------------

  /** What a transition that names this runtime must meet to reassign the call, read before the step. */
  predicate Reassigns(rows: Table, step: Step, id: nat)
    requires id in rows
  {
    && step.Transition? && step.id == id && step.tenant == rows[id].tenant
    && step.newRuntime.Some? && step.newRuntime != rows[id].owner
    && (step.expected.Some? ==> step.expected == rows[id].owner)
    && step.target.Some? && IsValidTransition(rows[id].status, step.target.value)
    && ChannelFree(rows, id, step.channel)
  }

  /** A claim of ownership takes effect exactly on a call of its tenant that nobody owns. */
  predicate TakesOwnership(rows: Table, step: Step, id: nat)
    requires id in rows
  {
    step.ClaimOwnership? && step.id == id && step.tenant == rows[id].tenant && rows[id].owner.None?
  }

  /**
   Ownership: in every reachable state a step changes the owner of a call, owned or not, exactly when it
   claims a call that nobody owns, or is a transition of the call's tenant that names another runtime
   and passes the guards: the expected owner if it states one, the lifecycle and the channel.
   */
  lemma OwnerChangesIff(states: seq<Snapshot>, steps: seq<Step>, k: nat, id: nat)
    requires IsRun(states, steps) && k < |steps| && Has(states, k, id)
    ensures Has(states, k + 1, id)
    ensures Row(states, k + 1, id).owner != Row(states, k, id).owner <==>
            TakesOwnership(states[k].rows, steps[k], id) || Reassigns(states[k].rows, steps[k], id)
    ensures Row(states, k, id).owner.Some? ==> Row(states, k + 1, id).owner.Some?
  {
    assert StepAt(states, steps, k);
  }

  /** A run without any claim in which a transition gives an unowned call its owner. */
  lemma TransitionCanSetOwner() returns (states: seq<Snapshot>, steps: seq<Step>)
    ensures IsRun(states, steps) && |states| == 3 && Has(states, 1, 1) && Has(states, 2, 1)
    ensures forall k :: 0 <= k < |steps| ==> !steps[k].ClaimOwnership?
    ensures Row(states, 1, 1).owner == None && Row(states, 2, 1).owner == Some("b")
  {
    var c := NewCall(0, 0, 5, None);
    steps := [Create(0, 0, 1, 5, None), Transition(0, 0, 1, Some(Initiated), None, None, None, Some("b"), None)];
    states := [Snapshot(0, map[]), Snapshot(0, map[1 := c]),
               Snapshot(0, map[1 := c.(owner := Some("b"), assignedAt := Some(0))])];
    assert StepAt(states, steps, 0);
    assert StepAt(states, steps, 1);
  }

  /** A redelivered event that carries a runtime name hands an owned call to another runtime. */
  lemma RedeliveryCanReassign() returns (states: seq<Snapshot>, steps: seq<Step>)
    ensures IsRun(states, steps) && |states| == 4 && Has(states, 2, 1) && Has(states, 3, 1)
    ensures Row(states, 2, 1).owner == Some("a") && Row(states, 3, 1).owner == Some("b")
    ensures Row(states, 3, 1).status == Row(states, 2, 1).status
  {
    var c := NewCall(0, 0, 5, None);
    var owned := c.(owner := Some("a"), assignedAt := Some(0));
    steps := [Create(0, 0, 1, 5, None), ClaimOwnership(0, 0, 1, "a"),
              Transition(0, 0, 1, Some(Initiated), None, None, None, Some("b"), None)];
    states := [Snapshot(0, map[]), Snapshot(0, map[1 := c]), Snapshot(0, map[1 := owned]),
               Snapshot(0, map[1 := owned.(owner := Some("b"), assignedAt := Some(0))])];
    assert "a" != "b";
    assert StepAt(states, steps, 0);
    assert StepAt(states, steps, 1);
    assert StepAt(states, steps, 2);
  }

  /** Without such transitions the first owner stays, and every other runtime's claim is refused. */
  lemma {:induction false} OwnershipIsExclusive(states: seq<Snapshot>, steps: seq<Step>, i: nat, k: nat, id: nat)
    requires IsRun(states, steps) && i <= k < |states| && Has(states, i, id) && Row(states, i, id).owner.Some?
    requires forall m: nat :: i <= m < k ==> steps[m].Transition? && steps[m].id == id ==> steps[m].newRuntime.None?
    ensures Has(states, k, id) && Row(states, k, id).owner == Row(states, i, id).owner
    ensures Row(states, k, id).assignedAt == Row(states, i, id).assignedAt
    ensures k < |steps| && steps[k].ClaimOwnership? && steps[k].id == id && Some(steps[k].runtime) != Row(states, i, id).owner ==>
              AnswerAt(states, steps, k).None?
  {
    if i < k {
      OwnershipIsExclusive(states, steps, i, k - 1, id);
      assert StepAt(states, steps, k - 1);
    }
  }

  /** The ownership guard: a transition that expects another runtime than the owner changes nothing. */
  lemma GuardedTransitionNeedsOwner(rows: Table, step: Step, holder: Option<nat>)
    requires step.Transition? && step.expected.Some? && Perform(rows, step, holder).Ok?
    ensures Visible(rows, step.tenant, step.id) && rows[step.id].owner == step.expected
  {
  }

  // -- What each step answers and writes ------------------------------------------------------------

  /** Which changes of status there are: every edge goes forward from a call that has not ended. */
  lemma EdgesByTarget(current: Status, target: Status)
    ensures HasEdge(current, target) <==>
              && !(current == Completed || current == Failed || current == Interrupted)
              && match target
                 case Initiated => false
                 case Ringing => current == Initiated
                 case Answered => current == Initiated || current == Ringing
                 case InProgress => current == Answered
                 case Completed => current == Answered || current == InProgress
                 case Failed => true
                 case Interrupted => true
  {
  }

  /** A new call: initiated, unowned, started now; an answer without a new row names the tenant's call on the channel. */
  lemma CreatedCall(states: seq<Snapshot>, steps: seq<Step>, k: nat)
    requires IsRun(states, steps) && k < |steps| && steps[k].Create? && AnswerAt(states, steps, k).Some?
    ensures var answer, step, rows, rows' := AnswerAt(states, steps, k).value, steps[k], states[k].rows, states[k + 1].rows;
            if answer.won then
              && answer.id == step.newId && step.newId !in rows
              && rows' == rows[step.newId := Call(step.tenant, Initiated, step.channel, None, None, step.agentVersion, step.now,
                                                  None, None, None, None, None, None)]
              && (step.channel.Some? ==> forall x :: x in rows ==> rows[x].channel != step.channel)
            else
              && rows' == rows && step.channel.Some?
              && answer.id in rows && rows[answer.id].tenant == step.tenant && rows[answer.id].channel == step.channel
  {
    assert StepAt(states, steps, k);
    var step, rows := steps[k], states[k].rows;
    if AnswerAt(states, steps, k).value.won && step.channel.Some? {
      forall x | x in rows ensures rows[x].channel != step.channel {
        assert !Holds(rows, x, step.channel.value);
      }
    }
  }

  /** Activation wins exactly on the tenant's initiated call, which then rings; otherwise nothing changes. */
  lemma ActivatedCall(states: seq<Snapshot>, steps: seq<Step>, k: nat)
    requires IsRun(states, steps) && k < |steps| && steps[k].Activate?
    ensures var step, rows, rows' := steps[k], states[k].rows, states[k + 1].rows;
            var own := step.id in rows && rows[step.id].tenant == step.tenant;
            && (Perform(rows, step, HolderOf(rows, step)).Err? ==> Perform(rows, step, HolderOf(rows, step)).error == NotFound)
            && (AnswerAt(states, steps, k) == None <==> !own)
            && (own ==> AnswerAt(states, steps, k) == Some(Answer(step.id, rows[step.id].status == Initiated)))
            && rows' == if own && rows[step.id].status == Initiated then rows[step.id := rows[step.id].(status := Ringing)] else rows
  {
    assert StepAt(states, steps, k);
  }

  /**
   After an accepted claim of ownership the runtime that claimed owns the call, stamped with the time
   of the claim if the call was unowned and untouched if the runtime owned it already; the claim is
   refused exactly on a foreign call and on one that another runtime owns.
   */
  lemma ClaimedOwnership(states: seq<Snapshot>, steps: seq<Step>, k: nat)
    requires IsRun(states, steps) && k < |steps| && steps[k].ClaimOwnership?
    ensures var step, rows := steps[k], states[k].rows;
            match Perform(rows, step, HolderOf(rows, step))
            case Err(NotFound) => !(step.id in rows && rows[step.id].tenant == step.tenant)
            case Err(AlreadyOwned) =>
              && step.id in rows && rows[step.id].tenant == step.tenant
              && rows[step.id].owner.Some? && rows[step.id].owner.value != step.runtime
            case Err(_) => false
            case Ok((_, answer)) =>
              && step.id in rows && rows[step.id].tenant == step.tenant && answer == Answer(step.id, rows[step.id].owner == None)
              && step.id in states[k + 1].rows
              && states[k + 1].rows[step.id].owner == Some(step.runtime)
              && states[k + 1].rows == if answer.won then rows[step.id := rows[step.id].(owner := Some(step.runtime),
                                                                                          assignedAt := Some(step.now))]
                                       else rows
  {
    assert StepAt(states, steps, k);
  }

  /** The call that a transition leaves, by column. */
  ghost predicate TransitionWrote(c: Call, c': Call, step: Step)
    requires step.Transition? && step.target.Some?
  {
    var target := step.target.value;
    var ends := target == Completed || target == Failed || target == Interrupted;
    && c'.status == target
    && c'.tenant == c.tenant && c'.agentVersion == c.agentVersion && c'.startedAt == c.startedAt && c'.contact == c.contact
    && c'.channel == (if step.channel.Some? then step.channel else c.channel)
    && c'.owner == (if step.newRuntime.Some? then step.newRuntime else c.owner)
    && c'.assignedAt == (if step.newRuntime.Some? then Some(step.now) else c.assignedAt)
    && c'.answeredAt == (if c.answeredAt == None && c.status != target && (target == Answered || target == InProgress)
                         then Some(step.now) else c.answeredAt)
    && (ends && c.status != target ==>
          && c'.endedAt == Some(step.now) && c'.durationMs == Some((step.now - c.startedAt) / 1000)
          && c'.hangupCause == (if step.hangupCause.Some? then step.hangupCause else c.hangupCause)
          && c'.endReason == (if step.endReason.Some? then step.endReason else c.endReason))
    && (!ends || c.status == target ==>
          && c'.endedAt == c.endedAt && c'.durationMs == c.durationMs
          && c'.hangupCause == c.hangupCause && c'.endReason == c.endReason)
  }

  /** An accepted transition takes effect: the call has the target status, with the columns that go with it. */
  lemma TransitionedCall(states: seq<Snapshot>, steps: seq<Step>, k: nat)
    requires IsRun(states, steps) && k < |steps| && steps[k].Transition? && AnswerAt(states, steps, k).Some?
    ensures steps[k].target.Some? && Has(states, k, steps[k].id) && Has(states, k + 1, steps[k].id)
    ensures TransitionWrote(Row(states, k, steps[k].id), Row(states, k + 1, steps[k].id), steps[k])
    ensures AnswerAt(states, steps, k) ==
            Some(Answer(steps[k].id, Row(states, k, steps[k].id).status != steps[k].target.value))
  {
    assert StepAt(states, steps, k);
  }

  /** Why a transition is refused: the first guard that fails, in this order. */
  lemma TransitionRefusedIff(states: seq<Snapshot>, steps: seq<Step>, k: nat)
    requires IsRun(states, steps) && k < |steps| && steps[k].Transition?
    ensures var step, rows := steps[k], states[k].rows;
            var own := step.id in rows && rows[step.id].tenant == step.tenant;
            var owned := own && (step.expected == None || rows[step.id].owner == step.expected);
            var legal := owned && step.target.Some?
                         && (rows[step.id].status == step.target.value || HasEdge(rows[step.id].status, step.target.value));
            var clash := exists x :: x in rows && x != step.id && step.channel.Some? && rows[x].channel == step.channel;
            match Perform(rows, step, HolderOf(rows, step))
            case Ok(_) => legal && !clash
            case Err(NotFound) => step.target.Some? && !own
            case Err(OwnershipMismatch) => step.target.Some? && own && !owned
            case Err(InvalidTransition) => step.target == None || (owned && !legal)
            case Err(ChannelTaken) => legal && clash
            case Err(_) => false
  {
    var step, rows := steps[k], states[k].rows;
    if step.channel.Some? {
      assert forall x :: x in rows ==> (Holds(rows, x, step.channel.value) <==> rows[x].channel == step.channel);
    }
  }

  /** An association sets the contact and nothing else, for the tenant's own call and a contact that is found. */
  lemma AssociatedCall(states: seq<Snapshot>, steps: seq<Step>, k: nat)
    requires IsRun(states, steps) && k < |steps| && steps[k].Associate?
    ensures var step, rows := steps[k], states[k].rows;
            var own := step.id in rows && rows[step.id].tenant == step.tenant;
            match Perform(rows, step, HolderOf(rows, step))
            case Ok(_) =>
              own && step.contactFound && states[k + 1].rows == rows[step.id := rows[step.id].(contact := Some(step.contact))]
            case Err(NotFound) => !own
            case Err(ContactNotFound) => own && !step.contactFound
            case Err(_) => false
  {
    assert StepAt(states, steps, k);
  }

  /** No step changes a call it does not name, and a refused one changes none. */
  lemma OtherCallsUntouched(states: seq<Snapshot>, steps: seq<Step>, k: nat, id: nat)
    requires IsRun(states, steps) && k < |steps|
    requires AnswerAt(states, steps, k) == None || id != if steps[k].Create? then steps[k].newId else steps[k].id
    ensures Has(states, k, id) <==> Has(states, k + 1, id)
    ensures Has(states, k, id) ==> Row(states, k + 1, id) == Row(states, k, id)
  {
    assert StepAt(states, steps, k);
  }

  // -- The service -------------------------------------------------------------------------------

  class CallStore {
    var rows: Table

    constructor ()
      ensures rows == map[]
    {
      rows := map[];
    }

    method CreateCallSession(tenant: nat, now: int, newId: nat, agentVersion: nat, channel: Option<string>)
        returns (r: Result<nat, Error>, ghost holder: Option<nat>)
      requires newId !in rows
      modifies this
      ensures IsHolder(old(rows), tenant, channel, holder)
      ensures var step := Create(tenant, now, newId, agentVersion, channel);
              && rows == Apply(old(rows), step, holder)
              && r == match Perform(old(rows), step, holder)
                      case Ok((_, answer)) => Ok(answer.id)
                      case Err(e) => Err(e)
    {
      var known := FindByChannel(tenant, channel);
      holder := known;
      if channel.Some? && (exists x :: x in rows && rows[x].channel == channel) {
        assert exists x :: x in rows && Holds(rows, x, channel.value) && x != newId;
        // The unique index rejects the insert; the caller's own row, if that is the one, is returned.
        if known.Some? {
          return Ok(known.value), holder;
        }
        return Err(ChannelTaken), holder;
      }
      rows := rows[newId := NewCall(tenant, now, agentVersion, channel)];
      r := Ok(newId);
    }

    method FindByChannel(tenant: nat, channel: Option<string>) returns (found: Option<nat>)
      ensures IsHolder(rows, tenant, channel, found)
    {
      if channel.None? {
        return None;
      }
      var matches := set x | x in rows && rows[x].tenant == tenant && rows[x].channel == channel;
      if matches == {} {
        assert forall x :: x in rows && Visible(rows, tenant, x) && Holds(rows, x, channel.value) ==> x in matches;
        return None;
      }
      ghost var some := AnyOf(matches);
      assert some in matches;
      var id: nat :| id in matches;
      found := Some(id);
    }

    method ClaimCallForActivation(tenant: nat, now: int, id: nat) returns (r: Result<bool, Error>)
      modifies this
      ensures rows == Apply(old(rows), Activate(tenant, now, id), None)
      ensures r == match Perform(old(rows), Activate(tenant, now, id), None)
                   case Ok((_, answer)) => Ok(answer.won)
                   case Err(e) => Err(e)
    {
      if id !in rows || rows[id].tenant != tenant {
        return Err(NotFound);
      }
      var call := rows[id];
      if call.status != Initiated {
        return Ok(false);
      }
      rows := rows[id := call.(status := Ringing)];
      r := Ok(true);
    }

    method ClaimRuntimeOwnership(tenant: nat, now: int, id: nat, runtime: string) returns (r: Result<(), Error>)
      modifies this
      ensures rows == Apply(old(rows), ClaimOwnership(tenant, now, id, runtime), None)
      ensures var done := Perform(old(rows), ClaimOwnership(tenant, now, id, runtime), None);
              (r.Ok? <==> done.Ok?) && (r.Err? ==> r.error == done.error)
      ensures r.Ok? ==> id in rows && rows[id].owner == Some(runtime)
    {
      if id !in rows || rows[id].tenant != tenant {
        return Err(NotFound);
      }
      var call := rows[id];
      if call.owner == Some(runtime) {
        return Ok(());
      }
      if call.owner.Some? {
        return Err(AlreadyOwned);
      }
      call := call.(owner := Some(runtime));
      call := call.(assignedAt := Some(now));
      rows := rows[id := call];
      r := Ok(());
    }

    method MoveTo(row: Call, now: int, target: Status, hangupCause: Option<string>, endReason: Option<string>)
        returns (call: Call)
      ensures call == Moved(row, now, target, hangupCause, endReason)
    {
      call := row.(status := target);
      if (target == Answered || target == InProgress) && call.answeredAt.None? {
        call := call.(answeredAt := Some(now));
      }
      if Terminal(target) {
        call := call.(endedAt := Some(now));
        call := call.(durationMs := Some((now - call.startedAt) / 1000));
        if hangupCause.Some? {
          call := call.(hangupCause := hangupCause);
        }
        if endReason.Some? {
          call := call.(endReason := endReason);
        }
      }
    }

    method TransitionCallSession(tenant: nat, now: int, id: nat, target: Option<Status>, hangupCause: Option<string>,
                                 endReason: Option<string>, channel: Option<string>, runtime: Option<string>,
                                 expected: Option<string>) returns (r: Result<(), Error>)
      modifies this
      ensures var step := Transition(tenant, now, id, target, hangupCause, endReason, channel, runtime, expected);
              var done := Perform(old(rows), step, None);
              rows == Apply(old(rows), step, None) && (r.Ok? <==> done.Ok?) && (r.Err? ==> r.error == done.error)
    {
      if target.None? {
        return Err(InvalidTransition);
      }
      if id !in rows || rows[id].tenant != tenant {
        return Err(NotFound);
      }
      var call := rows[id];
      if expected.Some? && call.owner != expected {
        return Err(OwnershipMismatch);
      }
      if !IsValidTransition(call.status, target.value) {
        return Err(InvalidTransition);
      }
      var clash := channel.Some? && exists x :: x in rows && x != id && rows[x].channel == channel;
      assert clash <==> !ChannelFree(rows, id, channel) by {
        if channel.Some? {
          assert forall x :: x in rows ==> (Holds(rows, x, channel.value) <==> rows[x].channel == channel);
        }
      }
      if target.value != call.status {
        call := MoveTo(call, now, target.value, hangupCause, endReason);
      }
      if channel.Some? {
        call := call.(channel := channel);
      }
      if runtime.Some? {
        call := call.(owner := runtime);
        call := call.(assignedAt := Some(now));
      }
      if clash {
        return Err(ChannelTaken);
      }
      rows := rows[id := call];
      r := Ok(());
    }
  }
}
