/** The conversation log: exactly one turn per event and role out of at-least-once deliveries. */
module Conversations {
  import opened Wrappers

  datatype Role = System | User | Assistant | ToolCall | ToolResult

  /** A tool payload is known by the name it carries, if any. */
  datatype Payload = Payload(name: Option<string>)

  datatype Delivery = Delivery(eventId: string, role: Role, content: Option<string>, payload: Option<Payload>)

  /** One stored row. The table is a set: rows have no order of their own. */
  datatype Turn = Turn(call: nat, sequence: int, delivery: Delivery)

  type Table = set<Turn>

  datatype Error = CallNotFound | InvalidRole | PayloadShape

  /** The table's check on content and payload. */
  predicate WellShaped(d: Delivery) {
    if d.role.ToolCall? || d.role.ToolResult? then d.payload.Some?
    else d.content.Some? && d.payload.None?
  }

  predicate SameKey(a: Delivery, b: Delivery) {
    a.eventId == b.eventId && a.role == b.role
  }

  function TurnsOf(rows: Table, call: nat): Table {
    set t | t in rows && t.call == call
  }

  predicate Stored(rows: Table, call: nat, d: Delivery) {
    exists t :: t in TurnsOf(rows, call) && SameKey(t.delivery, d)
  }

  /** One past the greatest sequence number of the call. */
  ghost function NextSequence(rows: Table, call: nat): int {
    var used := set t | t in TurnsOf(rows, call) :: t.sequence;
    (if used == {} then -1 else Greatest(used)) + 1
  }

  datatype Step =
    | Persist(call: nat, found: bool, knownRole: bool, delivery: Delivery)
    | Delete(call: nat, found: bool)

  ghost function Apply(rows: Table, step: Step): Table {
    match step
    case Persist(call, found, knownRole, d) =>
      if !knownRole || !found || Stored(rows, call, d) || !WellShaped(d) then rows
      else rows + {Turn(call, NextSequence(rows, call), d)}
    case Delete(call, found) =>
      if found then rows - TurnsOf(rows, call) else rows
  }

  ghost function After(steps: seq<Step>): Table {
    if steps == [] then {} else Apply(After(steps[..|steps| - 1]), steps[|steps| - 1])
  }

  // -- What the log should be ------------------------------------------------------------

  predicate Mentions(log: seq<Delivery>, d: Delivery) {
    exists i :: 0 <= i < |log| && SameKey(log[i], d)
  }

  /** First delivery of every (event, role) that the table accepts, in order; a delete starts over. */
  ghost function Deduplicated(steps: seq<Step>, call: nat): seq<Delivery> {
    if steps == [] then []
    else
      var log, step := Deduplicated(steps[..|steps| - 1], call), steps[|steps| - 1];
      if step.call != call || !step.found then log
      else
        match step
        case Persist(_, _, knownRole, d) =>
          if knownRole && WellShaped(d) && !Mentions(log, d) then log + [d] else log
        case Delete(_, _) => []
  }

  /** The rows of the call are the log, numbered from zero. */
  ghost predicate Represents(rows: Table, call: nat, log: seq<Delivery>) {
    && (forall t :: t in rows && t.call == call ==> 0 <= t.sequence < |log| && log[t.sequence] == t.delivery)
    && (forall i :: 0 <= i < |log| ==> Turn(call, i, log[i]) in rows)
  }

  lemma RepresentedSequence(rows: Table, call: nat, log: seq<Delivery>)
    requires Represents(rows, call, log)
    ensures NextSequence(rows, call) == |log|
  {
    var used := set t | t in TurnsOf(rows, call) :: t.sequence;
    if log != [] {
      var last := Turn(call, |log| - 1, log[|log| - 1]);
      assert last in TurnsOf(rows, call) && last.sequence in used;
    } else {
      assert used == {};
    }
  }

  lemma RepresentedKeys(rows: Table, call: nat, log: seq<Delivery>, d: Delivery)
    requires Represents(rows, call, log)
    ensures Stored(rows, call, d) <==> Mentions(log, d)
  {
    if Mentions(log, d) {
      var i :| 0 <= i < |log| && SameKey(log[i], d);
      assert Turn(call, i, log[i]) in TurnsOf(rows, call);
    }
    if Stored(rows, call, d) {
      var t :| t in TurnsOf(rows, call) && SameKey(t.delivery, d);
      assert log[t.sequence] == t.delivery;
    }
  }

  lemma StepKeepsLog(rows: Table, step: Step, call: nat, log: seq<Delivery>)
    requires Represents(rows, call, log)
    ensures step.call != call ==> Represents(Apply(rows, step), call, log)
    ensures step.call == call && step.Persist? ==>
              Represents(Apply(rows, step), call,
                         if step.found && step.knownRole && WellShaped(step.delivery) && !Mentions(log, step.delivery)
                         then log + [step.delivery] else log)
    ensures step.call == call && step.Delete? ==>
              Represents(Apply(rows, step), call, if step.found then [] else log)
  {
    RepresentedSequence(rows, call, log);
    if step.Persist? {
      RepresentedKeys(rows, call, log, step.delivery);
    }
  }

  /**
   Exactly once: after any deliveries to any calls, repeated and interleaved in any way, and any
   deletions, the rows of a call are the deliveries to it since its last deletion, deduplicated by
   (event, role) in first-delivery order, numbered 0 to n - 1.
   */
  lemma {:induction false} LogIsDeduplicatedDeliveries(steps: seq<Step>, call: nat)
    ensures Represents(After(steps), call, Deduplicated(steps, call))
  {
    if steps != [] {
      var before := steps[..|steps| - 1];
      LogIsDeduplicatedDeliveries(before, call);
      StepKeepsLog(After(before), steps[|steps| - 1], call, Deduplicated(before, call));
    }
  }

  ghost predicate NoDuplicates(log: seq<Delivery>) {
    forall i, j :: 0 <= i < j < |log| ==> !SameKey(log[i], log[j])
  }

  lemma {:induction false} DeduplicatedHasNoDuplicates(steps: seq<Step>, call: nat)
    ensures NoDuplicates(Deduplicated(steps, call))
  {
    if steps != [] {
      DeduplicatedHasNoDuplicates(steps[..|steps| - 1], call);
      var log, log' := Deduplicated(steps[..|steps| - 1], call), Deduplicated(steps, call);
      forall i, j | 0 <= i < j < |log'| ensures !SameKey(log'[i], log'[j]) {
        if |log| < |log'| && j == |log| {
          assert log'[i] == log[i] && !Mentions(log, log'[j]);
          assert !SameKey(log[i], log'[j]);
        } else {
          assert log'[i] == log[i] && log'[j] == log[j];
          assert !SameKey(log[i], log[j]);
        }
      }
    }
  }

  /** An accepted delivery stays in the log until the call's turns are deleted. */
  lemma {:induction false} AcceptedDeliveryIsLogged(steps: seq<Step>, call: nat, k: nat)
    requires k < |steps| && steps[k].Persist? && steps[k].call == call
    requires steps[k].found && steps[k].knownRole && WellShaped(steps[k].delivery)
    requires forall m :: k < m < |steps| ==> !(steps[m].Delete? && steps[m].call == call && steps[m].found)
    ensures Mentions(Deduplicated(steps, call), steps[k].delivery)
  {
    var before, log := steps[..|steps| - 1], Deduplicated(steps[..|steps| - 1], call);
    var log' := Deduplicated(steps, call);
    if k < |before| {
      AcceptedDeliveryIsLogged(before, call, k);
      var i :| 0 <= i < |log| && SameKey(log[i], steps[k].delivery);
      assert log'[i] == log[i];
    } else if !Mentions(log, steps[k].delivery) {
      assert log'[|log|] == steps[k].delivery;
    }
  }

  /** Redelivering an accepted turn any time before a deletion leaves every row of every call as it is. */
  lemma RedeliveryIsInert(steps: seq<Step>, k: nat)
    requires k < |steps| && steps[k].Persist?
    requires steps[k].found && steps[k].knownRole && WellShaped(steps[k].delivery)
    requires forall m :: k < m < |steps| ==> !(steps[m].Delete? && steps[m].call == steps[k].call && steps[m].found)
    ensures After(steps + [steps[k]]) == After(steps)
  {
    var call := steps[k].call;
    assert (steps + [steps[k]])[..|steps|] == steps;
    AcceptedDeliveryIsLogged(steps, call, k);
    LogIsDeduplicatedDeliveries(steps, call);
    RepresentedKeys(After(steps), call, Deduplicated(steps, call), steps[k].delivery);
  }

  /** Listing a call's rows by ascending sequence yields the log itself. */
  lemma ListingIsLog(steps: seq<Step>, call: nat, listed: seq<Turn>)
    requires forall t :: t in listed <==> t in TurnsOf(After(steps), call)
    requires forall i, j :: 0 <= i < j < |listed| ==> listed[i].sequence < listed[j].sequence
    ensures |listed| == |Deduplicated(steps, call)|
    ensures forall i :: 0 <= i < |listed| ==> listed[i] == Turn(call, i, Deduplicated(steps, call)[i])
  {
    var rows, log := After(steps), Deduplicated(steps, call);
    LogIsDeduplicatedDeliveries(steps, call);
    var sequences := seq(|listed|, i requires 0 <= i < |listed| => listed[i].sequence);
    forall i | 0 <= i < |listed| ensures 0 <= sequences[i] < 0 + |log| {
      assert listed[i] in listed;
    }
    forall v | 0 <= v < 0 + |log| ensures v in sequences {
      assert Turn(call, v, log[v]) in listed;
      var i :| 0 <= i < |listed| && listed[i] == Turn(call, v, log[v]);
      assert sequences[i] == v;
    }
    IncreasingFill(sequences, 0, |log|);
    forall i | 0 <= i < |listed| ensures listed[i] == Turn(call, i, log[i]) {
      assert sequences[i] == i && listed[i] in listed;
    }
  }

  // -- The key, column by column --------------------------------------------------------------

  /** The call has a stored turn of this event in this role. */
  ghost predicate HasTurn(rows: Table, call: nat, eventId: string, role: Role) {
    exists t :: t in rows && t.call == call && t.delivery.eventId == eventId && t.delivery.role == role
  }

  /** Every accepted delivery that no later deletion removed has its own turn, with its event and its role. */
  lemma AcceptedDeliveryHasTurn(steps: seq<Step>, call: nat, k: nat)
    requires k < |steps| && steps[k].Persist? && steps[k].call == call
    requires steps[k].found && steps[k].knownRole && WellShaped(steps[k].delivery)
    requires forall m :: k < m < |steps| ==> !(steps[m].Delete? && steps[m].call == call && steps[m].found)
    ensures HasTurn(After(steps), call, steps[k].delivery.eventId, steps[k].delivery.role)
  {
    var log := Deduplicated(steps, call);
    AcceptedDeliveryIsLogged(steps, call, k);
    LogIsDeduplicatedDeliveries(steps, call);
    var i :| 0 <= i < |log| && SameKey(log[i], steps[k].delivery);
    assert Turn(call, i, log[i]) in After(steps);
  }

  /** Two turns of a call differ in event or role, and in sequence number. */
  lemma TurnsDiffer(steps: seq<Step>, s: Turn, t: Turn)
    requires s in After(steps) && t in After(steps) && s.call == t.call
    requires s.sequence == t.sequence || (s.delivery.eventId == t.delivery.eventId && s.delivery.role == t.delivery.role)
    ensures s == t
  {
    LogIsDeduplicatedDeliveries(steps, s.call);
    DeduplicatedHasNoDuplicates(steps, s.call);
  }

  /**
   What a delivery does to the rows: nothing if its event and role are stored, if the call or role is
   unknown or if content and payload do not fit the role; otherwise it becomes the call's next turn.
   */
  lemma DeliveryEffect(steps: seq<Step>, step: Step)
    requires step.Persist?
    ensures var rows, d := After(steps), step.delivery;
            var tool := d.role == ToolCall || d.role == ToolResult;
            var fits := if tool then d.payload != None else d.content != None && d.payload == None;
            After(steps + [step]) ==
            if step.knownRole && step.found && fits && !HasTurn(rows, step.call, d.eventId, d.role)
            then rows + {Turn(step.call, |set t | t in rows && t.call == step.call|, d)} else rows
  {
    var rows, log := After(steps), Deduplicated(steps, step.call);
    assert (steps + [step])[..|steps|] == steps;
    LogIsDeduplicatedDeliveries(steps, step.call);
    RepresentedSequence(rows, step.call, log);
    LogSize(rows, step.call, log);
    assert TurnsOf(rows, step.call) == set t | t in rows && t.call == step.call;
    assert Stored(rows, step.call, step.delivery) <==> HasTurn(rows, step.call, step.delivery.eventId, step.delivery.role) by {
      if HasTurn(rows, step.call, step.delivery.eventId, step.delivery.role) {
        var t :| t in rows && t.call == step.call && t.delivery.eventId == step.delivery.eventId && t.delivery.role == step.delivery.role;
        assert t in TurnsOf(rows, step.call) && SameKey(t.delivery, step.delivery);
      }
    }
  }

  /** A deletion removes the turns of its call and no other. */
  lemma DeletionEffect(steps: seq<Step>, step: Step, t: Turn)
    requires step.Delete?
    ensures t in After(steps + [step]) <==> t in After(steps) && !(step.found && t.call == step.call)
  {
    assert (steps + [step])[..|steps|] == steps;
  }

  // -- Counters -----------------------------------------------------------------------------

  /** Which turns a counter of the call analysis counts. */
  datatype Counter = AllTurns | OfRole(role: Role) | ToolNamed(name: string)

  predicate Counts(c: Counter, d: Delivery) {
    match c
    case AllTurns => true
    case OfRole(role) => d.role == role
    case ToolNamed(name) => d.role == ToolCall && d.payload.Some? && d.payload.value.name == Some(name)
  }

  function CountRows(rows: Table, call: nat, c: Counter): nat {
    |set t | t in rows && t.call == call && Counts(c, t.delivery)|
  }

  ghost function CountLog(log: seq<Delivery>, c: Counter): nat {
    if log == [] then 0
    else CountLog(log[..|log| - 1], c) + if Counts(c, log[|log| - 1]) then 1 else 0
  }

  lemma WithoutLastRow(rows: Table, call: nat, log: seq<Delivery>) returns (fewer: Table)
    requires Represents(rows, call, log) && log != []
    ensures Represents(fewer, call, log[..|log| - 1])
    ensures forall t :: t in rows && t.call == call <==>
                        (t in fewer && t.call == call) || t == Turn(call, |log| - 1, log[|log| - 1])
    ensures Turn(call, |log| - 1, log[|log| - 1]) !in fewer
  {
    fewer := rows - {Turn(call, |log| - 1, log[|log| - 1])};
  }

  lemma {:induction false} RowCountIsLogCount(rows: Table, call: nat, log: seq<Delivery>, c: Counter)
    requires Represents(rows, call, log)
    ensures CountRows(rows, call, c) == CountLog(log, c)
    decreases |log|
  {
    var counted := set t | t in rows && t.call == call && Counts(c, t.delivery);
    if log == [] {
      assert counted == {};
    } else {
      var fewer := WithoutLastRow(rows, call, log);
      RowCountIsLogCount(fewer, call, log[..|log| - 1], c);
      CountLastRow(rows, fewer, call, Turn(call, |log| - 1, log[|log| - 1]), c);
    }
  }

  lemma CountLastRow(rows: Table, fewer: Table, call: nat, last: Turn, c: Counter)
    requires last.call == call && last !in fewer
    requires forall t :: t in rows && t.call == call <==> (t in fewer && t.call == call) || t == last
    ensures CountRows(rows, call, c) == CountRows(fewer, call, c) + if Counts(c, last.delivery) then 1 else 0
  {
    var counted := set t | t in rows && t.call == call && Counts(c, t.delivery);
    var counted' := set t | t in fewer && t.call == call && Counts(c, t.delivery);
    assert counted == if Counts(c, last.delivery) then counted' + {last} else counted';
  }

  /** What the call analysis stores: the derived columns, taken from four sources. */
  datatype FollowUp = FollowUp(appointment: bool, open: bool)
  datatype CallFacts = CallFacts(durationMs: Option<int>, contactAssociated: bool, outcome: Option<string>,
                                 followUps: seq<FollowUp>)
  datatype Analysis = Analysis(turns: nat, user: nat, assistant: nat, toolCalls: nat, toolResults: nat,
                               transfer: bool, hold: bool, durationMs: Option<int>, contactAssociated: bool,
                               outcome: Option<string>, followUps: nat, appointments: nat, openFollowUps: nat)

  function CountFollowUps(followUps: seq<FollowUp>, appointments: bool): nat {
    if followUps == [] then 0
    else
      var f := followUps[|followUps| - 1];
      CountFollowUps(followUps[..|followUps| - 1], appointments)
      + if (if appointments then f.appointment else f.open) then 1 else 0
  }

  ghost function Marked(followUps: seq<FollowUp>, appointments: bool, n: nat): set<int>
    requires n <= |followUps|
  {
    set i | 0 <= i < n && (if appointments then followUps[i].appointment else followUps[i].open)
  }

  lemma MarkedStep(followUps: seq<FollowUp>, appointments: bool, n: nat)
    requires n < |followUps|
    ensures |Marked(followUps, appointments, n + 1)| ==
            |Marked(followUps, appointments, n)|
            + if (if appointments then followUps[n].appointment else followUps[n].open) then 1 else 0
  {
    assert Marked(followUps, appointments, n + 1) ==
           Marked(followUps, appointments, n)
           + if (if appointments then followUps[n].appointment else followUps[n].open) then {n} else {};
  }

  lemma {:induction false} CountIsMarked(followUps: seq<FollowUp>, appointments: bool, n: nat)
    requires n <= |followUps|
    ensures CountFollowUps(followUps[..n], appointments) == |Marked(followUps, appointments, n)|
  {
    if n == 0 {
      assert Marked(followUps, appointments, n) == {};
    } else {
      CountIsMarked(followUps, appointments, n - 1);
      MarkedStep(followUps, appointments, n - 1);
      assert followUps[..n][..n - 1] == followUps[..n - 1];
    }
  }

  lemma FollowUpsCounted(followUps: seq<FollowUp>)
    ensures CountFollowUps(followUps, true) == |set i | 0 <= i < |followUps| && followUps[i].appointment|
    ensures CountFollowUps(followUps, false) == |set i | 0 <= i < |followUps| && followUps[i].open|
  {
    CountIsMarked(followUps, true, |followUps|);
    CountIsMarked(followUps, false, |followUps|);
    assert followUps[..|followUps|] == followUps;
    assert Marked(followUps, true, |followUps|) == set i | 0 <= i < |followUps| && followUps[i].appointment;
    assert Marked(followUps, false, |followUps|) == set i | 0 <= i < |followUps| && followUps[i].open;
  }

  /** A stored turn of the call is a call of this tool. */
  ghost predicate CalledTool(rows: Table, call: nat, name: string) {
    exists t :: t in rows && t.call == call && t.delivery.role == ToolCall
                && t.delivery.payload.Some? && t.delivery.payload.value.name == Some(name)
  }

  lemma ToolCounted(rows: Table, call: nat, name: string)
    ensures CountRows(rows, call, ToolNamed(name)) > 0 <==> CalledTool(rows, call, name)
  {
    var counted := set t | t in rows && t.call == call && Counts(ToolNamed(name), t.delivery);
    if counted != {} {
      var t := AnyOf(counted);
      assert t in rows && t.call == call && t.delivery.role == ToolCall;
    }
    if CalledTool(rows, call, name) {
      var t :| t in rows && t.call == call && t.delivery.role == ToolCall
               && t.delivery.payload.Some? && t.delivery.payload.value.name == Some(name);
      assert t in counted;
    }
  }

  lemma RolesCounted(rows: Table, call: nat)
    ensures |TurnsOf(rows, call)| == |set t | t in rows && t.call == call|
    ensures forall role :: CountRows(rows, call, OfRole(role)) == |set t | t in rows && t.call == call && t.delivery.role == role|
  {
    assert TurnsOf(rows, call) == set t | t in rows && t.call == call;
    forall role
      ensures CountRows(rows, call, OfRole(role)) == |set t | t in rows && t.call == call && t.delivery.role == role|
    {
      assert (set t | t in rows && t.call == call && Counts(OfRole(role), t.delivery)) ==
             set t | t in rows && t.call == call && t.delivery.role == role;
    }
  }

  /** The derived columns of a call whose log and facts are these. */
  ghost function Derived(log: seq<Delivery>, facts: CallFacts): Analysis {
    Analysis(|log|, CountLog(log, OfRole(User)), CountLog(log, OfRole(Assistant)),
             CountLog(log, OfRole(ToolCall)), CountLog(log, OfRole(ToolResult)),
             CountLog(log, ToolNamed("call.transfer")) > 0, CountLog(log, ToolNamed("call.hold")) > 0,
             facts.durationMs, facts.contactAssociated, facts.outcome,
             |facts.followUps|, CountFollowUps(facts.followUps, true), CountFollowUps(facts.followUps, false))
  }

  lemma {:induction false} CountsAdd(log: seq<Delivery>)
    ensures CountLog(log, AllTurns) == |log|
    ensures CountLog(log, OfRole(System)) + CountLog(log, OfRole(User)) + CountLog(log, OfRole(Assistant))
            + CountLog(log, OfRole(ToolCall)) + CountLog(log, OfRole(ToolResult)) == |log|
  {
    if log != [] {
      CountsAdd(log[..|log| - 1]);
    }
  }

  lemma LogSize(rows: Table, call: nat, log: seq<Delivery>)
    requires Represents(rows, call, log)
    ensures |TurnsOf(rows, call)| == |log|
  {
    RowCountIsLogCount(rows, call, log, AllTurns);
    CountsAdd(log);
    assert TurnsOf(rows, call) == set t | t in rows && t.call == call && Counts(AllTurns, t.delivery);
  }

  // -- The services ----------------------------------------------------------------------------

  class ConversationStore {
    var rows: Table
    var analyses: map<nat, Analysis>

    constructor ()
      ensures rows == {} && analyses == map[]
    {
      rows := {};
      analyses := map[];
    }

    method PersistConversationTurn(call: nat, found: bool, knownRole: bool, delivery: Delivery)
        returns (r: Result<Turn, Error>)
      modifies this`rows
      ensures rows == Apply(old(rows), Persist(call, found, knownRole, delivery))
      ensures r == Err(InvalidRole) <==> !knownRole
      ensures r == Err(CallNotFound) <==> knownRole && !found
      ensures r == Err(PayloadShape) <==>
                && knownRole && found && !HasTurn(old(rows), call, delivery.eventId, delivery.role)
                && (if delivery.role == ToolCall || delivery.role == ToolResult then delivery.payload == None
                    else delivery.content == None || delivery.payload != None)
      ensures r.Ok? ==>
                && r.value in rows && r.value.call == call
                && r.value.delivery.eventId == delivery.eventId && r.value.delivery.role == delivery.role
      ensures r.Ok? && HasTurn(old(rows), call, delivery.eventId, delivery.role) ==> rows == old(rows)
      ensures r.Ok? && !HasTurn(old(rows), call, delivery.eventId, delivery.role) ==>
                r.value.delivery == delivery && rows == old(rows) + {r.value} && r.value !in old(rows)
    {
      if !knownRole {
        return Err(InvalidRole);
      }
      if !found {
        return Err(CallNotFound);
      }
      var existing := set t | t in rows && t.call == call && SameKey(t.delivery, delivery);
      if existing != {} {
        ghost var some := AnyOf(existing);
        assert some in TurnsOf(rows, call) && SameKey(some.delivery, delivery);
        var turn :| turn in existing;
        return Ok(turn);
      }
      assert forall t :: t in TurnsOf(rows, call) && SameKey(t.delivery, delivery) ==> t in existing;
      assert forall t :: t in rows && t.call == call && t.delivery.eventId == delivery.eventId && t.delivery.role == delivery.role ==>
               t in existing;
      var sequences := set t | t in TurnsOf(rows, call) :: t.sequence;
      var next := 0;
      if sequences != {} {
        next := Max(sequences) + 1;
        assert Max(sequences) == Greatest(sequences);
      }
      if !WellShaped(delivery) {
        return Err(PayloadShape);
      }
      var turn := Turn(call, next, delivery);
      rows := rows + {turn};
      r := Ok(turn);
    }

    method DeleteConversationTurns(call: nat, found: bool) returns (r: Result<nat, Error>)
      modifies this`rows
      ensures rows == Apply(old(rows), Delete(call, found))
      ensures r == if found then Ok(|set t | t in old(rows) && t.call == call|) else Err(CallNotFound)
      ensures forall t :: t in rows <==> t in old(rows) && !(found && t.call == call)
    {
      if !found {
        return Err(CallNotFound);
      }
      var existing := set t | t in rows && t.call == call;
      if existing == {} {
        assert TurnsOf(rows, call) == existing;
        return Ok(0);
      }
      rows := set t | t in rows && t.call != call;
      r := Ok(|existing|);
    }

    /**
     Build or refresh the analysis of a call. If the rows are the log of some deliveries, the stored
     columns are those derived from that log, so a rebuild with nothing changed in between stores the
     same columns again.
     */
    method BuildCallAnalysis(call: nat, found: bool, facts: CallFacts, ghost steps: seq<Step>)
        returns (r: Result<Analysis, Error>)
      requires rows == After(steps)
      modifies this`analyses
      ensures r == if found then Ok(Derived(Deduplicated(steps, call), facts)) else Err(CallNotFound)
      ensures analyses == if found then old(analyses)[call := Derived(Deduplicated(steps, call), facts)] else old(analyses)
      ensures r.Ok? ==>
                && r.value.turns == |set t | t in rows && t.call == call|
                && r.value.user == |set t | t in rows && t.call == call && t.delivery.role == User|
                && r.value.assistant == |set t | t in rows && t.call == call && t.delivery.role == Assistant|
                && r.value.toolCalls == |set t | t in rows && t.call == call && t.delivery.role == ToolCall|
                && r.value.toolResults == |set t | t in rows && t.call == call && t.delivery.role == ToolResult|
      ensures r.Ok? ==>
                && (r.value.transfer <==> CalledTool(rows, call, "call.transfer"))
                && (r.value.hold <==> CalledTool(rows, call, "call.hold"))
      ensures r.Ok? ==>
                && r.value.durationMs == facts.durationMs && r.value.contactAssociated == facts.contactAssociated
                && r.value.outcome == facts.outcome && r.value.followUps == |facts.followUps|
                && r.value.appointments == |set i | 0 <= i < |facts.followUps| && facts.followUps[i].appointment|
                && r.value.openFollowUps == |set i | 0 <= i < |facts.followUps| && facts.followUps[i].open|
    {
      if !found {
        return Err(CallNotFound);
      }
      var turns := TurnsOf(rows, call);
      ghost var log := Deduplicated(steps, call);
      LogIsDeduplicatedDeliveries(steps, call);
      LogSize(rows, call, log);
      RowCountIsLogCount(rows, call, log, OfRole(User));
      RowCountIsLogCount(rows, call, log, OfRole(Assistant));
      RowCountIsLogCount(rows, call, log, OfRole(ToolCall));
      RowCountIsLogCount(rows, call, log, OfRole(ToolResult));
      RowCountIsLogCount(rows, call, log, ToolNamed("call.transfer"));
      RowCountIsLogCount(rows, call, log, ToolNamed("call.hold"));
      var transfer := CountRows(rows, call, ToolNamed("call.transfer")) > 0;
      var hold := CountRows(rows, call, ToolNamed("call.hold")) > 0;
      var values := Analysis(|turns|, CountRows(rows, call, OfRole(User)), CountRows(rows, call, OfRole(Assistant)),
                             CountRows(rows, call, OfRole(ToolCall)), CountRows(rows, call, OfRole(ToolResult)),
                             transfer, hold, facts.durationMs, facts.contactAssociated, facts.outcome,
                             |facts.followUps|, CountFollowUps(facts.followUps, true),
                             CountFollowUps(facts.followUps, false));
      RolesCounted(rows, call);
      ToolCounted(rows, call, "call.transfer");
      ToolCounted(rows, call, "call.hold");
      FollowUpsCounted(facts.followUps);
      analyses := analyses[call := values];
      r := Ok(values);
    }
  }
}
