/** Follow-up actions of a call: creation, scheduled execution, and the operators' own transitions. */
module FollowUps {
  import opened Wrappers
  import opened RetryPolicy
  import opened LeaseProtocol
  import opened LeaseRuns
  import opened LeaseFairness
  import opened LeaseTable
  import opened LeaseWorker
  import Calendar

  datatype FollowUpType = AppointmentType | ContactType | ManualType

  /** The only type with an execution service behind it. */
  predicate ExecutableType(kind: FollowUpType) {
    kind.AppointmentType?
  }

  /** The columns no step changes after creation. */
  datatype Info = Info(call: nat, kind: FollowUpType, dueAt: Option<int>, calendarEventId: Option<nat>)

  datatype FollowUpError =
    | InvalidRelationship | CallNotFound | ContactNotFound | EventNotFound
    | RequiresCalendarEvent | BookingRefused(refusal: Calendar.Error) | Lease(error: Error)

  /** What the lookups of a creation find: the call, a contact if one was named, and the contact to book for. */
  datatype Lookups = Lookups(callFound: bool, contactOk: bool, contactFound: bool)

  /** The calendar, start and end of a new appointment. */
  datatype Appointment = Appointment(calendar: nat, startAt: int, endAt: int)

  /** What a caller asks for; `contact` is the one named, or else the call's. */
  datatype Wish = Wish(call: nat, kind: FollowUpType, dueAt: Option<int>, calendarEventId: Option<nat>,
                       appointment: Option<Appointment>, contact: Option<nat>, title: string)

  /** The calendar service's answer about the linked event, or any exception but not-found. */
  datatype EventLookup = Missing | Broken | Found(cancelled: bool)

  /** What the lookup of an event in the calendar's tables finds, unless it raises something else. */
  function LookupOf(calendar: Calendar.State, tenant: nat, event: nat, broken: bool): EventLookup {
    if broken then Broken
    else if !Calendar.OwnsEvent(calendar, tenant, event) then Missing
    else Found(calendar.events[event].status.Cancelled?)
  }

  /** The tenant's event exists and is scheduled. */
  predicate StillStands(calendar: Calendar.State, tenant: nat, event: nat) {
    Calendar.OwnsEvent(calendar, tenant, event) && calendar.events[event].status.Scheduled?
  }

  predicate DescribesRow(i: Info, executable: bool) {
    && (executable <==> ExecutableType(i.kind))
    && (i.calendarEventId.Some? <==> i.kind.AppointmentType?)
  }

  /** Every row has its fixed columns. */
  ghost predicate Matches(info: map<nat, Info>, rows: Table) {
    && info.Keys == rows.Keys
    && forall id :: id in info ==> DescribesRow(info[id], rows[id].executable)
  }

  // -- Rows others create meanwhile ------------------------------------------------------------

  function CreatedIds(steps: seq<Step>): set<nat> {
    set k | 0 <= k < |steps| && steps[k].Create? :: steps[k].id
  }

  /** The fixed columns of the rows these steps create. */
  predicate Describes(created: map<nat, Info>, steps: seq<Step>) {
    && created.Keys == CreatedIds(steps)
    && forall k :: 0 <= k < |steps| && steps[k].Create? ==>
         steps[k].id in created && DescribesRow(created[steps[k].id], steps[k].executable)
  }

  lemma {:induction false} RowsAfterOthers(rows: Table, steps: seq<Step>)
    requires AllAddressed(FOLLOW_UP_POLICY, rows, steps)
    ensures var rows' := After(FOLLOW_UP_POLICY, rows, steps);
            && rows'.Keys == rows.Keys + CreatedIds(steps)
            && (forall x :: x in rows ==> rows'[x].executable == rows[x].executable)
            && forall k :: 0 <= k < |steps| && steps[k].Create? ==> rows'[steps[k].id].executable == steps[k].executable
  {
    if steps == [] {
      assert CreatedIds(steps) == {};
    } else {
      var before, step := steps[..|steps| - 1], steps[|steps| - 1];
      RowsAfterOthers(rows, before);
      var middle, rows' := After(FOLLOW_UP_POLICY, rows, before), After(FOLLOW_UP_POLICY, rows, steps);
      assert CreatedIds(steps) == CreatedIds(before) + if step.Create? then {step.id} else {} by {
        assert steps == before + [step];
        assert step.Create? ==> steps[|before|].id in CreatedIds(steps);
        forall x | x in CreatedIds(before) ensures x in CreatedIds(steps) {
          var k :| 0 <= k < |before| && before[k].Create? && before[k].id == x;
          assert steps[k].Create? && steps[k].id == x;
        }
      }
      OneStepRows(middle, step);
      forall k | 0 <= k < |steps| && steps[k].Create? ensures rows'[steps[k].id].executable == steps[k].executable {
        if k < |before| {
          assert before[k].Create? && before[k].id in CreatedIds(before);
        }
      }
    }
  }

  lemma OneStepRows(rows: Table, step: Step)
    requires Addressed(rows, step)
    ensures var rows' := Apply(FOLLOW_UP_POLICY, rows, step);
            && rows'.Keys == rows.Keys + (if step.Create? then {step.id} else {})
            && (forall x :: x in rows ==> rows'[x].executable == rows[x].executable)
            && (step.Create? ==> rows'[step.id].executable == step.executable)
  {
  }

  class FollowUpService {
    const jobs: JobTable
    var info: map<nat, Info>

    ghost predicate Valid()
      reads this, jobs
    {
      jobs.policy == FOLLOW_UP_POLICY && Matches(info, jobs.rows)
    }

    constructor ()
      ensures Valid() && fresh(jobs) && info == map[] && jobs.rows == map[]
    {
      jobs := new JobTable(FOLLOW_UP_POLICY);
      info := map[];
    }

    /**
     An appointment gets a calendar event, an existing one of the tenant or one booked in the calendar,
     and a deadline if it is due at some time; every other type gets neither. Nothing is stored when
     any check fails, and nothing is booked unless it is stored.
     */
    method CreateFollowUp(calendars: Calendar.CalendarService, tenant: nat, now: int, id: nat, w: Wish, newEvent: nat, found: Lookups)
        returns (r: Result<nat, FollowUpError>)
      requires Valid() && id !in jobs.rows
      modifies this, jobs, calendars`events
      ensures Valid()
      ensures r == Err(InvalidRelationship) <==> !w.kind.AppointmentType? && w.calendarEventId.Some?
      ensures r == Err(CallNotFound) <==> (w.kind.AppointmentType? || w.calendarEventId.None?) && !found.callFound
      ensures r == Err(ContactNotFound) <==>
                (w.kind.AppointmentType? || w.calendarEventId.None?) && found.callFound && !found.contactOk
      ensures r == Err(EventNotFound) <==>
                && w.kind.AppointmentType? && w.calendarEventId.Some? && found.callFound && found.contactOk
                && !(w.calendarEventId.value in old(calendars.events) && old(calendars.events)[w.calendarEventId.value].tenant == tenant)
      ensures r == Err(RequiresCalendarEvent) <==>
                && w.kind.AppointmentType? && w.calendarEventId.None? && found.callFound && found.contactOk
                && w.appointment.None?
      ensures r.Err? && r.error.BookingRefused? <==>
                && w.kind.AppointmentType? && w.calendarEventId.None? && found.callFound && found.contactOk
                && w.appointment.Some?
                && Calendar.Perform(old(calendars.Now()),
                                    Calendar.Book(tenant, newEvent, w.appointment.value.calendar, w.title,
                                                  w.appointment.value.startAt, w.appointment.value.endAt,
                                                  w.contact, found.contactFound)).Err?
      ensures r.Err? && r.error.BookingRefused? ==>
                Calendar.Perform(old(calendars.Now()),
                                 Calendar.Book(tenant, newEvent, w.appointment.value.calendar, w.title,
                                               w.appointment.value.startAt, w.appointment.value.endAt,
                                               w.contact, found.contactFound)) == Err(r.error.refusal)
      ensures r.Err? ==>
                && !r.error.Lease?
                && jobs.rows == old(jobs.rows) && info == old(info) && calendars.Now() == old(calendars.Now())
      ensures r.Ok? ==>
                && r.value == id
                && jobs.rows == old(jobs.rows)[id := Job(tenant, w.kind.AppointmentType?, Pending, 0,
                                                         if w.kind.AppointmentType? then w.dueAt else None, None, None, None, None)]
                && info == old(info)[id := Info(w.call, w.kind, w.dueAt,
                                                if w.calendarEventId.Some? then w.calendarEventId
                                                else if w.kind.AppointmentType? then Some(newEvent) else None)]
                && calendars.calendars == old(calendars.calendars)
                && calendars.events ==
                   if w.kind.AppointmentType? && w.calendarEventId.None? then
                     old(calendars.events)[newEvent := Calendar.Event(tenant, w.appointment.value.calendar, w.contact, w.title,
                                                                      w.appointment.value.startAt, w.appointment.value.endAt,
                                                                      Calendar.Scheduled)]
                   else old(calendars.events)
    {
      if w.kind != AppointmentType && w.calendarEventId.Some? {
        return Err(InvalidRelationship);
      }
      if !found.callFound {
        return Err(CallNotFound);
      }
      if !found.contactOk {
        return Err(ContactNotFound);
      }
      var resolved := w.calendarEventId;
      if w.kind == AppointmentType && resolved.None? {
        if w.appointment.None? {
          return Err(RequiresCalendarEvent);
        }
        var a := w.appointment.value;
        var booked := calendars.CreateEvent(tenant, newEvent, a.calendar, w.title, a.startAt, a.endAt, w.contact, found.contactFound);
        if booked.Err? {
          return Err(BookingRefused(booked.error));
        }
        resolved := Some(booked.value);
      } else if resolved.Some? {
        if resolved.value !in calendars.events || calendars.events[resolved.value].tenant != tenant {
          return Err(EventNotFound);
        }
      }
      jobs.Insert(tenant, now, id, ExecutableType(w.kind), w.dueAt);
      info := info[id := Info(w.call, w.kind, w.dueAt, resolved)];
      r := Ok(id);
    }

    method Transition(tenant: nat, now: int, id: nat, cancel: bool) returns (r: Result<(), FollowUpError>)
      requires Valid()
      modifies jobs
      ensures Valid()
      ensures var done := Perform(FOLLOW_UP_POLICY, old(jobs.rows), Close(tenant, now, id, cancel));
              && (r.Ok? <==> done.Ok?) && (r.Err? ==> r.error == Lease(done.error))
              && jobs.rows == Apply(FOLLOW_UP_POLICY, old(jobs.rows), Close(tenant, now, id, cancel))
      ensures r.Ok? ==> id in jobs.rows && jobs.rows[id].status == if cancel then Cancelled else Completed
    {
      var target := if cancel then Cancelled else Completed;
      if id !in jobs.rows || jobs.rows[id].tenant != tenant {
        return Err(Lease(NotFound));
      }
      var row := jobs.rows[id];
      if !IsValidTransition(row.status, target) {
        return Err(Lease(InvalidTransition));
      }
      if row.status != target {
        row := row.(status := target);
        if Terminal(target) {
          row := row.(nextAttemptAt := None);
        }
      }
      jobs.rows := jobs.rows[id := row];
      r := Ok(());
    }

    method ReprocessFollowUp(tenant: nat, now: int, id: nat) returns (r: Result<(), FollowUpError>)
      requires Valid()
      modifies jobs
      ensures Valid()
      ensures var done := Perform(FOLLOW_UP_POLICY, old(jobs.rows), Reprocess(tenant, now, id));
              && (r.Ok? <==> done.Ok?) && (r.Err? ==> r.error == Lease(done.error))
              && jobs.rows == Apply(FOLLOW_UP_POLICY, old(jobs.rows), Reprocess(tenant, now, id))
    {
      if id !in jobs.rows || jobs.rows[id].tenant != tenant {
        return Err(Lease(NotFound));
      }
      var row := jobs.rows[id];
      if row.status != Failed || row.attemptCount >= FOLLOW_UP_POLICY.maxAttempts {
        return Err(Lease(NotRetryable));
      }
      row := row.(nextAttemptAt := Some(now));
      jobs.rows := jobs.rows[id := row];
      r := Ok(());
    }

    /**
     Claim the most overdue follow-up and confirm its calendar event, the one on its own row, in the
     calendar as it is then. When the outcome is recorded, the row is completed exactly when the event
     still stands, and otherwise failed with the reason that tells a missing, a cancelled and an
     unreadable event apart; when it is refused, somebody else had taken the row out of flight.
     `created` describes the rows others create between the claim and the outcome.
     */
    method ExecuteDueFollowUp(tenant: nat, now: int, locked: set<nat>, newId: nat, between: seq<Step>,
                              created: map<nat, Info>, calendar: Calendar.State, broken: bool, later: int)
        returns (r: Execution, ghost performed: seq<Step>)
      requires Valid() && Describes(created, between)
      requires OthersAddressed(FOLLOW_UP_POLICY, jobs.rows, tenant, Circumstances(now, locked, newId, between, Escape, later))
      modifies this, jobs
      ensures Valid()
      ensures Executes(FOLLOW_UP_POLICY, old(jobs.rows), tenant,
                       Circumstances(now, locked, newId, between, VerdictAt(old(info), calendar, tenant, broken, r), later),
                       r, performed, jobs.rows)
      ensures info == if r.NothingDue? then old(info) else old(info) + created
      ensures !r.NothingDue? ==>
                && r.id in old(info) && old(info)[r.id].calendarEventId.Some?
                && r.id in jobs.rows && jobs.rows[r.id].status != Processing
      ensures r.Executed? ==> Confirms(jobs.rows[r.id], calendar, tenant, old(info)[r.id].calendarEventId.value, broken)
      ensures r.Raised? ==> r.error == Some(Conflict)
    {
      ghost var before := jobs.rows;
      var pick := jobs.ClaimDue(tenant, now, locked, newId);
      if pick.None? {
        return NothingDue, [];
      }
      r, performed := FinishFollowUp(before, tenant, now, locked, newId, pick.value, between, created, calendar, broken, later);
    }

    /** The rest of an execution whose claim took row `id` of the table `before`. */
    method FinishFollowUp(ghost before: Table, tenant: nat, now: int, locked: set<nat>, newId: nat, id: nat, between: seq<Step>,
                          created: map<nat, Info>, calendar: Calendar.State, broken: bool, later: int)
        returns (r: Execution, ghost performed: seq<Step>)
      requires jobs.policy == FOLLOW_UP_POLICY && Matches(info, before) && Describes(created, between)
      requires OthersAddressed(FOLLOW_UP_POLICY, before, tenant, Circumstances(now, locked, newId, between, Escape, later))
      requires PickOk(before, tenant, now, locked, Some(id))
      requires jobs.rows == Apply(FOLLOW_UP_POLICY, before, Claim(tenant, now, locked, Some(id), newId))
      modifies this, jobs
      ensures Valid() && info == old(info) + created
      ensures !r.NothingDue? && r.id == id && id in old(info) && old(info)[id].calendarEventId.Some?
      ensures Executes(FOLLOW_UP_POLICY, before, tenant,
                       Circumstances(now, locked, newId, between, VerdictAt(old(info), calendar, tenant, broken, r), later),
                       r, performed, jobs.rows)
      ensures id in jobs.rows && jobs.rows[id].status != Processing
      ensures r.Executed? ==> Confirms(jobs.rows[id], calendar, tenant, old(info)[id].calendarEventId.value, broken)
      ensures r.Raised? ==> r.error == Some(Conflict)
    {
      assert DescribesRow(info[id], before[id].executable);
      var event := info[id].calendarEventId.value;
      var lookup := LookupOf(calendar, tenant, event, broken);
      var c := Circumstances(now, locked, newId, between, VerdictOf(lookup), later);
      SameOthers(before, tenant, Circumstances(now, locked, newId, between, Escape, later), c);
      r, performed := jobs.FinishDue(before, tenant, id, c);
      info := info + created;
      StillMatches(before, tenant, c, id, performed, old(info), created);
      if r.Executed? {
        ExecutionConfirms(before, tenant, c, r, performed, jobs.rows, calendar, event, broken);
      }
    }
  }

  /** The row tells what the lookup of its event found. */
  predicate Confirms(row: Job, calendar: Calendar.State, tenant: nat, event: nat, broken: bool) {
    && (row.status == Completed <==> !broken && StillStands(calendar, tenant, event))
    && (row.status == Failed <==> broken || !StillStands(calendar, tenant, event))
    && (row.failureReason == Some(UnexpectedError) <==> broken)
    && (row.failureReason == Some(CalendarEventNotFound) <==> !broken && !Calendar.OwnsEvent(calendar, tenant, event))
    && (row.failureReason == Some(CalendarEventCancelled) <==>
          !broken && Calendar.OwnsEvent(calendar, tenant, event) && !StillStands(calendar, tenant, event))
  }

  lemma SameOthers(rows: Table, tenant: nat, a: Circumstances, b: Circumstances)
    requires OthersAddressed(FOLLOW_UP_POLICY, rows, tenant, a)
    requires b == a.(verdict := b.verdict)
    ensures OthersAddressed(FOLLOW_UP_POLICY, rows, tenant, b)
  {
    assert forall x :: ClaimStep(tenant, a, x) == ClaimStep(tenant, b, x);
  }

  lemma OutcomeConfirms(rows: Table, tenant: nat, id: nat, execution: nat, c: Circumstances,
                        calendar: Calendar.State, event: nat, broken: bool)
    requires c.verdict == VerdictOf(LookupOf(calendar, tenant, event, broken))
    requires Perform(FOLLOW_UP_POLICY, rows, OutcomeStep(tenant, id, execution, c)).Ok?
    ensures var rows' := Apply(FOLLOW_UP_POLICY, rows, OutcomeStep(tenant, id, execution, c));
            id in rows' && Confirms(rows'[id], calendar, tenant, event, broken)
  {
  }

  /** An accepted outcome tells whether the event stood when the driver looked. */
  lemma ExecutionConfirms(before: Table, tenant: nat, c: Circumstances, r: Execution, work: seq<Step>, after: Table,
                          calendar: Calendar.State, event: nat, broken: bool)
    requires Executes(FOLLOW_UP_POLICY, before, tenant, c, r, work, after) && r.Executed?
    requires c.verdict == VerdictOf(LookupOf(calendar, tenant, event, broken))
    ensures r.id in after && Confirms(after[r.id], calendar, tenant, event, broken)
  {
    var execution := Identity(FOLLOW_UP_POLICY, before, c, r.id);
    ThreePhases(FOLLOW_UP_POLICY, before, ClaimStep(tenant, c, r.id), c.between, OutcomeStep(tenant, r.id, execution, c));
    OutcomeConfirms(BeforeOutcome(FOLLOW_UP_POLICY, before, tenant, c, r.id), tenant, r.id, execution, c, calendar, event, broken);
  }

  lemma RowsAfterExecution(before: Table, tenant: nat, c: Circumstances, id: nat, performed: seq<Step>)
    requires id in before && performed == WorkSteps(FOLLOW_UP_POLICY, before, tenant, c, id)
    requires AllAddressed(FOLLOW_UP_POLICY, before, performed)
    ensures CreatedIds(performed) == CreatedIds(c.between)
    ensures var rows := After(FOLLOW_UP_POLICY, before, performed);
            && rows.Keys == before.Keys + CreatedIds(c.between)
            && (forall x :: x in before ==> rows[x].executable == before[x].executable)
            && forall k :: 0 <= k < |c.between| && c.between[k].Create? ==>
                 rows[c.between[k].id].executable == c.between[k].executable
  {
    RowsAfterOthers(before, performed);
    assert |performed| == |c.between| + 2;
    assert !performed[0].Create? && !performed[|performed| - 1].Create?;
    forall k | 0 <= k < |c.between| ensures performed[k + 1] == c.between[k] {
    }
    forall x ensures x in CreatedIds(performed) <==> x in CreatedIds(c.between) {
      if x in CreatedIds(performed) {
        var k :| 0 <= k < |performed| && performed[k].Create? && performed[k].id == x;
        assert c.between[k - 1].Create? && c.between[k - 1].id == x;
      }
      if x in CreatedIds(c.between) {
        var k :| 0 <= k < |c.between| && c.between[k].Create? && c.between[k].id == x;
        assert performed[k + 1].Create? && performed[k + 1].id == x;
      }
    }
    forall k | 0 <= k < |c.between| && c.between[k].Create?
      ensures After(FOLLOW_UP_POLICY, before, performed)[c.between[k].id].executable == c.between[k].executable
    {
      assert performed[k + 1].Create?;
    }
  }

  lemma StillMatches(before: Table, tenant: nat, c: Circumstances, id: nat, performed: seq<Step>,
                     info: map<nat, Info>, created: map<nat, Info>)
    requires Matches(info, before) && Describes(created, c.between)
    requires id in before && performed == WorkSteps(FOLLOW_UP_POLICY, before, tenant, c, id)
    requires AllAddressed(FOLLOW_UP_POLICY, before, performed)
    ensures Matches(info + created, After(FOLLOW_UP_POLICY, before, performed))
  {
    RowsAfterExecution(before, tenant, c, id, performed);
    var info', rows := info + created, After(FOLLOW_UP_POLICY, before, performed);
    forall x | x in info' ensures DescribesRow(info'[x], rows[x].executable) {
      if x in created {
        var k :| 0 <= k < |c.between| && c.between[k].Create? && c.between[k].id == x;
      }
    }
  }

  /** The verdict on the row the execution took: what the lookup of that row's own event says. */
  function VerdictAt(info: map<nat, Info>, calendar: Calendar.State, tenant: nat, broken: bool, r: Execution): Verdict {
    if r.NothingDue? || r.id !in info || info[r.id].calendarEventId.None? then Escape
    else VerdictOf(LookupOf(calendar, tenant, info[r.id].calendarEventId.value, broken))
  }

  function VerdictOf(lookup: EventLookup): Verdict {
    match lookup
    case Missing => Report(CalendarEventNotFound)
    case Broken => Report(UnexpectedError)
    case Found(cancelled) => if cancelled then Report(CalendarEventCancelled) else Succeed
  }

  /**
   The driver, asked for an event that was scheduled when the calendar had seen `k` of the steps,
   lets the follow-up succeed exactly if nobody has cancelled the event since.
   */
  lemma SucceedsIffNotCancelled(steps: seq<Calendar.Step>, k: nat, tenant: nat, event: nat)
    requires Calendar.AllNewIds(steps) && k <= |steps| && StillStands(Calendar.After(steps[..k]), tenant, event)
    ensures VerdictOf(LookupOf(Calendar.After(steps), tenant, event, false)) ==
            if Calendar.CancelledSince(steps, k, tenant, event) then Report(CalendarEventCancelled) else Succeed
  {
    Calendar.StandsIffNotCancelled(steps, k, event);
  }

  // -- The driver under the polling worker ---------------------------------------------------------

  /** The worker's verdict on any row it may claim is the driver's, on that row's own event. */
  ghost predicate Drives(i: Input, info: map<nat, Info>, tenant: nat, calendar: Calendar.State, broken: bool) {
    forall id :: id in info && info[id].calendarEventId.Some? ==>
      i.verdict(id) == VerdictOf(LookupOf(calendar, tenant, info[id].calendarEventId.value, broken))
  }

  /**
   Every execution of every tick of a poll, in any interleaving, leaves its row out of flight. An
   accepted outcome tells what the calendar held, and a tick ends with an error only because somebody
   else had taken its row out of flight.
   */
  lemma PolledFollowUpConfirms(start: Table, run: seq<Step>, tenants: seq<nat>, limit: nat, inputs: seq<seq<Input>>,
                               schedule: seq<Move>, workers: seq<Worker>, tracks: seq<Track>, i: nat, k: nat,
                               info: map<nat, Info>, calendar: Calendar.State, broken: bool)
    requires Polling(FOLLOW_UP_POLICY, start, run, tenants, limit, inputs, schedule, workers, tracks)
    requires AllAddressed(FOLLOW_UP_POLICY, start, run) && i < |tenants| && k < |tracks[i].log|
    requires var r := tracks[i].log[k].result; !r.NothingDue? && r.id in info && info[r.id].calendarEventId.Some?
    requires k < |inputs[i]| && Drives(inputs[i][k], info, tenants[i], calendar, broken)
    ensures var turn := tracks[i].log[k];
            && turn.result.id in turn.after && turn.after[turn.result.id].status != Processing
            && (turn.result.Executed? ==>
                  Confirms(turn.after[turn.result.id], calendar, tenants[i], info[turn.result.id].calendarEventId.value, broken))
            && (turn.result.Raised? ==> turn.result.error == Some(Conflict))
  {
    var turn, c := tracks[i].log[k], tracks[i].slots[k].c;
    var event := info[turn.result.id].calendarEventId.value;
    TurnOfPoll(FOLLOW_UP_POLICY, start, run, tenants, limit, inputs, schedule, workers, tracks, i, k);
    FinishedOutOfFlight(FOLLOW_UP_POLICY, turn.before, tenants[i], c, turn.result, turn.work, turn.after);
    if turn.result.Executed? {
      ExecutionConfirms(turn.before, tenants[i], c, turn.result, turn.work, turn.after, calendar, event, broken);
    }
  }

  // -- Runs ------------------------------------------------------------------------------------------

  /** The guarantees hold on after an execution among the steps of others, of whatever run came before. */
  lemma ExecutionKeepsGuarantees(states: seq<Snapshot>, steps: seq<Step>, tenant: nat, c: Circumstances,
                                 r: Execution, work: seq<Step>, after: Table, id: nat) returns (states': seq<Snapshot>)
    requires IsRun(FOLLOW_UP_POLICY, states, steps)
    requires Executes(FOLLOW_UP_POLICY, states[|steps|].rows, tenant, c, r, work, after) && id in after
    requires Ordered(states[|steps|].clock, work)
    requires !r.NothingDue? ==>
               AllObey(FOLLOW_UP_POLICY, Apply(FOLLOW_UP_POLICY, states[|steps|].rows, ClaimStep(tenant, c, r.id)), c.between)
    ensures IsRun(FOLLOW_UP_POLICY, states', steps + work) && states <= states' && states'[|steps + work|].rows == after
    ensures var t := TallyUpTo(FOLLOW_UP_POLICY, states', steps + work, |steps + work|, id);
            t.failures <= 5 && t.completions <= 1 && after[id].attemptCount <= 5 + t.expired
  {
    states' := ExecutionContinues(FOLLOW_UP_POLICY, states, steps, tenant, c, r, work, after);
    assert Has(states', |steps + work|, id);
    FollowUpGuarantees(states', steps + work, |steps + work|, id);
  }

  /** The protocol's guarantees with the follow-up constants. */
  lemma FollowUpGuarantees(states: seq<Snapshot>, steps: seq<Step>, k: nat, id: nat)
    requires IsRun(FOLLOW_UP_POLICY, states, steps) && Has(states, k, id)
    ensures var t := TallyUpTo(FOLLOW_UP_POLICY, states, steps, k, id);
            t.failures <= 5 && t.completions <= 1 && Row(states, k, id).attemptCount <= 5 + t.expired
  {
    BoundedRetries(FOLLOW_UP_POLICY, states, steps, k, id);
  }

  /** The vocabulary of failure reasons. */
  lemma FollowUpReasons(reason: Reason)
    ensures reason in FOLLOW_UP_POLICY.reasons <==>
            || reason == CalendarEventNotFound || reason == CalendarEventCancelled
            || reason == MaxAttemptsExceeded || reason == UnexpectedError
  {
  }

  /** A claim leases the row for five minutes and keeps the reason of the last failure. */
  lemma FollowUpClaim(states: seq<Snapshot>, steps: seq<Step>, k: nat, id: nat)
    requires IsRun(FOLLOW_UP_POLICY, states, steps) && k < |steps| && Claims(steps[k], id)
    ensures Has(states, k, id) && Has(states, k + 1, id)
    ensures Row(states, k + 1, id).nextAttemptAt == Some(steps[k].now + 300)
    ensures Row(states, k + 1, id).failureReason == Row(states, k, id).failureReason
  {
    ClaimedRow(FOLLOW_UP_POLICY, states, steps, k, id);
  }

  /** A recorded failure is retried after 1, 2, 4 and 8 minutes; the fifth claim and any later one is the last. */
  lemma FollowUpFailure(states: seq<Snapshot>, steps: seq<Step>, k: nat, id: nat)
    requires IsRun(FOLLOW_UP_POLICY, states, steps) && k < |steps| && steps[k].Fail?
    requires RecordsOutcome(FOLLOW_UP_POLICY, states[k].rows, steps[k], id)
    ensures Has(states, k, id) && Has(states, k + 1, id) && Row(states, k, id).attemptCount >= 1
    ensures var a := Row(states, k, id).attemptCount;
            Row(states, k + 1, id).nextAttemptAt ==
            if a >= 5 then None
            else Some(steps[k].now + if a == 1 then 60 else if a == 2 then 120 else if a == 3 then 240 else 480)
  {
    FinishedRow(FOLLOW_UP_POLICY, states, steps, k, id);
    DelaySchedules(Row(states, k, id).attemptCount);
    BackoffDoublesUpToCap(FOLLOW_UP_POLICY, Row(states, k, id).attemptCount);
  }

  lemma FollowUpLeases(states: seq<Snapshot>, steps: seq<Step>, i: nat, j: nat, id: nat)
    requires IsRun(FOLLOW_UP_POLICY, states, steps) && i < j < |steps|
    requires Has(states, i, id) && Claims(steps[i], id) && Claims(steps[j], id)
    requires forall m :: i < m < j ==> !RecordsOutcome(FOLLOW_UP_POLICY, states[m].rows, steps[m], id)
    ensures steps[j].now >= steps[i].now + 300
  {
    LeaseExclusion(FOLLOW_UP_POLICY, states, steps, i, j, id);
  }
}
