/** The booking calendar: conflict check, availability, cancellation and the agenda listing. */
module Calendar {
  import opened Wrappers

  datatype Status = Scheduled | Cancelled

  datatype Event = Event(tenant: nat, calendar: nat, contact: Option<nat>, title: string,
                         startAt: int, endAt: int, status: Status)

  /** `calendars` gives each calendar's tenant. */
  datatype State = State(calendars: map<nat, nat>, events: map<nat, Event>)

  datatype Error = InvalidInterval | CalendarNotFound | ContactNotFound | EventNotFound | EventConflict

  datatype Step =
    | AddCalendar(tenant: nat, newId: nat)
    | Book(tenant: nat, newId: nat, calendar: nat, title: string, startAt: int, endAt: int,
           contact: Option<nat>, contactFound: bool)
    | Cancel(tenant: nat, id: nat)

  /** Half-open intervals that share an instant, when both are valid. */
  predicate Overlaps(e: Event, startAt: int, endAt: int) {
    e.startAt < endAt && e.endAt > startAt
  }

  predicate Clashes(s: State, tenant: nat, calendar: nat, startAt: int, endAt: int, id: nat) {
    && id in s.events
    && s.events[id].tenant == tenant
    && s.events[id].calendar == calendar
    && s.events[id].status.Scheduled?
    && Overlaps(s.events[id], startAt, endAt)
  }

  predicate NoClash(s: State, tenant: nat, calendar: nat, startAt: int, endAt: int) {
    forall id :: id in s.events ==> !Clashes(s, tenant, calendar, startAt, endAt, id)
  }

  predicate OwnsCalendar(s: State, tenant: nat, calendar: nat) {
    calendar in s.calendars && s.calendars[calendar] == tenant
  }

  predicate OwnsEvent(s: State, tenant: nat, id: nat) {
    id in s.events && s.events[id].tenant == tenant
  }

  function NewEvent(step: Step): Event
    requires step.Book?
  {
    Event(step.tenant, step.calendar, step.contact, step.title, step.startAt, step.endAt, Scheduled)
  }

  function Perform(s: State, step: Step): Result<State, Error> {
    match step
    case AddCalendar(tenant, newId) => Ok(s.(calendars := s.calendars[newId := tenant]))
    case Book(tenant, newId, calendar, _, startAt, endAt, contact, contactFound) =>
      if !(startAt < endAt) then Err(InvalidInterval)
      else if !OwnsCalendar(s, tenant, calendar) then Err(CalendarNotFound)
      else if contact.Some? && !contactFound then Err(ContactNotFound)
      else if !NoClash(s, tenant, calendar, startAt, endAt) then Err(EventConflict)
      else Ok(s.(events := s.events[newId := NewEvent(step)]))
    case Cancel(tenant, id) =>
      if !OwnsEvent(s, tenant, id) then Err(EventNotFound)
      else Ok(s.(events := s.events[id := s.events[id].(status := Cancelled)]))
  }

  function Apply(s: State, step: Step): State {
    match Perform(s, step)
    case Ok(s') => s'
    case Err(_) => s
  }

  function After(steps: seq<Step>): State {
    if steps == [] then State(map[], map[]) else Apply(After(steps[..|steps| - 1]), steps[|steps| - 1])
  }

  ghost predicate NewIds(s: State, step: Step) {
    && (step.AddCalendar? ==> step.newId !in s.calendars)
    && (step.Book? ==> step.newId !in s.events)
  }

  /** Identifiers of new rows are new. */
  ghost predicate AllNewIds(steps: seq<Step>) {
    steps == [] || (AllNewIds(steps[..|steps| - 1]) && NewIds(After(steps[..|steps| - 1]), steps[|steps| - 1]))
  }

  // -- Safety --------------------------------------------------------------------------------

  predicate Apart(a: Event, b: Event) {
    a.endAt <= b.startAt || b.endAt <= a.startAt
  }

  /** Both scheduled, on one calendar. */
  predicate Compete(a: Event, b: Event) {
    a.status.Scheduled? && b.status.Scheduled? && a.calendar == b.calendar
  }

  /** Events are valid intervals on a calendar of their tenant, and a calendar is never double booked. */
  ghost predicate Safe(s: State) {
    && (forall id :: id in s.events ==>
          s.events[id].startAt < s.events[id].endAt && OwnsCalendar(s, s.events[id].tenant, s.events[id].calendar))
    && (forall x, y :: x in s.events && y in s.events && x != y && Compete(s.events[x], s.events[y]) ==>
          Apart(s.events[x], s.events[y]))
  }

  lemma StepKeepsSafe(s: State, step: Step)
    requires Safe(s) && NewIds(s, step)
    ensures Safe(Apply(s, step))
  {
    if step.Book? && Perform(s, step).Ok? {
      forall x | x in s.events && s.events[x].status.Scheduled? && s.events[x].calendar == step.calendar
        ensures Apart(s.events[x], NewEvent(step))
      {
        assert !Clashes(s, step.tenant, step.calendar, step.startAt, step.endAt, x);
      }
    }
  }

  /** After any interleaving of bookings and cancellations by any tenants. */
  lemma {:induction false} NeverDoubleBooked(steps: seq<Step>)
    requires AllNewIds(steps)
    ensures Safe(After(steps))
  {
    if steps != [] {
      NeverDoubleBooked(steps[..|steps| - 1]);
      StepKeepsSafe(After(steps[..|steps| - 1]), steps[|steps| - 1]);
    }
  }

  // -- Availability is about instants -----------------------------------------------------------

  predicate Occupies(s: State, calendar: nat, at: int, id: nat) {
    && id in s.events
    && s.events[id].status.Scheduled?
    && s.events[id].calendar == calendar
    && s.events[id].startAt <= at < s.events[id].endAt
  }

  ghost predicate Covered(s: State, calendar: nat, at: int) {
    exists id :: Occupies(s, calendar, at, id)
  }

  ghost predicate FreeThroughout(s: State, calendar: nat, startAt: int, endAt: int) {
    forall at :: startAt <= at < endAt ==> !Covered(s, calendar, at)
  }

  /** The conflict query finds nothing if and only if no instant of the interval is taken. */
  lemma NoClashIffFree(s: State, tenant: nat, calendar: nat, startAt: int, endAt: int)
    requires Safe(s) && OwnsCalendar(s, tenant, calendar) && startAt < endAt
    ensures NoClash(s, tenant, calendar, startAt, endAt) <==> FreeThroughout(s, calendar, startAt, endAt)
  {
    if !NoClash(s, tenant, calendar, startAt, endAt) {
      var id :| id in s.events && Clashes(s, tenant, calendar, startAt, endAt, id);
      var e := s.events[id];
      var at := if e.startAt < startAt then startAt else e.startAt;
      assert startAt <= at < endAt && Occupies(s, calendar, at, id);
      assert Covered(s, calendar, at);
    } else {
      assert forall at, id :: startAt <= at < endAt && Occupies(s, calendar, at, id) ==>
          Clashes(s, tenant, calendar, startAt, endAt, id);
    }
  }

  lemma BookingSucceedsIff(s: State, step: Step)
    requires Safe(s) && step.Book?
    ensures Perform(s, step).Ok? <==>
              && step.startAt < step.endAt
              && OwnsCalendar(s, step.tenant, step.calendar)
              && (step.contact.Some? ==> step.contactFound)
              && FreeThroughout(s, step.calendar, step.startAt, step.endAt)
  {
    if step.startAt < step.endAt && OwnsCalendar(s, step.tenant, step.calendar) {
      NoClashIffFree(s, step.tenant, step.calendar, step.startAt, step.endAt);
    }
  }

  lemma OneEventPerInstant(s: State, calendar: nat, at: int, x: nat, y: nat)
    requires Safe(s) && Occupies(s, calendar, at, x) && Occupies(s, calendar, at, y)
    ensures x == y
  {
    assert x != y ==> Apart(s.events[x], s.events[y]);
  }

  /** A booking takes exactly its own instants, a cancellation of a scheduled event frees exactly its own. */
  lemma CoverageChanges(s: State, step: Step, calendar: nat, at: int)
    requires Safe(s) && NewIds(s, step)
    ensures step.Book? && Perform(s, step).Ok? ==>
              (Covered(Apply(s, step), calendar, at) <==>
               Covered(s, calendar, at) || (calendar == step.calendar && step.startAt <= at < step.endAt))
    ensures step.Cancel? && Perform(s, step).Ok? ==>
              (Covered(Apply(s, step), calendar, at) <==>
               Covered(s, calendar, at) && !Occupies(s, calendar, at, step.id))
    ensures step.AddCalendar? || Perform(s, step).Err? ==>
              (Covered(Apply(s, step), calendar, at) <==> Covered(s, calendar, at))
  {
    var s' := Apply(s, step);
    if step.Cancel? && OwnsEvent(s, step.tenant, step.id) {
      assert forall x :: Occupies(s', calendar, at, x) <==> Occupies(s, calendar, at, x) && x != step.id;
      forall x | Occupies(s, calendar, at, x) && Occupies(s, calendar, at, step.id) ensures x == step.id {
        OneEventPerInstant(s, calendar, at, x, step.id);
      }
    } else if step.Book? && Perform(s, step).Ok? {
      assert forall x :: x != step.newId ==> (Occupies(s', calendar, at, x) <==> Occupies(s, calendar, at, x));
      assert Occupies(s', calendar, at, step.newId) <==> calendar == step.calendar && step.startAt <= at < step.endAt;
    } else {
      assert s'.events == s.events;
      assert forall x :: Occupies(s', calendar, at, x) <==> Occupies(s, calendar, at, x);
    }
  }

  /** Cancelling an event always makes room for the same booking again. */
  lemma CancelThenRebook(s: State, id: nat, newId: nat)
    requires Safe(s) && id in s.events && s.events[id].status.Scheduled? && newId !in s.events
    ensures var e := s.events[id];
            Perform(Apply(s, Cancel(e.tenant, id)),
                    Book(e.tenant, newId, e.calendar, e.title, e.startAt, e.endAt, e.contact, true)).Ok?
  {
    var e := s.events[id];
    var s' := Apply(s, Cancel(e.tenant, id));
    StepKeepsSafe(s, Cancel(e.tenant, id));
    forall at | e.startAt <= at < e.endAt ensures !Covered(s', e.calendar, at) {
      assert Occupies(s, e.calendar, at, id);
      CoverageChanges(s, Cancel(e.tenant, id), e.calendar, at);
    }
    BookingSucceedsIff(s', Book(e.tenant, newId, e.calendar, e.title, e.startAt, e.endAt, e.contact, true));
  }

  lemma CancelIsIdempotent(s: State, tenant: nat, id: nat)
    ensures Apply(Apply(s, Cancel(tenant, id)), Cancel(tenant, id)) == Apply(s, Cancel(tenant, id))
    ensures Perform(s, Cancel(tenant, id)).Ok? ==> Perform(Apply(s, Cancel(tenant, id)), Cancel(tenant, id)).Ok?
  {
    if OwnsEvent(s, tenant, id) {
      var once := Apply(s, Cancel(tenant, id));
      assert once.events[id := once.events[id].(status := Cancelled)] == once.events;
    }
  }

  // -- What each step answers and writes -----------------------------------------------------------

  /** A scheduled event of this tenant and calendar shares an instant with the half-open interval. */
  ghost predicate Busy(s: State, tenant: nat, calendar: nat, startAt: int, endAt: int) {
    exists x :: x in s.events && s.events[x].tenant == tenant && s.events[x].calendar == calendar
                && s.events[x].status == Scheduled && s.events[x].startAt < endAt && startAt < s.events[x].endAt
  }

  /** A booking stores the event as asked; it is refused by the first check that fails, and then stores nothing. */
  lemma BookingEffect(s: State, step: Step)
    requires step.Book?
    ensures var valid := step.startAt < step.endAt;
            var own := step.calendar in s.calendars && s.calendars[step.calendar] == step.tenant;
            var contact := step.contact == None || step.contactFound;
            var busy := Busy(s, step.tenant, step.calendar, step.startAt, step.endAt);
            match Perform(s, step)
            case Ok(s') =>
              && valid && own && contact && !busy && s'.calendars == s.calendars
              && s'.events == s.events[step.newId := Event(step.tenant, step.calendar, step.contact, step.title,
                                                           step.startAt, step.endAt, Scheduled)]
            case Err(InvalidInterval) => !valid
            case Err(CalendarNotFound) => valid && !own
            case Err(ContactNotFound) => valid && own && !contact
            case Err(EventConflict) => valid && own && contact && busy
            case Err(_) => false
    ensures Perform(s, step).Err? ==> Apply(s, step) == s
  {
    assert NoClash(s, step.tenant, step.calendar, step.startAt, step.endAt) <==>
           !Busy(s, step.tenant, step.calendar, step.startAt, step.endAt) by {
      if Busy(s, step.tenant, step.calendar, step.startAt, step.endAt) {
        var x :| x in s.events && s.events[x].tenant == step.tenant && s.events[x].calendar == step.calendar
                 && s.events[x].status == Scheduled && s.events[x].startAt < step.endAt && step.startAt < s.events[x].endAt;
        assert Clashes(s, step.tenant, step.calendar, step.startAt, step.endAt, x);
      }
    }
  }

  /** A cancellation marks the tenant's event and changes nothing else; any other event is not found. */
  lemma CancellationEffect(s: State, tenant: nat, id: nat)
    ensures var own := id in s.events && s.events[id].tenant == tenant;
            && (Perform(s, Cancel(tenant, id)) == Err(EventNotFound) <==> !own)
            && (Perform(s, Cancel(tenant, id)).Ok? <==> own)
            && Apply(s, Cancel(tenant, id)) ==
               if own then State(s.calendars, s.events[id := s.events[id].(status := Cancelled)]) else s
  {
  }

  /** A new calendar is its tenant's. */
  lemma CalendarAdded(s: State, tenant: nat, newId: nat)
    ensures Perform(s, AddCalendar(tenant, newId)) == Ok(State(s.calendars[newId := tenant], s.events))
  {
  }

  // -- History ------------------------------------------------------------------------------------

  /** An event is never deleted or rescheduled, and once cancelled it stays as it is. */
  lemma {:induction false} EventsPersist(steps: seq<Step>, k: nat, id: nat)
    requires AllNewIds(steps) && k <= |steps| && id in After(steps[..k]).events
    ensures id in After(steps).events
    ensures var e, e' := After(steps[..k]).events[id], After(steps).events[id];
            e' == e || e' == e.(status := Cancelled)
  {
    if k == |steps| {
      assert steps[..k] == steps;
    } else {
      var before := steps[..|steps| - 1];
      assert before[..k] == steps[..k];
      EventsPersist(before, k, id);
    }
  }

  /** A cancellation of this event among the steps from the `k`-th on, by the event's own tenant. */
  predicate CancelledSince(steps: seq<Step>, k: nat, tenant: nat, id: nat)
    requires k <= |steps|
  {
    Cancel(tenant, id) in steps[k..]
  }

  /** A scheduled event still stands exactly if its tenant has not cancelled it since, whatever else was booked or cancelled. */
  lemma {:induction false} StandsIffNotCancelled(steps: seq<Step>, k: nat, id: nat)
    requires AllNewIds(steps) && k <= |steps|
    requires id in After(steps[..k]).events && After(steps[..k]).events[id].status.Scheduled?
    ensures var tenant := After(steps[..k]).events[id].tenant;
            && OwnsEvent(After(steps), tenant, id)
            && (After(steps).events[id].status.Scheduled? <==> !CancelledSince(steps, k, tenant, id))
  {
    if k == |steps| {
      assert steps[..k] == steps;
    } else {
      var before := steps[..|steps| - 1];
      assert before[..k] == steps[..k];
      StandsIffNotCancelled(before, k, id);
      assert steps[k..] == before[k..] + [steps[|steps| - 1]];
    }
  }

  /**
   Taking the check and the insert of two bookings apart: if both checks see one table and both
   inserts follow, the calendar stays safe exactly when the two bookings do not meet.
   */
  lemma RacingBookingsSafeIff(s: State, a: Step, b: Step)
    requires Safe(s) && a.Book? && b.Book? && a.newId != b.newId
    requires NewIds(s, a) && NewIds(s, b) && Perform(s, a).Ok? && Perform(s, b).Ok?
    ensures var both := s.(events := s.events[a.newId := NewEvent(a)][b.newId := NewEvent(b)]);
            Safe(both) <==> a.calendar != b.calendar || Apart(NewEvent(a), NewEvent(b))
  {
    var both := s.(events := s.events[a.newId := NewEvent(a)][b.newId := NewEvent(b)]);
    StepKeepsSafe(s, a);
    StepKeepsSafe(s, b);
    var withA, withB := Apply(s, a), Apply(s, b);
    assert both.events[a.newId] == NewEvent(a) && both.events[b.newId] == NewEvent(b);
    if a.calendar != b.calendar || Apart(NewEvent(a), NewEvent(b)) {
      forall x, y | x in both.events && y in both.events && x != y && Compete(both.events[x], both.events[y])
        ensures Apart(both.events[x], both.events[y])
      {
        if x != b.newId && y != b.newId {
          assert Apart(withA.events[x], withA.events[y]);
        } else if x != a.newId && y != a.newId {
          assert Apart(withB.events[x], withB.events[y]);
        }
      }
    }
  }

  // -- The agenda ---------------------------------------------------------------------------------

  predicate Listed(s: State, tenant: nat, calendar: Option<nat>, startAt: int, endAt: int, id: nat) {
    && OwnsEvent(s, tenant, id)
    && (calendar.Some? ==> s.events[id].calendar == calendar.value)
    && Overlaps(s.events[id], startAt, endAt)
  }

  predicate Before(s: State, x: nat, y: nat) {
    && x in s.events && y in s.events
    && (s.events[x].startAt < s.events[y].startAt || (s.events[x].startAt == s.events[y].startAt && x < y))
  }

  /** The rows the listing query returns, before `offset` and `limit`. */
  ghost predicate IsListing(s: State, tenant: nat, calendar: Option<nat>, startAt: int, endAt: int, ids: seq<nat>) {
    && (forall id: nat :: id in ids <==> Listed(s, tenant, calendar, startAt, endAt, id))
    && Ascending(ids, (x: nat, y: nat) => Before(s, x, y))
  }

  /** The listing, column by column: the tenant's events that meet the interval, by start and then by id. */
  lemma ListingIsExact(s: State, tenant: nat, calendar: Option<nat>, startAt: int, endAt: int, ids: seq<nat>)
    requires IsListing(s, tenant, calendar, startAt, endAt, ids)
    ensures forall id: nat :: id in ids <==>
              && id in s.events && s.events[id].tenant == tenant
              && (calendar == None || calendar == Some(s.events[id].calendar))
              && s.events[id].startAt < endAt && startAt < s.events[id].endAt
    ensures forall i, j :: 0 <= i < j < |ids| ==>
              && ids[i] in s.events && ids[j] in s.events
              && (s.events[ids[i]].startAt < s.events[ids[j]].startAt
                  || (s.events[ids[i]].startAt == s.events[ids[j]].startAt && ids[i] < ids[j]))
  {
    forall i, j | 0 <= i < j < |ids| ensures Before(s, ids[i], ids[j]) {
      assert ((x: nat, y: nat) => Before(s, x, y))(ids[i], ids[j]);
    }
  }

  /** The order is total, so pages of one listing never depend on how the database stores the rows. */
  lemma ListingIsUnique(s: State, tenant: nat, calendar: Option<nat>, startAt: int, endAt: int, a: seq<nat>, b: seq<nat>)
    requires IsListing(s, tenant, calendar, startAt, endAt, a)
    requires IsListing(s, tenant, calendar, startAt, endAt, b)
    ensures a == b
  {
    forall id: nat ensures id in a <==> id in b {
      assert id in a <==> Listed(s, tenant, calendar, startAt, endAt, id);
    }
    SortedListingIsUnique(a, b, (x: nat, y: nat) => Before(s, x, y));
  }

  /** In one calendar's agenda each scheduled event ends before the next one starts. */
  lemma AgendaIsSequential(s: State, tenant: nat, calendar: nat, startAt: int, endAt: int, ids: seq<nat>, i: nat, j: nat)
    requires Safe(s) && IsListing(s, tenant, Some(calendar), startAt, endAt, ids)
    requires i < j < |ids| && ids[i] in s.events && ids[j] in s.events
    requires s.events[ids[i]].status.Scheduled? && s.events[ids[j]].status.Scheduled?
    ensures s.events[ids[i]].endAt <= s.events[ids[j]].startAt
  {
    assert ids[i] in ids && ids[j] in ids;
    assert Listed(s, tenant, Some(calendar), startAt, endAt, ids[i]);
    assert Listed(s, tenant, Some(calendar), startAt, endAt, ids[j]);
    assert Before(s, ids[i], ids[j]);
    assert Apart(s.events[ids[i]], s.events[ids[j]]);
  }

  /** The interval is available exactly when its agenda shows cancelled events only. */
  lemma AvailableIffAgendaClear(s: State, tenant: nat, calendar: nat, startAt: int, endAt: int, ids: seq<nat>)
    requires Safe(s) && OwnsCalendar(s, tenant, calendar) && startAt < endAt
    requires IsListing(s, tenant, Some(calendar), startAt, endAt, ids)
    ensures FreeThroughout(s, calendar, startAt, endAt) <==>
            forall id :: id in ids ==> id in s.events && s.events[id].status.Cancelled?
  {
    NoClashIffFree(s, tenant, calendar, startAt, endAt);
    forall id: nat
      ensures id in ids <==> Listed(s, tenant, Some(calendar), startAt, endAt, id)
      ensures Clashes(s, tenant, calendar, startAt, endAt, id) <==> id in ids && s.events[id].status.Scheduled?
    {
    }
  }

  // -- The service --------------------------------------------------------------------------------

  datatype Availability = Available | Unavailable(conflictStart: int, conflictEnd: int)

  class CalendarService {
    var calendars: map<nat, nat>
    var events: map<nat, Event>

    ghost function Now(): State
      reads this
    {
      State(calendars, events)
    }

    constructor ()
      ensures Now() == After([])
    {
      calendars, events := map[], map[];
    }

    method CreateCalendar(tenant: nat, newId: nat)
      modifies this
      ensures Now() == Apply(old(Now()), AddCalendar(tenant, newId))
    {
      calendars := calendars[newId := tenant];
    }

    method ConflictingEvent(tenant: nat, calendar: nat, startAt: int, endAt: int) returns (found: Option<nat>)
      ensures found.Some? ==> Clashes(Now(), tenant, calendar, startAt, endAt, found.value)
      ensures found.None? <==> NoClash(Now(), tenant, calendar, startAt, endAt)
    {
      var clashes := set x | x in events && Clashes(State(calendars, events), tenant, calendar, startAt, endAt, x);
      if clashes == {} {
        assert forall x :: x in events ==> x !in clashes;
        return None;
      }
      ghost var some := AnyOf(clashes);
      assert some in clashes;
      var id: nat :| id in clashes;
      found := Some(id);
    }

    /** Tells whether every instant of the interval is free, and otherwise about one event in the way. */
    method CheckAvailability(tenant: nat, calendar: nat, startAt: int, endAt: int)
        returns (r: Result<Availability, Error>)
      ensures r == Err(InvalidInterval) <==> endAt <= startAt
      ensures r == Err(CalendarNotFound) <==> startAt < endAt && !(calendar in calendars && calendars[calendar] == tenant)
      ensures r.Err? ==> r.error.InvalidInterval? || r.error.CalendarNotFound?
      ensures r.Ok? ==> (r.value.Available? <==> !Busy(Now(), tenant, calendar, startAt, endAt))
      ensures r.Ok? && Safe(Now()) ==> (r.value.Available? <==> FreeThroughout(Now(), calendar, startAt, endAt))
      ensures r.Ok? && r.value.Unavailable? ==>
                exists id :: Clashes(Now(), tenant, calendar, startAt, endAt, id)
                             && events[id].startAt == r.value.conflictStart && events[id].endAt == r.value.conflictEnd
    {
      if !(startAt < endAt) {
        return Err(InvalidInterval);
      }
      if calendar !in calendars || calendars[calendar] != tenant {
        return Err(CalendarNotFound);
      }
      var conflict := ConflictingEvent(tenant, calendar, startAt, endAt);
      BookingEffect(Now(), Book(tenant, 0, calendar, "", startAt, endAt, None, true));
      if Safe(Now()) {
        NoClashIffFree(Now(), tenant, calendar, startAt, endAt);
      }
      if conflict.None? {
        return Ok(Available);
      }
      r := Ok(Unavailable(events[conflict.value].startAt, events[conflict.value].endAt));
    }

    method CreateEvent(tenant: nat, newId: nat, calendar: nat, title: string, startAt: int, endAt: int,
                       contact: Option<nat>, contactFound: bool) returns (r: Result<nat, Error>)
      modifies this`events
      ensures var step := Book(tenant, newId, calendar, title, startAt, endAt, contact, contactFound);
              var done := Perform(old(Now()), step);
              && Now() == Apply(old(Now()), step)
              && r == if done.Ok? then Ok(newId) else Err(done.error)
    {
      if !(startAt < endAt) {
        return Err(InvalidInterval);
      }
      if calendar !in calendars || calendars[calendar] != tenant {
        return Err(CalendarNotFound);
      }
      if contact.Some? && !contactFound {
        return Err(ContactNotFound);
      }
      var conflict := ConflictingEvent(tenant, calendar, startAt, endAt);
      if conflict.Some? {
        return Err(EventConflict);
      }
      events := events[newId := Event(tenant, calendar, contact, title, startAt, endAt, Scheduled)];
      r := Ok(newId);
    }

    method CancelEvent(tenant: nat, id: nat) returns (r: Result<Event, Error>)
      modifies this`events
      ensures Now() == Apply(old(Now()), Cancel(tenant, id))
      ensures r.Ok? <==> OwnsEvent(old(Now()), tenant, id)
      ensures r.Ok? ==> id in events && r.value == events[id] && r.value.status.Cancelled?
      ensures r.Err? ==> r.error == EventNotFound
    {
      if id !in events || events[id].tenant != tenant {
        return Err(EventNotFound);
      }
      var event := events[id];
      if event.status != Cancelled {
        event := event.(status := Cancelled);
        events := events[id := event];
      } else {
        assert events[id := event.(status := Cancelled)] == events;
      }
      r := Ok(event);
    }
  }
}
