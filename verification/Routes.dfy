/** The inbound route mirror: the trigger that copies phone numbers into the routing table, and the lookup. */
module Routes {
  import opened Wrappers

  /** `caption` stands for the columns of a phone number that routing does not copy. */
  datatype Number = Number(tenant: nat, e164: string, agent: Option<nat>, inboundEnabled: bool, caption: string)

  datatype Route = Route(tenant: nat, e164: string, agent: Option<nat>, inboundEnabled: bool)

  /** Both tables are keyed by the phone number's id. */
  datatype State = State(numbers: map<nat, Number>, routes: map<nat, Route>)

  datatype Error = DuplicateId | DuplicateNumber | DuplicateRoute

  /** One row of a statement on the phone number table. */
  datatype Step =
    | Insert(id: nat, row: Number)
    | Update(id: nat, newId: nat, row: Number)
    | Delete(id: nat)

  function RouteOf(n: Number): Route {
    Route(n.tenant, n.e164, n.agent, n.inboundEnabled)
  }

  function Projection(numbers: map<nat, Number>): map<nat, Route> {
    map id | id in numbers :: RouteOf(numbers[id])
  }

  predicate NumberTaken(numbers: map<nat, Number>, id: nat, e164: string) {
    exists x :: x in numbers && x != id && numbers[x].e164 == e164
  }

  predicate RouteTaken(routes: map<nat, Route>, id: nat, e164: string) {
    exists x :: x in routes && x != id && routes[x].e164 == e164
  }

  /** The trigger after an insert or update: upsert under the new id. */
  function Upserted(routes: map<nat, Route>, id: nat, row: Number): Result<map<nat, Route>, Error> {
    if RouteTaken(routes, id, row.e164) then Err(DuplicateRoute) else Ok(routes[id := RouteOf(row)])
  }

  /** The statement together with its trigger; an error in either undoes both. */
  function Perform(s: State, step: Step): Result<State, Error> {
    match step
    case Insert(id, row) =>
      if id in s.numbers then Err(DuplicateId)
      else if NumberTaken(s.numbers, id, row.e164) then Err(DuplicateNumber)
      else
        (match Upserted(s.routes, id, row)
         case Ok(routes) => Ok(State(s.numbers[id := row], routes))
         case Err(e) => Err(e))
    case Update(id, newId, row) =>
      if id !in s.numbers then Ok(s)
      else if newId != id && newId in s.numbers then Err(DuplicateId)
      else if NumberTaken(s.numbers, id, row.e164) then Err(DuplicateNumber)
      else
        (match Upserted(s.routes, newId, row)
         case Ok(routes) => Ok(State((s.numbers - {id})[newId := row], routes))
         case Err(e) => Err(e))
    case Delete(id) =>
      if id !in s.numbers then Ok(s) else Ok(State(s.numbers - {id}, s.routes - {id}))
  }

  function Apply(s: State, step: Step): State {
    match Perform(s, step)
    case Ok(s') => s'
    case Err(_) => s
  }

  /** From the numbers present when the routing table was created and backfilled. */
  function After(present: map<nat, Number>, steps: seq<Step>): State {
    if steps == [] then State(present, Projection(present))
    else Apply(After(present, steps[..|steps| - 1]), steps[|steps| - 1])
  }

  // -- What each statement writes ----------------------------------------------------------------

  /** Another phone number has this number. */
  ghost predicate InUse(s: State, id: nat, e164: string) {
    exists x :: x in s.numbers && x != id && s.numbers[x].e164 == e164
  }

  /** An insert that is accepted stores the row, and its route under the row's id; one that is refused stores neither. */
  lemma InsertEffect(s: State, id: nat, row: Number)
    ensures Perform(s, Insert(id, row)) == Err(DuplicateId) <==> id in s.numbers
    ensures Perform(s, Insert(id, row)) == Err(DuplicateNumber) <==> id !in s.numbers && InUse(s, id, row.e164)
    ensures Perform(s, Insert(id, row)).Ok? ==>
              Apply(s, Insert(id, row)) ==
              State(s.numbers[id := row], s.routes[id := Route(row.tenant, row.e164, row.agent, row.inboundEnabled)])
    ensures Perform(s, Insert(id, row)).Err? ==> Apply(s, Insert(id, row)) == s
  {
  }

  /** An update replaces the row, under its new id if it has one, and writes the route of the new id only. */
  lemma UpdateEffect(s: State, id: nat, newId: nat, row: Number)
    ensures var done, s' := Perform(s, Update(id, newId, row)), Apply(s, Update(id, newId, row));
            && (id !in s.numbers ==> done == Ok(s))
            && (done == Err(DuplicateId) <==> id in s.numbers && newId != id && newId in s.numbers)
            && (done == Err(DuplicateNumber) <==>
                  id in s.numbers && (newId == id || newId !in s.numbers) && InUse(s, id, row.e164))
            && (done.Err? ==> s' == s)
            && (done.Ok? && id in s.numbers ==>
                  && s'.routes == s.routes[newId := Route(row.tenant, row.e164, row.agent, row.inboundEnabled)]
                  && newId in s'.numbers && s'.numbers[newId] == row
                  && (newId != id ==> id !in s'.numbers)
                  && forall x :: x != id && x != newId ==>
                       (x in s'.numbers <==> x in s.numbers) && (x in s.numbers ==> s'.numbers[x] == s.numbers[x]))
  {
  }

  /** A delete removes the row and its route together. */
  lemma DeleteEffect(s: State, id: nat)
    ensures var s' := Apply(s, Delete(id));
            && Perform(s, Delete(id)).Ok? && id !in s'.numbers
            && (id in s.numbers ==> id !in s'.routes)
            && (forall x :: x != id ==> (x in s'.numbers <==> x in s.numbers) && (x in s'.routes <==> x in s.routes))
            && (forall x :: x in s'.numbers ==> s'.numbers[x] == s.numbers[x])
            && (forall x :: x in s'.routes ==> s'.routes[x] == s.routes[x])
  {
  }

  // -- The mirror --------------------------------------------------------------------------------

  ghost predicate UniqueNumbers(numbers: map<nat, Number>) {
    forall x, y :: x in numbers && y in numbers && numbers[x].e164 == numbers[y].e164 ==> x == y
  }

  ghost predicate Mirrored(s: State) {
    UniqueNumbers(s.numbers) && s.routes == Projection(s.numbers)
  }

  predicate MovesRow(s: State, step: Step) {
    step.Update? && step.newId != step.id && step.id in s.numbers
  }

  /** While the tables agree the trigger rejects a row that keeps its id only if the number table does. */
  lemma TakenAlike(s: State, id: nat, e164: string)
    requires Mirrored(s)
    ensures RouteTaken(s.routes, id, e164) <==> NumberTaken(s.numbers, id, e164)
  {
    if NumberTaken(s.numbers, id, e164) {
      var x :| x in s.numbers && x != id && s.numbers[x].e164 == e164;
      assert x in s.routes && s.routes[x].e164 == e164;
    }
  }

  lemma TriggerAddsNoError(s: State, step: Step)
    requires Mirrored(s)
    ensures Perform(s, step) == Err(DuplicateRoute) <==>
              && MovesRow(s, step)
              && step.newId !in s.numbers
              && step.row.e164 == s.numbers[step.id].e164
  {
    match step
    case Insert(id, row) => TakenAlike(s, id, row.e164);
    case Delete(_) =>
    case Update(id, newId, row) =>
      TakenAlike(s, newId, row.e164);
      TakenAlike(s, id, row.e164);
      if MovesRow(s, step) && newId !in s.numbers {
        assert row.e164 == s.numbers[id].e164 ==> NumberTaken(s.numbers, newId, row.e164);
        assert NumberTaken(s.numbers, newId, row.e164) ==>
            NumberTaken(s.numbers, id, row.e164) || row.e164 == s.numbers[id].e164;
      }
  }

  lemma {:induction false} ProjectionOfUpdate(numbers: map<nat, Number>, id: nat, row: Number)
    ensures Projection(numbers[id := row]) == Projection(numbers)[id := RouteOf(row)]
    ensures Projection(numbers - {id}) == Projection(numbers) - {id}
  {
  }

  /** The guards under which a statement gives a row another id: the id is free and the number changes to a free one. */
  predicate CanMove(s: State, step: Step) {
    && MovesRow(s, step)
    && step.newId !in s.numbers
    && step.row.e164 != s.numbers[step.id].e164
    && !NumberTaken(s.numbers, step.id, step.row.e164)
  }

  lemma MoveSucceedsIff(s: State, step: Step)
    requires Mirrored(s) && MovesRow(s, step)
    ensures Perform(s, step).Ok? <==> CanMove(s, step)
  {
    TriggerAddsNoError(s, step);
  }

  /** A statement breaks the mirror exactly if it gives a row a free id together with another, free number. */
  lemma StepKeepsMirrorIff(s: State, step: Step)
    requires Mirrored(s)
    ensures Mirrored(Apply(s, step)) <==> !CanMove(s, step)
  {
    var s' := Apply(s, step);
    if step.Insert? || step.Update? {
      ProjectionOfUpdate(s.numbers, step.id, step.row);
      if step.Update? && step.newId == step.id && step.id in s.numbers {
        assert (s.numbers - {step.id})[step.id := step.row] == s.numbers[step.id := step.row];
      }
      if MovesRow(s, step) {
        MoveSucceedsIff(s, step);
        assert CanMove(s, step) ==> step.id in s'.routes && step.id !in s'.numbers;
      }
    } else {
      ProjectionOfUpdate(s.numbers, step.id, Number(0, "", None, false, ""));
    }
  }

  ghost predicate NeverMoves(present: map<nat, Number>, steps: seq<Step>) {
    steps == [] ||
    (NeverMoves(present, steps[..|steps| - 1]) && !CanMove(After(present, steps[..|steps| - 1]), steps[|steps| - 1]))
  }

  /** After any statements, rejected moves included, of which none moves a row, the routing table is the projection. */
  lemma {:induction false} RoutesMirrorNumbers(present: map<nat, Number>, steps: seq<Step>)
    requires UniqueNumbers(present) && NeverMoves(present, steps)
    ensures Mirrored(After(present, steps))
  {
    if steps != [] {
      RoutesMirrorNumbers(present, steps[..|steps| - 1]);
      StepKeepsMirrorIff(After(present, steps[..|steps| - 1]), steps[|steps| - 1]);
    }
  }

  /** The routing table's own unique constraint. */
  ghost predicate UniqueRoutes(routes: map<nat, Route>) {
    forall x, y :: x in routes && y in routes && routes[x].e164 == routes[y].e164 ==> x == y
  }

  /** A number never has two routes, whatever statements ran. */
  lemma {:induction false} RoutesStayUnique(present: map<nat, Number>, steps: seq<Step>)
    requires UniqueNumbers(present)
    ensures UniqueRoutes(After(present, steps).routes)
  {
    if steps != [] {
      RoutesStayUnique(present, steps[..|steps| - 1]);
      StepKeepsRoutesUnique(After(present, steps[..|steps| - 1]), steps[|steps| - 1]);
    }
  }

  lemma StepKeepsRoutesUnique(s: State, step: Step)
    requires UniqueRoutes(s.routes)
    ensures UniqueRoutes(Apply(s, step).routes)
  {
  }

  // -- Resolution ----------------------------------------------------------------------------------

  datatype Resolved = Resolved(tenant: nat, phoneNumber: nat, agent: Option<nat>, inboundEnabled: bool)

  /** What the routing table answers; none, or the one row with the number. */
  ghost predicate Answers(routes: map<nat, Route>, e164: string, answer: Option<Resolved>) {
    match answer
    case None => forall x :: x in routes ==> routes[x].e164 != e164
    case Some(r) =>
      && r.phoneNumber in routes
      && routes[r.phoneNumber] == Route(r.tenant, e164, r.agent, r.inboundEnabled)
      && forall x :: x in routes && routes[x].e164 == e164 ==> x == r.phoneNumber
  }

  /** On a mirrored table the lookup is the lookup of the phone number itself, both ways. */
  lemma ResolutionIsExact(s: State, e164: string, answer: Option<Resolved>)
    requires Mirrored(s)
    ensures Answers(s.routes, e164, answer) <==>
            match answer
            case None => forall x :: x in s.numbers ==> s.numbers[x].e164 != e164
            case Some(r) => r.phoneNumber in s.numbers
                            && RouteOf(s.numbers[r.phoneNumber]) == Route(r.tenant, e164, r.agent, r.inboundEnabled)
  {
    assert forall x :: x in s.routes <==> x in s.numbers;
    assert forall x :: x in s.routes ==> s.routes[x] == RouteOf(s.numbers[x]);
  }

  /** Once a statement has moved a row to another id, its old number still resolves to the id that is gone. */
  lemma MovedRowLeavesStaleRoute(s: State, step: Step)
    requires Mirrored(s) && CanMove(s, step)
    ensures var was, s' := s.numbers[step.id], Apply(s, step);
            && Answers(s'.routes, was.e164, Some(Resolved(was.tenant, step.id, was.agent, was.inboundEnabled)))
            && step.id !in s'.numbers
            && forall x :: x in s'.numbers ==> s'.numbers[x].e164 != was.e164
  {
    MoveSucceedsIff(s, step);
    var was, s' := s.numbers[step.id], Apply(s, step);
    assert s'.routes == s.routes[step.newId := RouteOf(step.row)];
    assert s.routes[step.id] == RouteOf(was);
  }

  /** Such a statement exists: another id together with another number passes every constraint. */
  lemma MovingCanSucceed()
    ensures var n, m := Number(1, "+1", Some(7), true, ""), Number(1, "+2", Some(7), true, "");
            var s := After(map[], [Insert(10, n)]);
            Mirrored(s) && CanMove(s, Update(10, 11, m)) && Perform(s, Update(10, 11, m)).Ok?
  {
    var n, m := Number(1, "+1", Some(7), true, ""), Number(1, "+2", Some(7), true, "");
    var empty := State(map[], map[]);
    assert [Insert(10, n)][..0] == [];
    assert Projection(empty.numbers) == empty.routes;
    assert After(map[], [Insert(10, n)]) == Apply(empty, Insert(10, n));
    StepKeepsMirrorIff(empty, Insert(10, n));
    TriggerAddsNoError(empty, Insert(10, n));
    var s := Apply(empty, Insert(10, n));
    assert s.numbers == map[10 := n];
    TriggerAddsNoError(s, Update(10, 11, m));
    assert n.e164[1] != m.e164[1];
  }

  class PhoneNumberTable {
    var numbers: map<nat, Number>
    var routes: map<nat, Route>

    ghost function Now(): State
      reads this
    {
      State(numbers, routes)
    }

    /** The migration: creates the routing table and backfills it. */
    constructor (present: map<nat, Number>)
      ensures Now() == After(present, [])
    {
      numbers := present;
      routes := map id | id in present :: Route(present[id].tenant, present[id].e164, present[id].agent, present[id].inboundEnabled);
    }

    /** The after-row trigger for an insert or an update. */
    method SyncInboundRoute(id: nat, row: Number) returns (ok: bool)
      modifies this`routes
      ensures ok == Upserted(old(routes), id, row).Ok?
      ensures routes == if ok then old(routes)[id := RouteOf(row)] else old(routes)
    {
      if exists x :: x in routes && x != id && routes[x].e164 == row.e164 {
        return false;
      }
      if id in routes {
        var route := routes[id];
        route := route.(tenant := row.tenant);
        route := route.(e164 := row.e164);
        route := route.(agent := row.agent);
        route := route.(inboundEnabled := row.inboundEnabled);
        routes := routes[id := route];
      } else {
        routes := routes[id := Route(row.tenant, row.e164, row.agent, row.inboundEnabled)];
      }
      ok := true;
    }

    method InsertNumber(id: nat, row: Number) returns (r: Result<(), Error>)
      modifies this
      ensures Now() == Apply(old(Now()), Insert(id, row))
      ensures r == match Perform(old(Now()), Insert(id, row)) case Ok(_) => Ok(()) case Err(e) => Err(e)
    {
      if id in numbers {
        return Err(DuplicateId);
      }
      if exists x :: x in numbers && x != id && numbers[x].e164 == row.e164 {
        return Err(DuplicateNumber);
      }
      var ok := SyncInboundRoute(id, row);
      if !ok {
        return Err(DuplicateRoute);
      }
      numbers := numbers[id := row];
      r := Ok(());
    }

    method UpdateNumber(id: nat, newId: nat, row: Number) returns (r: Result<(), Error>)
      modifies this
      ensures Now() == Apply(old(Now()), Update(id, newId, row))
      ensures r == match Perform(old(Now()), Update(id, newId, row)) case Ok(_) => Ok(()) case Err(e) => Err(e)
    {
      if id !in numbers {
        return Ok(());
      }
      if newId != id && newId in numbers {
        return Err(DuplicateId);
      }
      if exists x :: x in numbers && x != id && numbers[x].e164 == row.e164 {
        return Err(DuplicateNumber);
      }
      var ok := SyncInboundRoute(newId, row);
      if !ok {
        return Err(DuplicateRoute);
      }
      numbers := (numbers - {id})[newId := row];
      r := Ok(());
    }

    method DeleteNumber(id: nat)
      modifies this
      ensures Now() == Apply(old(Now()), Delete(id))
    {
      if id in numbers {
        numbers := numbers - {id};
        routes := routes - {id};
      }
    }

    /** The tenant, id, agent and switch of the phone number itself, or none if no number is `e164`. */
    method ResolveInboundRoute(e164: string) returns (answer: Option<Resolved>)
      requires UniqueRoutes(routes)
      ensures Answers(routes, e164, answer)
      ensures Mirrored(Now()) ==> (answer.None? <==> forall x :: x in numbers ==> numbers[x].e164 != e164)
      ensures Mirrored(Now()) && answer.Some? ==>
                && answer.value.phoneNumber in numbers
                && var n := numbers[answer.value.phoneNumber];
                   n.e164 == e164 && answer.value == Resolved(n.tenant, answer.value.phoneNumber, n.agent, n.inboundEnabled)
    {
      var matches := set x | x in routes && routes[x].e164 == e164;
      if matches == {} {
        assert forall x :: x in routes ==> x !in matches;
        answer := None;
      } else {
        ghost var some := AnyOf(matches);
        assert some in matches;
        var id: nat :| id in matches;
        var row := routes[id];
        answer := Some(Resolved(row.tenant, id, row.agent, row.inboundEnabled));
      }
      if Mirrored(Now()) {
        ResolutionIsExact(Now(), e164, answer);
      }
    }
  }
}
