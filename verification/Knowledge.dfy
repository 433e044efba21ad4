/** Knowledge items: reviewed in draft, frozen once active, and the trigger that guards the freeze. */
module Knowledge {
  import opened Wrappers

  const MAX_TITLE_LENGTH := 200
  const MAX_CONTENT_LENGTH := 20000

  datatype Status = Draft | Active | Archived

  datatype Source = Source(tenant: nat, name: string, active: bool)

  datatype Item = Item(tenant: nat, source: nat, title: string, content: string, createdAt: int, status: Status)

  datatype State = State(sources: map<nat, Source>, items: map<nat, Item>)

  datatype Error = SourceNotFound | ItemNotFound | NotDraft | ConstraintViolated

  datatype Step =
    | CreateSource(tenant: nat, newId: nat, name: string)
    | CreateItem(tenant: nat, newId: nat, source: nat, title: string, content: string, now: int)
    | Update(tenant: nat, id: nat, newTitle: Option<string>, newContent: Option<string>)
    | Activate(tenant: nat, id: nat)
    | Deactivate(tenant: nat, id: nat)

  predicate OwnsSource(s: State, tenant: nat, id: nat) {
    id in s.sources && s.sources[id].tenant == tenant
  }

  predicate OwnsItem(s: State, tenant: nat, id: nat) {
    id in s.items && s.items[id].tenant == tenant
  }

  predicate NameFree(sources: map<nat, Source>, tenant: nat, name: string) {
    forall x :: x in sources ==> !(sources[x].tenant == tenant && sources[x].name == name)
  }

  /** Length limits of the columns, and one title per source of a tenant. */
  predicate RowAllowed(items: map<nat, Item>, id: nat, item: Item) {
    && |item.title| <= MAX_TITLE_LENGTH
    && |item.content| <= MAX_CONTENT_LENGTH
    && forall x :: x in items && x != id ==>
         !(items[x].tenant == item.tenant && items[x].source == item.source && items[x].title == item.title)
  }

  function Edited(item: Item, newTitle: Option<string>, newContent: Option<string>): Item {
    item.(title := if newTitle.Some? then newTitle.value else item.title,
          content := if newContent.Some? then newContent.value else item.content)
  }

  function Perform(s: State, step: Step): Result<State, Error> {
    match step
    case CreateSource(tenant, newId, name) =>
      if !NameFree(s.sources, tenant, name) then Err(ConstraintViolated)
      else Ok(s.(sources := s.sources[newId := Source(tenant, name, true)]))
    case CreateItem(tenant, newId, source, title, content, now) =>
      if !OwnsSource(s, tenant, source) then Err(SourceNotFound)
      else
        var item := Item(tenant, source, title, content, now, Draft);
        if !RowAllowed(s.items, newId, item) then Err(ConstraintViolated)
        else Ok(s.(items := s.items[newId := item]))
    case Update(tenant, id, newTitle, newContent) =>
      if !OwnsItem(s, tenant, id) then Err(ItemNotFound)
      else if s.items[id].status != Draft && (newTitle.Some? || newContent.Some?) then Err(NotDraft)
      else
        var item := Edited(s.items[id], newTitle, newContent);
        if item != s.items[id] && !RowAllowed(s.items, id, item) then Err(ConstraintViolated)
        else Ok(s.(items := s.items[id := item]))
    case Activate(tenant, id) =>
      if !OwnsItem(s, tenant, id) then Err(ItemNotFound)
      else if s.items[id].status != Draft then Err(NotDraft)
      else Ok(s.(items := s.items[id := s.items[id].(status := Active)]))
    case Deactivate(tenant, id) =>
      if !OwnsItem(s, tenant, id) then Err(ItemNotFound)
      else if s.items[id].status != Active then Err(NotDraft)
      else Ok(s.(items := s.items[id := s.items[id].(status := Archived)]))
  }

  function Apply(s: State, step: Step): State {
    match Perform(s, step)
    case Ok(s') => s'
    case Err(_) => s
  }

  function After(steps: seq<Step>): State {
    if steps == [] then State(map[], map[]) else Apply(After(steps[..|steps| - 1]), steps[|steps| - 1])
  }

  ghost predicate NewIds(s: State, step: Step) {
    && (step.CreateSource? ==> step.newId !in s.sources)
    && (step.CreateItem? ==> step.newId !in s.items)
  }

  /** Identifiers of new rows are new. */
  ghost predicate AllNewIds(steps: seq<Step>) {
    steps == [] || (AllNewIds(steps[..|steps| - 1]) && NewIds(After(steps[..|steps| - 1]), steps[|steps| - 1]))
  }

  // -- The trigger ---------------------------------------------------------------------------

  /** Whether the before-update trigger lets the row change through. */
  predicate TriggerAccepts(before: Item, after: Item) {
    !before.status.Draft? ==>
      && after.tenant == before.tenant
      && after.source == before.source
      && after.title == before.title
      && after.content == before.content
      && after.createdAt == before.createdAt
      && (after.status == before.status || (before.status.Active? && after.status.Archived?))
  }

  ghost predicate AcceptedHistory(rows: seq<Item>) {
    forall i :: 0 <= i < |rows| - 1 ==> TriggerAccepts(rows[i], rows[i + 1])
  }

  /**
   Whatever updates are thrown at a row, by the service or around it: once it has left draft, the
   updates the trigger lets through keep its text for good and at most archive it.
   */
  lemma {:induction false} TriggerFreezesContent(rows: seq<Item>, i: nat, j: nat)
    requires AcceptedHistory(rows) && i <= j < |rows| && !rows[i].status.Draft?
    ensures TriggerAccepts(rows[i], rows[j])
    ensures !rows[j].status.Draft? && (rows[i].status.Archived? ==> rows[j] == rows[i])
  {
    if i < j {
      TriggerFreezesContent(rows, i, j - 1);
      assert TriggerAccepts(rows[j - 1], rows[j - 1 + 1]);
    }
  }

  /** Every item of the first table is in the second, changed as the trigger allows. */
  ghost predicate Aged(s: State, s': State) {
    forall id :: id in s.items ==> id in s'.items && TriggerAccepts(s.items[id], s'.items[id])
  }

  /** The service's own checks never send the database an update the trigger would reject. */
  lemma ServicePassesTrigger(s: State, step: Step)
    requires NewIds(s, step)
    ensures Aged(s, Apply(s, step))
  {
    if step.Update? && OwnsItem(s, step.tenant, step.id) && s.items[step.id].status != Draft {
      assert Edited(s.items[step.id], None, None) == s.items[step.id];
    }
  }

  lemma AgedTransitive(a: State, b: State, c: State)
    requires Aged(a, b) && Aged(b, c)
    ensures Aged(a, c)
  {
    forall id | id in a.items ensures id in c.items && TriggerAccepts(a.items[id], c.items[id]) {
      assert TriggerAccepts(a.items[id], b.items[id]) && TriggerAccepts(b.items[id], c.items[id]);
    }
  }

  lemma {:induction false} RunsAge(steps: seq<Step>, k: nat)
    requires AllNewIds(steps) && k <= |steps|
    ensures Aged(After(steps[..k]), After(steps))
  {
    if k == |steps| {
      assert steps[..k] == steps;
    } else {
      var before := steps[..|steps| - 1];
      RunsAge(before, k);
      assert before[..k] == steps[..k];
      ServicePassesTrigger(After(before), steps[|steps| - 1]);
      AgedTransitive(After(steps[..k]), After(before), After(steps));
    }
  }

  lemma {:induction false} NewIdsOfPrefix(steps: seq<Step>, k: nat)
    requires AllNewIds(steps) && k <= |steps|
    ensures AllNewIds(steps[..k])
  {
    if k == |steps| {
      assert steps[..k] == steps;
    } else {
      NewIdsOfPrefix(steps[..|steps| - 1], k);
      assert steps[..|steps| - 1][..k] == steps[..k];
    }
  }

  // -- What each step answers and writes -----------------------------------------------------------

  /** Another item of the same tenant and source has this title. */
  ghost predicate TitleTaken(s: State, id: nat, tenant: nat, source: nat, title: string) {
    exists x :: x in s.items && x != id && s.items[x].tenant == tenant && s.items[x].source == source && s.items[x].title == title
  }

  lemma AllowedIff(s: State, id: nat, item: Item)
    ensures RowAllowed(s.items, id, item) <==>
            |item.title| <= 200 && |item.content| <= 20000 && !TitleTaken(s, id, item.tenant, item.source, item.title)
  {
  }

  /** A new item is a draft with the title and content given, in a source of its tenant. */
  lemma ItemCreated(s: State, step: Step)
    requires step.CreateItem?
    ensures var own := step.source in s.sources && s.sources[step.source].tenant == step.tenant;
            var fits := |step.title| <= 200 && |step.content| <= 20000
                        && !TitleTaken(s, step.newId, step.tenant, step.source, step.title);
            match Perform(s, step)
            case Ok(s') =>
              && own && fits && s'.sources == s.sources
              && s'.items == s.items[step.newId := Item(step.tenant, step.source, step.title, step.content, step.now, Draft)]
            case Err(SourceNotFound) => !own
            case Err(ConstraintViolated) => own && !fits
            case Err(_) => false
    ensures Perform(s, step).Err? ==> Apply(s, step) == s
  {
    AllowedIff(s, step.newId, Item(step.tenant, step.source, step.title, step.content, step.now, Draft));
  }

  /**
   An update puts the new title into the title and the new content into the content of the tenant's
   own draft and keeps what is not given; an item outside draft accepts only the update that gives nothing.
   */
  lemma ItemUpdated(s: State, step: Step)
    requires step.Update?
    ensures var own := step.id in s.items && s.items[step.id].tenant == step.tenant;
            if !own then Perform(s, step) == Err(ItemNotFound)
            else
              var item := s.items[step.id];
              var title := if step.newTitle.Some? then step.newTitle.value else item.title;
              var content := if step.newContent.Some? then step.newContent.value else item.content;
              var same := title == item.title && content == item.content;
              var fits := |title| <= 200 && |content| <= 20000 && !TitleTaken(s, step.id, item.tenant, item.source, title);
              match Perform(s, step)
              case Ok(s') =>
                && (item.status == Draft || (step.newTitle == None && step.newContent == None))
                && (same || fits) && s'.sources == s.sources
                && s'.items == s.items[step.id := Item(item.tenant, item.source, title, content, item.createdAt, item.status)]
              case Err(NotDraft) => item.status != Draft && (step.newTitle != None || step.newContent != None)
              case Err(ConstraintViolated) => item.status == Draft && !same && !fits
              case Err(_) => false
    ensures Perform(s, step).Err? ==> Apply(s, step) == s
  {
    if OwnsItem(s, step.tenant, step.id) {
      AllowedIff(s, step.id, Edited(s.items[step.id], step.newTitle, step.newContent));
    }
  }

  /** Activation takes the tenant's own draft to active and deactivation its active item to archived, text unchanged. */
  lemma ItemMoved(s: State, step: Step)
    requires step.Activate? || step.Deactivate?
    ensures var own := step.id in s.items && s.items[step.id].tenant == step.tenant;
            if !own then Perform(s, step) == Err(ItemNotFound)
            else
              var item, from := s.items[step.id], if step.Activate? then Draft else Active;
              Perform(s, step) ==
              if item.status != from then Err(NotDraft)
              else Ok(State(s.sources, s.items[step.id := item.(status := if step.Activate? then Active else Archived)]))
  {
  }

  /** A source is stored, active, unless its tenant has one of that name. */
  lemma SourceCreated(s: State, step: Step)
    requires step.CreateSource?
    ensures Perform(s, step) ==
            if exists x :: x in s.sources && s.sources[x].tenant == step.tenant && s.sources[x].name == step.name
            then Err(ConstraintViolated)
            else Ok(State(s.sources[step.newId := Source(step.tenant, step.name, true)], s.items))
  {
  }

  /** What the trigger lets through, exactly: anything in draft, archiving of an active item, and no change at all. */
  lemma TriggerAcceptsIff(before: Item, after: Item)
    ensures TriggerAccepts(before, after) <==>
            || before.status == Draft || after == before
            || (before.status == Active && after == before.(status := Archived))
  {
  }

  /** Items within their limits, and no two of one tenant and source with one title. */
  ghost predicate ItemsFit(s: State) {
    forall id :: id in s.items ==>
      && |s.items[id].title| <= 200 && |s.items[id].content| <= 20000
      && !TitleTaken(s, id, s.items[id].tenant, s.items[id].source, s.items[id].title)
  }

  lemma StepKeepsItemsFit(s: State, step: Step)
    requires ItemsFit(s) && NewIds(s, step)
    ensures ItemsFit(Apply(s, step))
  {
    var s' := Apply(s, step);
    forall x, y | x in s'.items && y in s'.items && x != y
      ensures !(s'.items[x].tenant == s'.items[y].tenant && s'.items[x].source == s'.items[y].source
                && s'.items[x].title == s'.items[y].title)
    {
      if x in s.items && y in s.items {
        assert !TitleTaken(s, x, s.items[x].tenant, s.items[x].source, s.items[x].title);
      }
    }
  }

  /** Over any run the titles and contents keep within their limits, and titles are unique in a source. */
  lemma {:induction false} ItemsAlwaysFit(steps: seq<Step>)
    requires AllNewIds(steps)
    ensures ItemsFit(After(steps))
  {
    if steps != [] {
      ItemsAlwaysFit(steps[..|steps| - 1]);
      StepKeepsItemsFit(After(steps[..|steps| - 1]), steps[|steps| - 1]);
    }
  }

  // -- Review before use ------------------------------------------------------------------------

  /** Step `k` took the item out of draft with this title and content. */
  ghost predicate ActivatedAt(steps: seq<Step>, k: nat, id: nat, title: string, content: string) {
    && k < |steps|
    && steps[k].Activate? && steps[k].id == id
    && var s := After(steps[..k]);
       id in s.items && s.items[id].status.Draft? && s.items[id].title == title && s.items[id].content == content
  }

  /** The text of an item outside draft is, to the letter, the draft that an activation released. */
  lemma {:induction false} ReleasedTextWasReviewed(steps: seq<Step>, id: nat) returns (k: nat)
    requires AllNewIds(steps)
    requires id in After(steps).items && !After(steps).items[id].status.Draft?
    ensures ActivatedAt(steps, k, id, After(steps).items[id].title, After(steps).items[id].content)
  {
    var n := |steps| - 1;
    var s, s' := After(steps[..n]), After(steps);
    assert id in s.items;
    if s.items[id].status.Draft? {
      k := n;
    } else {
      k := ReleasedTextWasReviewed(steps[..n], id);
      ServicePassesTrigger(s, steps[n]);
      assert steps[..n][..k] == steps[..k];
    }
  }

  /** Draft, then active, then archived: an archived item can never be activated, edited or drafted again. */
  lemma ArchivedIsForGood(steps: seq<Step>, k: nat, id: nat)
    requires AllNewIds(steps) && k <= |steps|
    requires id in After(steps[..k]).items && After(steps[..k]).items[id].status.Archived?
    ensures id in After(steps).items && After(steps).items[id] == After(steps[..k]).items[id]
  {
    RunsAge(steps, k);
    assert TriggerAccepts(After(steps[..k]).items[id], After(steps).items[id]);
  }

  // -- References from agent versions --------------------------------------------------------------

  predicate IsActiveItem(s: State, tenant: nat, id: nat) {
    OwnsItem(s, tenant, id) && s.items[id].status.Active?
  }

  /** The reference check of a new agent version: every item it names is active right now. */
  predicate ReferencesAccepted(s: State, tenant: nat, ids: set<nat>) {
    forall id :: id in ids ==> IsActiveItem(s, tenant, id)
  }

  /** References accepted once name, forever after, items of the tenant with the text they had then. */
  lemma AcceptedReferencesKeepMeaning(steps: seq<Step>, k: nat, tenant: nat, ids: set<nat>, id: nat)
    requires AllNewIds(steps) && k <= |steps|
    requires ReferencesAccepted(After(steps[..k]), tenant, ids) && id in ids
    ensures id in After(steps[..k]).items && OwnsItem(After(steps), tenant, id)
    ensures !After(steps).items[id].status.Draft?
    ensures After(steps).items[id].title == After(steps[..k]).items[id].title
    ensures After(steps).items[id].content == After(steps[..k]).items[id].content
  {
    RunsAge(steps, k);
    assert IsActiveItem(After(steps[..k]), tenant, id);
    assert TriggerAccepts(After(steps[..k]).items[id], After(steps).items[id]);
  }

  class KnowledgeService {
    var sources: map<nat, Source>
    var items: map<nat, Item>

    ghost function Now(): State
      reads this
    {
      State(sources, items)
    }

    constructor ()
      ensures Now() == After([])
    {
      sources, items := map[], map[];
    }

    method AddSource(tenant: nat, newId: nat, name: string) returns (r: Result<nat, Error>)
      modifies this`sources
      ensures Now() == Apply(old(Now()), CreateSource(tenant, newId, name))
      ensures r == if NameFree(old(sources), tenant, name) then Ok(newId) else Err(ConstraintViolated)
    {
      if !NameFree(sources, tenant, name) {
        return Err(ConstraintViolated);
      }
      sources := sources[newId := Source(tenant, name, true)];
      r := Ok(newId);
    }

    method AddItem(tenant: nat, newId: nat, source: nat, title: string, content: string, now: int)
        returns (r: Result<nat, Error>)
      modifies this`items
      ensures var step := CreateItem(tenant, newId, source, title, content, now);
              var done := Perform(old(Now()), step);
              Now() == Apply(old(Now()), step) && r == if done.Ok? then Ok(newId) else Err(done.error)
    {
      if source !in sources || sources[source].tenant != tenant {
        return Err(SourceNotFound);
      }
      var item := Item(tenant, source, title, content, now, Draft);
      if !RowAllowed(items, newId, item) {
        return Err(ConstraintViolated);
      }
      items := items[newId := item];
      r := Ok(newId);
    }

    method UpdateItem(tenant: nat, id: nat, newTitle: Option<string>, newContent: Option<string>)
        returns (r: Result<Item, Error>)
      modifies this`items
      ensures var step := Update(tenant, id, newTitle, newContent);
              var done := Perform(old(Now()), step);
              && Now() == Apply(old(Now()), step)
              && (r.Ok? <==> done.Ok?)
              && (r.Err? ==> r.error == done.error)
              && (r.Ok? ==> id in items && r.value == items[id])
    {
      if id !in items || items[id].tenant != tenant {
        return Err(ItemNotFound);
      }
      var item := items[id];
      if item.status != Draft && (newTitle.Some? || newContent.Some?) {
        return Err(NotDraft);
      }
      if newTitle.Some? {
        item := item.(title := newTitle.value);
      }
      if newContent.Some? {
        item := item.(content := newContent.value);
      }
      if item != items[id] && !RowAllowed(items, id, item) {
        return Err(ConstraintViolated);
      }
      items := items[id := item];
      r := Ok(item);
    }

    method ActivateItem(tenant: nat, id: nat) returns (r: Result<Item, Error>)
      modifies this`items
      ensures Now() == Apply(old(Now()), Activate(tenant, id))
      ensures r.Ok? <==> OwnsItem(old(Now()), tenant, id) && old(items)[id].status.Draft?
      ensures r.Ok? ==> id in items && r.value == items[id] && r.value.status.Active?
      ensures r.Err? ==> r.error == if OwnsItem(old(Now()), tenant, id) then NotDraft else ItemNotFound
    {
      if id !in items || items[id].tenant != tenant {
        return Err(ItemNotFound);
      }
      var item := items[id];
      if item.status != Draft {
        return Err(NotDraft);
      }
      item := item.(status := Active);
      items := items[id := item];
      r := Ok(item);
    }

    method DeactivateItem(tenant: nat, id: nat) returns (r: Result<Item, Error>)
      modifies this`items
      ensures Now() == Apply(old(Now()), Deactivate(tenant, id))
      ensures r.Ok? <==> OwnsItem(old(Now()), tenant, id) && old(items)[id].status.Active?
      ensures r.Ok? ==> id in items && r.value == items[id] && r.value.status.Archived?
      ensures r.Err? ==> r.error == if OwnsItem(old(Now()), tenant, id) then NotDraft else ItemNotFound
    {
      if id !in items || items[id].tenant != tenant {
        return Err(ItemNotFound);
      }
      var item := items[id];
      if item.status != Active {
        return Err(NotDraft);
      }
      item := item.(status := Archived);
      items := items[id := item];
      r := Ok(item);
    }

    /** With `ids` all in the answer exactly when a new version may name them. */
    method ResolveActiveItemIds(tenant: nat, ids: set<nat>) returns (resolved: set<nat>)
      ensures resolved <= ids
      ensures forall id :: id in ids ==> (id in resolved <==> IsActiveItem(Now(), tenant, id))
      ensures resolved == ids <==> ReferencesAccepted(Now(), tenant, ids)
    {
      resolved := set id | id in ids && id in items && items[id].tenant == tenant && items[id].status == Active;
      assert forall id :: id in ids ==> (id in resolved <==> IsActiveItem(Now(), tenant, id));
    }
  }
}
