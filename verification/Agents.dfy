/** Agent versions: append-only numbering, the two version pointers and what a call gets to run. */
module Agents {
  import opened Wrappers

  datatype Status = Draft | Published | Archived

  /** `config` stands for the canonical configuration together with its hash. */
  datatype Version = Version(tenant: nat, agent: nat, number: int, config: nat, createdAt: int,
                             status: Status, publishedAt: Option<int>, publishedBy: Option<nat>)

  datatype Agent = Agent(tenant: nat, draftVersion: Option<nat>, publishedVersion: Option<nat>)

  datatype State = State(agents: map<nat, Agent>, versions: map<nat, Version>)

  datatype Error = InvalidConfig | AgentNotFound | VersionNotFound | NotDraft | NotPublished

  datatype Step =
    | CreateAgent(tenant: nat, newId: nat)
    | CreateDraft(tenant: nat, now: int, newId: nat, agent: nat, config: nat, valid: bool)
    | Publish(tenant: nat, now: int, agent: nat, version: nat, actor: nat)
    | Archive(tenant: nat, now: int, agent: nat, version: nat)

  predicate OwnsAgent(s: State, tenant: nat, id: nat) {
    id in s.agents && s.agents[id].tenant == tenant
  }

  /** The version is the tenant's and the agent's. */
  predicate OwnsVersion(s: State, tenant: nat, agent: nat, id: nat) {
    id in s.versions && s.versions[id].tenant == tenant && s.versions[id].agent == agent
  }

  function Numbers(s: State, agent: nat): set<int> {
    set v | v in s.versions && s.versions[v].agent == agent :: s.versions[v].number
  }

  /** One past the greatest number in use. */
  function NextNumber(s: State, agent: nat): int {
    var used := Numbers(s, agent);
    (if used == {} then 0 else Max(used)) + 1
  }

  function NewVersion(s: State, step: Step): Version
    requires step.CreateDraft?
  {
    Version(step.tenant, step.agent, NextNumber(s, step.agent), step.config, step.now, Draft, None, None)
  }

  function Perform(s: State, step: Step): Result<State, Error> {
    match step
    case CreateAgent(tenant, newId) => Ok(s.(agents := s.agents[newId := Agent(tenant, None, None)]))
    case CreateDraft(tenant, _, newId, agent, _, valid) =>
      if !valid then Err(InvalidConfig)
      else if !OwnsAgent(s, tenant, agent) then Err(AgentNotFound)
      else Ok(State(s.agents[agent := s.agents[agent].(draftVersion := Some(newId))],
                    s.versions[newId := NewVersion(s, step)]))
    case Publish(tenant, now, agent, version, actor) =>
      if !OwnsAgent(s, tenant, agent) then Err(AgentNotFound)
      else if !OwnsVersion(s, tenant, agent, version) then Err(VersionNotFound)
      else if s.versions[version].status != Draft then Err(NotDraft)
      else
        var row := s.agents[agent];
        var draft := if row.draftVersion == Some(version) then None else row.draftVersion;
        Ok(State(s.agents[agent := row.(draftVersion := draft, publishedVersion := Some(version))],
                 s.versions[version := s.versions[version].(status := Published, publishedAt := Some(now),
                                                            publishedBy := Some(actor))]))
    case Archive(tenant, _, agent, version) =>
      if !OwnsAgent(s, tenant, agent) then Err(AgentNotFound)
      else if !OwnsVersion(s, tenant, agent, version) then Err(VersionNotFound)
      else if s.versions[version].status != Published then Err(NotPublished)
      else Ok(s.(versions := s.versions[version := s.versions[version].(status := Archived)]))
  }

  function Apply(s: State, step: Step): State {
    match Perform(s, step)
    case Ok(s') => s'
    case Err(_) => s
  }

  function After(steps: seq<Step>): State {
    if steps == [] then State(map[], map[]) else Apply(After(steps[..|steps| - 1]), steps[|steps| - 1])
  }

  ghost predicate NewIds(s: State, step: Step) {
    && (step.CreateAgent? ==> step.newId !in s.agents)
    && (step.CreateDraft? ==> step.newId !in s.versions)
  }

  /** Identifiers of new rows are new. */
  ghost predicate AllNewIds(steps: seq<Step>) {
    steps == [] || (AllNewIds(steps[..|steps| - 1]) && NewIds(After(steps[..|steps| - 1]), steps[|steps| - 1]))
  }

  // -- Numbering -------------------------------------------------------------------------------

  predicate HasNumber(s: State, agent: nat, n: int, v: nat) {
    v in s.versions && s.versions[v].agent == agent && s.versions[v].number == n
  }

  ghost predicate NumberUsed(s: State, agent: nat, n: int) {
    exists v :: HasNumber(s, agent, n, v)
  }

  predicate SameNumber(s: State, agent: nat, x: nat, y: nat) {
    x in s.versions && HasNumber(s, agent, s.versions[x].number, x) && HasNumber(s, agent, s.versions[x].number, y)
  }

  /** The agent's versions are numbered 1 to n, each number used once. */
  ghost predicate Numbered(s: State, agent: nat, n: nat) {
    && (forall v :: v in s.versions && s.versions[v].agent == agent ==> 1 <= s.versions[v].number <= n)
    && (forall k :: 1 <= k <= n ==> NumberUsed(s, agent, k))
    && (forall x, y :: SameNumber(s, agent, x, y) ==> x == y)
  }

  lemma NumberedNext(s: State, agent: nat, n: nat)
    requires Numbered(s, agent, n)
    ensures NextNumber(s, agent) == n + 1
  {
    var used := Numbers(s, agent);
    if n > 0 {
      assert NumberUsed(s, agent, n);
      var v :| HasNumber(s, agent, n, v);
      assert s.versions[v].number in used;
    } else {
      assert used == {};
    }
  }

  predicate AddsVersion(s: State, step: Step, agent: nat) {
    step.CreateDraft? && step.agent == agent && Perform(s, step).Ok?
  }

  lemma StepNumbers(s: State, step: Step, agent: nat, n: nat)
    requires Numbered(s, agent, n) && NewIds(s, step)
    ensures Numbered(Apply(s, step), agent, if AddsVersion(s, step, agent) then n + 1 else n)
  {
    var s' := Apply(s, step);
    NumberedNext(s, agent, n);
    if AddsVersion(s, step, agent) {
      assert HasNumber(s', agent, n + 1, step.newId);
    }
    forall k | 1 <= k <= n ensures NumberUsed(s', agent, k) {
      assert NumberUsed(s, agent, k);
      var v :| HasNumber(s, agent, k, v);
      assert HasNumber(s', agent, k, v);
    }
    forall x, y | SameNumber(s', agent, x, y) ensures x == y {
      assert x in s.versions && y in s.versions ==> SameNumber(s, agent, x, y);
    }
  }

  function DraftsOf(steps: seq<Step>, agent: nat): nat {
    if steps == [] then 0
    else
      var before := steps[..|steps| - 1];
      DraftsOf(before, agent) + if AddsVersion(After(before), steps[|steps| - 1], agent) then 1 else 0
  }

  /** Over any run an agent's versions are numbered 1 to the number of drafts created, in order of creation. */
  lemma {:induction false} VersionsAreNumbered(steps: seq<Step>, agent: nat)
    requires AllNewIds(steps)
    ensures Numbered(After(steps), agent, DraftsOf(steps, agent))
    ensures NextNumber(After(steps), agent) == DraftsOf(steps, agent) + 1
  {
    if steps != [] {
      var before := steps[..|steps| - 1];
      VersionsAreNumbered(before, agent);
      StepNumbers(After(before), steps[|steps| - 1], agent, DraftsOf(before, agent));
    }
    NumberedNext(After(steps), agent, DraftsOf(steps, agent));
  }

  // -- Versions never change, they only move on --------------------------------------------------

  predicate SameContent(a: Version, b: Version) {
    && a.tenant == b.tenant && a.agent == b.agent && a.number == b.number
    && a.config == b.config && a.createdAt == b.createdAt
  }

  predicate MovesOn(a: Version, b: Version) {
    && SameContent(a, b)
    && (a.status.Draft? || (a.publishedAt == b.publishedAt && a.publishedBy == b.publishedBy))
    && (b.status == a.status || a.status.Draft? || (a.status.Published? && b.status.Archived?))
  }

  ghost predicate Extends(s: State, s': State) {
    forall v :: v in s.versions ==> v in s'.versions && MovesOn(s.versions[v], s'.versions[v])
  }

  /** No step of any run changes the configuration, number or owner of a stored version. */
  lemma {:induction false} VersionsPersist(steps: seq<Step>, k: nat)
    requires AllNewIds(steps) && k <= |steps|
    ensures Extends(After(steps[..k]), After(steps))
    ensures forall v :: v in After(steps[..k]).versions ==>
              && v in After(steps).versions
              && var a, b := After(steps[..k]).versions[v], After(steps).versions[v];
                 && b.tenant == a.tenant && b.agent == a.agent && b.number == a.number
                 && b.config == a.config && b.createdAt == a.createdAt
                 && (a.publishedAt.Some? && a.status != Draft ==> b.publishedAt == a.publishedAt && b.publishedBy == a.publishedBy)
  {
    if k == |steps| {
      assert steps[..k] == steps;
    } else {
      var before := steps[..|steps| - 1];
      VersionsPersist(before, k);
      assert before[..k] == steps[..k];
      assert Extends(After(before), After(steps));
    }
  }

  // -- The trigger -------------------------------------------------------------------------------

  /** SQL equality: unknown, so not true, when a side is missing. */
  predicate SqlEqual(a: Option<int>, b: Option<int>) {
    a.Some? && b.Some? && a.value == b.value
  }

  predicate TriggerAccepts(before: Version, after: Version) {
    before.status.Published? ==>
      && after.status.Archived?
      && SameContent(before, after)
      && SqlEqual(after.publishedAt, before.publishedAt)
      && after.publishedBy == before.publishedBy
  }

  /** The trigger by itself guards published rows only: not drafts, and not archived rows either. */
  lemma TriggerProtectsIff(before: Version)
    ensures (forall after :: TriggerAccepts(before, after) ==> SameContent(before, after)) <==> before.status.Published?
  {
    if !before.status.Published? {
      var after := before.(config := before.config + 1);
      assert TriggerAccepts(before, after) && !SameContent(before, after);
    }
  }

  /** What the trigger lets through on a published row, exactly: archiving it, every other column unchanged. */
  lemma TriggerAllowsIff(before: Version, after: Version)
    requires before.status.Published? && before.publishedAt.Some?
    ensures TriggerAccepts(before, after) <==> after == before.(status := Archived)
  {
  }

  // -- What each step answers and writes -----------------------------------------------------------

  /** A new agent is its tenant's and has no version. */
  lemma AgentCreated(s: State, tenant: nat, newId: nat)
    ensures Perform(s, CreateAgent(tenant, newId)) == Ok(State(s.agents[newId := Agent(tenant, None, None)], s.versions))
  {
  }

  /** The agent's draft holds the configuration it was given, and the agent's draft pointer names it. */
  lemma DraftCreated(s: State, step: Step, n: nat)
    requires step.CreateDraft? && Numbered(s, step.agent, n)
    ensures Perform(s, step) ==
            if !step.valid then Err(InvalidConfig)
            else if !(step.agent in s.agents && s.agents[step.agent].tenant == step.tenant) then Err(AgentNotFound)
            else Ok(State(s.agents[step.agent := Agent(step.tenant, Some(step.newId), s.agents[step.agent].publishedVersion)],
                          s.versions[step.newId := Version(step.tenant, step.agent, n + 1, step.config, step.now,
                                                           Draft, None, None)]))
  {
    NumberedNext(s, step.agent, n);
  }

  /**
   Publishing stamps the draft with time and actor, moves the published pointer to it and clears the
   draft pointer if it named this version; it is refused for a foreign agent, for a version that is not
   that agent's, and for one that is no draft.
   */
  lemma VersionPublished(s: State, step: Step)
    requires step.Publish?
    ensures var agent := step.agent in s.agents && s.agents[step.agent].tenant == step.tenant;
            var mine := agent && step.version in s.versions && s.versions[step.version].tenant == step.tenant
                        && s.versions[step.version].agent == step.agent;
            match Perform(s, step)
            case Ok(s') =>
              && mine && s.versions[step.version].status == Draft
              && s'.versions == s.versions[step.version := s.versions[step.version].(status := Published,
                                                                                     publishedAt := Some(step.now),
                                                                                     publishedBy := Some(step.actor))]
              && var row := s.agents[step.agent];
                 s'.agents == s.agents[step.agent := Agent(row.tenant,
                                                           if row.draftVersion == Some(step.version) then None else row.draftVersion,
                                                           Some(step.version))]
            case Err(AgentNotFound) => !agent
            case Err(VersionNotFound) => agent && !mine
            case Err(NotDraft) => mine && s.versions[step.version].status != Draft
            case Err(_) => false
    ensures Perform(s, step).Err? ==> Apply(s, step) == s
  {
  }

  /** Archiving changes the status of the agent's published version and nothing else. */
  lemma VersionArchived(s: State, step: Step)
    requires step.Archive?
    ensures var agent := step.agent in s.agents && s.agents[step.agent].tenant == step.tenant;
            var mine := agent && step.version in s.versions && s.versions[step.version].tenant == step.tenant
                        && s.versions[step.version].agent == step.agent;
            match Perform(s, step)
            case Ok(s') =>
              && mine && s.versions[step.version].status == Published && s'.agents == s.agents
              && s'.versions == s.versions[step.version := s.versions[step.version].(status := Archived)]
            case Err(AgentNotFound) => !agent
            case Err(VersionNotFound) => agent && !mine
            case Err(NotPublished) => mine && s.versions[step.version].status != Published
            case Err(_) => false
    ensures Perform(s, step).Err? ==> Apply(s, step) == s
  {
  }

  // -- The pointers ------------------------------------------------------------------------------

  /** The highest numbered version of the agent. */
  predicate IsNewest(s: State, agent: nat, v: nat) {
    && v in s.versions && s.versions[v].agent == agent
    && forall w :: w in s.versions && s.versions[w].agent == agent ==> s.versions[w].number <= s.versions[v].number
  }

  /** The draft pointer is set exactly while the newest version is a draft, and names it. */
  ghost predicate DraftPointerRight(s: State, agent: nat)
    requires agent in s.agents
  {
    && (forall v :: s.agents[agent].draftVersion == Some(v) ==> IsNewest(s, agent, v) && s.versions[v].status.Draft?)
    && (forall v :: IsNewest(s, agent, v) && s.versions[v].status.Draft? ==> s.agents[agent].draftVersion == Some(v))
  }

  ghost predicate PublishedPointerRight(s: State, agent: nat)
    requires agent in s.agents
  {
    forall v :: s.agents[agent].publishedVersion == Some(v) ==>
      v in s.versions && s.versions[v].agent == agent && !s.versions[v].status.Draft?
  }

  ghost predicate Owned(s: State) {
    forall v :: v in s.versions ==>
      && OwnsAgent(s, s.versions[v].tenant, s.versions[v].agent)
      && (s.versions[v].status.Draft? <==> s.versions[v].publishedAt.None?)
  }

  lemma NewestAfterDraft(s: State, step: Step, agent: nat, n: nat, v: nat)
    requires Numbered(s, agent, n) && NewIds(s, step) && AddsVersion(s, step, agent)
    ensures IsNewest(Apply(s, step), agent, v) <==> v == step.newId
  {
    NumberedNext(s, agent, n);
    var s' := Apply(s, step);
    assert s'.versions[step.newId].number == n + 1;
  }

  lemma NewestIsKept(s: State, step: Step, agent: nat, v: nat)
    requires NewIds(s, step) && !AddsVersion(s, step, agent)
    ensures IsNewest(Apply(s, step), agent, v) <==> IsNewest(s, agent, v)
  {
    var s' := Apply(s, step);
    assert forall w :: w in s.versions && s.versions[w].agent == agent <==> w in s'.versions && s'.versions[w].agent == agent;
    assert forall w :: w in s.versions ==> s'.versions[w].number == s.versions[w].number;
  }

  lemma StepKeepsDraftPointer(s: State, step: Step, agent: nat, n: nat)
    requires Numbered(s, agent, n) && NewIds(s, step) && Owned(s)
    requires agent in s.agents ==> DraftPointerRight(s, agent)
    ensures agent in Apply(s, step).agents ==> DraftPointerRight(Apply(s, step), agent)
  {
    var s' := Apply(s, step);
    if agent in s'.agents && agent in s.agents {
      if AddsVersion(s, step, agent) {
        forall v ensures IsNewest(s', agent, v) <==> v == step.newId {
          NewestAfterDraft(s, step, agent, n, v);
        }
      } else {
        forall v ensures IsNewest(s', agent, v) <==> IsNewest(s, agent, v) {
          NewestIsKept(s, step, agent, v);
        }
      }
    }
  }

  /** Where the last accepted publish of the agent left the pointer. */
  function LastPublished(steps: seq<Step>, agent: nat): Option<nat> {
    if steps == [] then None
    else
      var before, step := steps[..|steps| - 1], steps[|steps| - 1];
      if Publishes(After(before), step, agent) then Some(step.version)
      else LastPublished(before, agent)
  }

  predicate Publishes(s: State, step: Step, agent: nat) {
    step.Publish? && step.agent == agent && Perform(s, step).Ok?
  }

  lemma StepKeepsOwned(s: State, step: Step)
    requires NewIds(s, step) && Owned(s)
    ensures Owned(Apply(s, step))
  {
  }

  lemma StepKeepsPublishedPointer(s: State, step: Step, agent: nat)
    requires NewIds(s, step)
    requires agent in s.agents ==> PublishedPointerRight(s, agent)
    ensures var s' := Apply(s, step);
            agent in s'.agents ==>
              && PublishedPointerRight(s', agent)
              && s'.agents[agent].publishedVersion ==
                 (if Publishes(s, step, agent) then Some(step.version)
                  else if agent in s.agents then s.agents[agent].publishedVersion else None)
    ensures agent in s.agents ==> agent in Apply(s, step).agents
    ensures Publishes(s, step, agent) ==> agent in s.agents
  {
  }

  /** Over any run of drafts, publishes and archives both pointers of every agent name what they should. */
  lemma {:induction false} PointersAreRight(steps: seq<Step>, agent: nat)
    requires AllNewIds(steps)
    ensures Owned(After(steps))
    ensures agent in After(steps).agents ==>
              && DraftPointerRight(After(steps), agent)
              && PublishedPointerRight(After(steps), agent)
              && After(steps).agents[agent].publishedVersion == LastPublished(steps, agent)
    ensures agent !in After(steps).agents ==> LastPublished(steps, agent) == None
  {
    if steps != [] {
      var before, step := steps[..|steps| - 1], steps[|steps| - 1];
      PointersAreRight(before, agent);
      VersionsAreNumbered(before, agent);
      StepKeepsOwned(After(before), step);
      StepKeepsDraftPointer(After(before), step, agent, DraftsOf(before, agent));
      StepKeepsPublishedPointer(After(before), step, agent);
    }
  }

  /** The service never sends an update the trigger rejects. */
  lemma ServicePassesTrigger(s: State, step: Step, v: nat)
    requires Owned(s) && NewIds(s, step) && v in s.versions
    ensures v in Apply(s, step).versions
    ensures Apply(s, step).versions[v] == s.versions[v] || TriggerAccepts(s.versions[v], Apply(s, step).versions[v])
  {
    assert s.versions[v].status.Draft? <==> s.versions[v].publishedAt.None?;
  }

  // -- What a call runs --------------------------------------------------------------------------

  datatype PinMode = Pinned | FollowPublished

  function SelectVersion(agent: Agent, mode: PinMode, pinned: Option<nat>): Result<nat, Error> {
    var choice := if mode.Pinned? then pinned else agent.publishedVersion;
    if choice.None? then Err(VersionNotFound) else Ok(choice.value)
  }

  /** Following the published version, a call gets the last published one and never a draft. */
  lemma FollowPublishedNeverDraft(steps: seq<Step>, agent: nat, pinned: Option<nat>)
    requires AllNewIds(steps) && agent in After(steps).agents
    ensures var s, chosen := After(steps), SelectVersion(After(steps).agents[agent], FollowPublished, pinned);
            && (chosen.Err? <==> LastPublished(steps, agent).None?)
            && (chosen.Ok? ==>
                  && LastPublished(steps, agent) == Some(chosen.value)
                  && OwnsVersion(s, s.agents[agent].tenant, agent, chosen.value)
                  && !s.versions[chosen.value].status.Draft?)
  {
    PointersAreRight(steps, agent);
    var s, chosen := After(steps), SelectVersion(After(steps).agents[agent], FollowPublished, pinned);
    if chosen.Ok? {
      assert OwnsAgent(s, s.versions[chosen.value].tenant, s.versions[chosen.value].agent);
    }
  }

  /**
   A pinned call runs the pinned version whatever is published, archived or drafted later, with the
   configuration that version had when it was pinned; without a pin there is none.
   */
  lemma PinnedSelectionIsStable(steps: seq<Step>, k: nat, agent: nat, v: nat)
    requires AllNewIds(steps) && k <= |steps|
    requires agent in After(steps[..k]).agents && agent in After(steps).agents && v in After(steps[..k]).versions
    ensures SelectVersion(After(steps[..k]).agents[agent], Pinned, Some(v)) == Ok(v)
    ensures SelectVersion(After(steps).agents[agent], Pinned, Some(v)) == Ok(v)
    ensures SelectVersion(After(steps).agents[agent], Pinned, None) == Err(VersionNotFound)
    ensures v in After(steps).versions
    ensures After(steps).versions[v].config == After(steps[..k]).versions[v].config
    ensures After(steps).versions[v].agent == After(steps[..k]).versions[v].agent
  {
    VersionsPersist(steps, k);
  }

  ghost predicate Live(s: State, agent: nat) {
    && agent in s.agents && s.agents[agent].publishedVersion.Some?
    && s.agents[agent].publishedVersion.value in s.versions
    && s.versions[s.agents[agent].publishedVersion.value].status.Published?
  }

  /** Archiving leaves the pointer alone, so it ends a live selection exactly when it names that version. */
  lemma ArchiveKeepsSelectionLiveIff(s: State, step: Step, agent: nat)
    requires Live(s, agent) && step.Archive? && Perform(s, step).Ok?
    ensures Live(Apply(s, step), agent) <==> s.agents[agent].publishedVersion != Some(step.version)
    ensures Apply(s, step).agents == s.agents
  {
    assert Apply(s, step).versions[step.version].status.Archived?;
  }

  /** An agent whose only version was archived still hands that version to the next call. */
  lemma ArchivedVersionIsStillSelected()
    ensures var steps := [CreateAgent(1, 10), CreateDraft(1, 0, 20, 10, 7, true), Publish(1, 1, 10, 20, 5), Archive(1, 2, 10, 20)];
            && AllNewIds(steps)
            && 10 in After(steps).agents && 20 in After(steps).versions
            && SelectVersion(After(steps).agents[10], FollowPublished, None) == Ok(20)
            && After(steps).versions[20].status.Archived?
  {
    var a, b, c, d := CreateAgent(1, 10), CreateDraft(1, 0, 20, 10, 7, true), Publish(1, 1, 10, 20, 5), Archive(1, 2, 10, 20);
    assert [a][..0] == [] && [a, b][..1] == [a] && [a, b, c][..2] == [a, b] && [a, b, c, d][..3] == [a, b, c];
    assert AllNewIds([a]) && After([a]) == Apply(State(map[], map[]), a);
    assert AllNewIds([a, b]) && After([a, b]) == Apply(After([a]), b);
    assert AllNewIds([a, b, c]) && After([a, b, c]) == Apply(After([a, b]), c);
    assert AllNewIds([a, b, c, d]) && After([a, b, c, d]) == Apply(After([a, b, c]), d);
  }

  class AgentService {
    var agents: map<nat, Agent>
    var versions: map<nat, Version>

    ghost function Now(): State
      reads this
    {
      State(agents, versions)
    }

    constructor ()
      ensures Now() == After([])
    {
      agents, versions := map[], map[];
    }

    method AddAgent(tenant: nat, newId: nat)
      modifies this`agents
      ensures Now() == Apply(old(Now()), CreateAgent(tenant, newId))
    {
      agents := agents[newId := Agent(tenant, None, None)];
    }

    method CreateDraftVersion(tenant: nat, now: int, newId: nat, agent: nat, config: nat, valid: bool)
        returns (r: Result<Version, Error>)
      modifies this
      ensures var step := CreateDraft(tenant, now, newId, agent, config, valid);
              var done := Perform(old(Now()), step);
              && Now() == Apply(old(Now()), step)
              && (r.Ok? <==> done.Ok?)
              && (r.Err? ==> r.error == done.error)
              && (r.Ok? ==> newId in versions && r.value == versions[newId] && r.value.status.Draft?)
    {
      if !valid {
        return Err(InvalidConfig);
      }
      if agent !in agents || agents[agent].tenant != tenant {
        return Err(AgentNotFound);
      }
      var existing := set v | v in versions && versions[v].agent == agent :: versions[v].number;
      assert existing == Numbers(Now(), agent);
      var number := (if existing == {} then 0 else Max(existing)) + 1;
      var version := Version(tenant, agent, number, config, now, Draft, None, None);
      versions := versions[newId := version];
      var row := agents[agent];
      agents := agents[agent := row.(draftVersion := Some(newId))];
      r := Ok(version);
    }

    method PublishVersion(tenant: nat, now: int, agent: nat, id: nat, actor: nat) returns (r: Result<Version, Error>)
      modifies this
      ensures var step := Publish(tenant, now, agent, id, actor);
              var done := Perform(old(Now()), step);
              && Now() == Apply(old(Now()), step)
              && (r.Ok? <==> done.Ok?)
              && (r.Err? ==> r.error == done.error)
              && (r.Ok? ==> id in versions && r.value == versions[id])
    {
      if agent !in agents || agents[agent].tenant != tenant {
        return Err(AgentNotFound);
      }
      if id !in versions || versions[id].tenant != tenant || versions[id].agent != agent {
        return Err(VersionNotFound);
      }
      var version, row := versions[id], agents[agent];
      if version.status != Draft {
        return Err(NotDraft);
      }
      version := version.(status := Published);
      version := version.(publishedAt := Some(now));
      version := version.(publishedBy := Some(actor));
      row := row.(publishedVersion := Some(id));
      if row.draftVersion == Some(id) {
        row := row.(draftVersion := None);
      }
      versions := versions[id := version];
      agents := agents[agent := row];
      r := Ok(version);
    }

    method ArchiveVersion(tenant: nat, now: int, agent: nat, id: nat) returns (r: Result<Version, Error>)
      modifies this`versions
      ensures var step := Archive(tenant, now, agent, id);
              var done := Perform(old(Now()), step);
              && Now() == Apply(old(Now()), step)
              && (r.Ok? <==> done.Ok?)
              && (r.Err? ==> r.error == done.error)
              && (r.Ok? ==> id in versions && r.value == versions[id])
    {
      if agent !in agents || agents[agent].tenant != tenant {
        return Err(AgentNotFound);
      }
      if id !in versions || versions[id].tenant != tenant || versions[id].agent != agent {
        return Err(VersionNotFound);
      }
      var version := versions[id];
      if version.status != Published {
        return Err(NotPublished);
      }
      version := version.(status := Archived);
      versions := versions[id := version];
      r := Ok(version);
    }
  }
}
