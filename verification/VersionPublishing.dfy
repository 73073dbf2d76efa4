/** Agent versions: drafts, publishing, configuration hashes, and the sessions pinned to versions. */
module VersionPublishing {
  import opened Common

  type Id = nat

  datatype ApiError = NotFound | PublishedImmutable | NoPublishedVersion | DuplicateTool | StillReferenced

  /** The fields of a version that requests set. */
  datatype Configuration = Configuration(
    instructions: string, personality: string, locale: string,
    llm: string, stt: string, tts: string, tools: seq<string>)

  /** What the configuration hash covers. */
  datatype Payload = Payload(organization: Id, project: Id, agent: Id, versionN: nat, configuration: Configuration)

  type HashFunction = Payload -> string

  datatype VersionStatus = Draft | Published

  datatype VersionRow = VersionRow(
    id: Id, organization: Id, project: Id, agent: Id, versionN: nat, status: VersionStatus,
    configuration: Configuration, configHash: string, publishedAt: Option<int>)
  {
    function Hashed(): Payload {
      Payload(organization, project, agent, versionN, configuration)
    }

    function WithHash(hash: HashFunction): VersionRow {
      this.(configHash := hash(Hashed()))
    }
  }

  datatype SessionRow = SessionRow(id: Id, organization: Id, project: Id, agent: Id, version: Id, configHash: string)

  datatype AgentRow = AgentRow(organization: Id, project: Id)

  /** The tables, and every identity handed out so far. */
  datatype Store = Store(
    projects: map<Id, Id>, agents: map<Id, AgentRow>, versions: seq<VersionRow>, sessions: seq<SessionRow>,
    used: set<Id>)

  datatype Answer =
    | Done
    | VersionAnswer(version: VersionRow)
    | SessionAnswer(session: SessionRow)
    | Refused(error: ApiError)

  // ---- Repositories ----

  function Find(versions: seq<VersionRow>, id: Id): (r: Option<nat>)
    ensures r.Some? ==> r.value < |versions| && versions[r.value].id == id
    ensures r.Some? ==> forall k :: 0 <= k < r.value ==> versions[k].id != id
    ensures r.None? ==> forall k :: 0 <= k < |versions| ==> versions[k].id != id
  {
    if versions == [] then None
    else if versions[0].id == id then Some(0)
    else match Find(versions[1..], id) { case None => None case Some(k) => Some(k + 1) }
  }

  /** The version with this id, if it belongs to this agent of this project. */
  function GetForAgent(s: Store, project: Id, agent: Id, version: Id): (r: Option<nat>)
    ensures r.Some? ==> r.value < |s.versions| && s.versions[r.value].id == version
    ensures r.Some? ==> s.versions[r.value].agent == agent && s.versions[r.value].project == project
  {
    match Find(s.versions, version)
    case None => None
    case Some(k) =>
      var row := s.versions[k];
      if project in s.projects && row.agent == agent && row.project == project
        && row.organization == s.projects[project]
      then Some(k) else None
  }

  predicate HasAgent(s: Store, project: Id, agent: Id) {
    project in s.projects && agent in s.agents && s.agents[agent] == AgentRow(s.projects[project], project)
  }

  /** The highest version number of an agent, 0 without versions. */
  function MaxVersionN(versions: seq<VersionRow>, agent: Id): nat {
    if versions == [] then 0
    else
      var last, before := versions[|versions| - 1], MaxVersionN(versions[..|versions| - 1], agent);
      if last.agent == agent && last.versionN > before then last.versionN else before
  }

  function NextVersionN(versions: seq<VersionRow>, agent: Id): nat {
    MaxVersionN(versions, agent) + 1
  }

  predicate IsPublishedOf(row: VersionRow, organization: Id, project: Id, agent: Id) {
    row.agent == agent && row.project == project && row.organization == organization && row.status == Published
  }

  function LatestPublished(versions: seq<VersionRow>, organization: Id, project: Id, agent: Id): (r: Option<nat>)
    ensures r.Some? ==> r.value < |versions| && IsPublishedOf(versions[r.value], organization, project, agent)
    ensures r.Some? ==> forall k :: 0 <= k < |versions| && IsPublishedOf(versions[k], organization, project, agent) ==>
      versions[k].versionN <= versions[r.value].versionN
    ensures r.None? ==> forall k :: 0 <= k < |versions| ==> !IsPublishedOf(versions[k], organization, project, agent)
  {
    if versions == [] then None
    else
      var n := |versions| - 1;
      var before := LatestPublished(versions[..n], organization, project, agent);
      if !IsPublishedOf(versions[n], organization, project, agent) then before
      else if before.Some? && versions[before.value].versionN >= versions[n].versionN then before
      else Some(n)
  }

  // ---- Services ----

  predicate DistinctNames(tools: seq<string>) {
    forall i, j :: 0 <= i < j < |tools| ==> tools[i] != tools[j]
  }

  function CreateAgent(s: Store, project: Id, id: Id): (Store, Answer) {
    if project !in s.projects then (s, Refused(NotFound))
    else (s.(agents := s.agents[id := AgentRow(s.projects[project], project)], used := s.used + {id}), Done)
  }

  function Without(versions: seq<VersionRow>, agent: Id): seq<VersionRow> {
    if versions == [] then []
    else
      var last, before := versions[|versions| - 1], Without(versions[..|versions| - 1], agent);
      if last.agent == agent then before else before + [last]
  }

  /** Deleting cascades to the versions, which the database refuses while a session references one of them. */
  function DeleteAgent(s: Store, project: Id, agent: Id): (Store, Answer) {
    if !HasAgent(s, project, agent) then (s, Refused(NotFound))
    else if exists x :: x in s.sessions && x.agent == agent then (s, Refused(StillReferenced))
    else (s.(agents := s.agents - {agent}, versions := Without(s.versions, agent)), Done)
  }

  function CreateVersion(
      hash: HashFunction, s: Store, project: Id, agent: Id, body: Configuration, id: Id): (Store, Answer)
  {
    if !DistinctNames(body.tools) then (s, Refused(DuplicateTool))
    else if !HasAgent(s, project, agent) then (s, Refused(NotFound))
    else
      var versionN := NextVersionN(s.versions, agent);
      var row := VersionRow(id, s.projects[project], project, agent, versionN, Draft, body, "", None).WithHash(hash);
      (s.(versions := s.versions + [row], used := s.used + {id}), VersionAnswer(row))
  }

  /** A partial update: absent fields stay. */
  datatype Patch = Patch(
    instructions: Option<string>, personality: Option<string>, locale: Option<string>,
    llm: Option<string>, stt: Option<string>, tts: Option<string>, tools: Option<seq<string>>)

  function Or<T>(update: Option<T>, current: T): T {
    if update.Some? then update.value else current
  }

  function Patched(c: Configuration, p: Patch): Configuration {
    Configuration(Or(p.instructions, c.instructions), Or(p.personality, c.personality), Or(p.locale, c.locale),
                  Or(p.llm, c.llm), Or(p.stt, c.stt), Or(p.tts, c.tts), Or(p.tools, c.tools))
  }

  function UpdateVersion(
      hash: HashFunction, s: Store, project: Id, agent: Id, version: Id, patch: Patch): (Store, Answer)
  {
    if patch.tools.Some? && !DistinctNames(patch.tools.value) then (s, Refused(DuplicateTool))
    else
      match GetForAgent(s, project, agent, version)
      case None => (s, Refused(NotFound))
      case Some(k) =>
        var row := s.versions[k];
        if row.status != Draft then (s, Refused(PublishedImmutable))
        else
          var updated := row.(configuration := Patched(row.configuration, patch)).WithHash(hash);
          (s.(versions := s.versions[k := updated]), VersionAnswer(updated))
  }

  function PublishVersion(s: Store, project: Id, agent: Id, version: Id, now: int): (Store, Answer) {
    match GetForAgent(s, project, agent, version)
    case None => (s, Refused(NotFound))
    case Some(k) =>
      var row := s.versions[k];
      if row.status == Published then (s, VersionAnswer(row))
      else
        var published := row.(status := Published, publishedAt := Some(now));
        (s.(versions := s.versions[k := published]), VersionAnswer(published))
  }

  /** The version a new session is pinned to. */
  function ChooseVersion(s: Store, project: Id, agent: Id, version: Option<Id>): (r: Result<nat, ApiError>)
    requires HasAgent(s, project, agent)
    ensures r.Ok? ==> r.value < |s.versions|
    ensures r.Ok? ==> s.versions[r.value].agent == agent && s.versions[r.value].project == project
  {
    if version.Some? then
      match GetForAgent(s, project, agent, version.value)
      case None => Err(NotFound)
      case Some(k) => Ok(k)
    else
      match LatestPublished(s.versions, s.projects[project], project, agent)
      case None => Err(NoPublishedVersion)
      case Some(k) => Ok(k)
  }

  function CreateSession(s: Store, project: Id, agent: Id, version: Option<Id>, id: Id): (Store, Answer) {
    if !HasAgent(s, project, agent) then (s, Refused(NotFound))
    else
      match ChooseVersion(s, project, agent, version)
      case Err(e) => (s, Refused(e))
      case Ok(k) =>
        var row := s.versions[k];
        var session := SessionRow(id, s.projects[project], project, agent, row.id, row.configHash);
        (s.(sessions := s.sessions + [session], used := s.used + {id}), SessionAnswer(session))
  }

  // ---- Runs ----

  datatype Op =
    | NewAgent(project: Id, id: Id)
    | RemoveAgent(project: Id, agent: Id)
    | NewVersion(project: Id, agent: Id, body: Configuration, id: Id)
    | ChangeVersion(project: Id, agent: Id, version: Id, patch: Patch)
    | Publish(project: Id, agent: Id, version: Id, now: int)
    | NewSession(project: Id, agent: Id, pinned: Option<Id>, id: Id)

  /** Identities are never handed out twice. */
  predicate IsReuse(s: Store, op: Op) {
    match op
    case NewAgent(_, id) => id in s.used
    case NewVersion(_, _, _, id) => id in s.used
    case NewSession(_, _, _, id) => id in s.used
    case _ => false
  }

  function Answered(hash: HashFunction, s: Store, op: Op): (Store, Answer) {
    match op
    case NewAgent(project, id) => CreateAgent(s, project, id)
    case RemoveAgent(project, agent) => DeleteAgent(s, project, agent)
    case NewVersion(project, agent, body, id) => CreateVersion(hash, s, project, agent, body, id)
    case ChangeVersion(project, agent, version, patch) => UpdateVersion(hash, s, project, agent, version, patch)
    case Publish(project, agent, version, now) => PublishVersion(s, project, agent, version, now)
    case NewSession(project, agent, pinned, id) => CreateSession(s, project, agent, pinned, id)
  }

  function Step(hash: HashFunction, s: Store, op: Op): Store {
    if IsReuse(s, op) then s else Answered(hash, s, op).0
  }

  function RunFrom(hash: HashFunction, s: Store, ops: seq<Op>): Store {
    if ops == [] then s else Step(hash, RunFrom(hash, s, ops[..|ops| - 1]), ops[|ops| - 1])
  }

  function Fresh(projects: map<Id, Id>): Store {
    Store(projects, map[], [], [], {})
  }

  // ---- What every run keeps ----

  ghost predicate IdsAreDistinct(s: Store) {
    && (forall i, j :: 0 <= i < j < |s.versions| ==> s.versions[i].id != s.versions[j].id)
    && (forall i, j :: 0 <= i < j < |s.sessions| ==> s.sessions[i].id != s.sessions[j].id)
    && (forall i :: 0 <= i < |s.versions| ==> s.versions[i].id in s.used)
    && (forall i :: 0 <= i < |s.sessions| ==> s.sessions[i].id in s.used)
    && (forall a :: a in s.agents ==> a in s.used)
  }

  ghost predicate HashesAreCurrent(hash: HashFunction, versions: seq<VersionRow>) {
    forall i :: 0 <= i < |versions| ==> versions[i].configHash == hash(versions[i].Hashed())
  }

  ghost predicate TimestampsMarkPublished(versions: seq<VersionRow>) {
    forall i :: 0 <= i < |versions| ==> (versions[i].status == Published <==> versions[i].publishedAt.Some?)
  }

  ghost predicate ToolsAreDistinct(versions: seq<VersionRow>) {
    forall i :: 0 <= i < |versions| ==> DistinctNames(versions[i].configuration.tools)
  }

  /** An agent's version numbers in the order of creation. */
  function Numbers(versions: seq<VersionRow>, agent: Id): seq<nat> {
    if versions == [] then []
    else
      var last, before := versions[|versions| - 1], Numbers(versions[..|versions| - 1], agent);
      if last.agent == agent then before + [last.versionN] else before
  }

  ghost predicate CountsUp(numbers: seq<nat>) {
    forall i :: 0 <= i < |numbers| ==> numbers[i] == i + 1
  }

  ghost predicate VersionsAreNumbered(versions: seq<VersionRow>) {
    forall agent :: CountsUp(Numbers(versions, agent))
  }

  ghost predicate RowsBelong(s: Store) {
    && (forall a :: a in s.agents ==>
          s.agents[a].project in s.projects && s.projects[s.agents[a].project] == s.agents[a].organization)
    && (forall i :: 0 <= i < |s.versions| ==>
          && s.versions[i].agent in s.agents
          && s.agents[s.versions[i].agent] == AgentRow(s.versions[i].organization, s.versions[i].project))
  }

  /** The version a session is pinned to, and its agent, are there. */
  ghost predicate IsPinned(s: Store, x: SessionRow) {
    exists i :: 0 <= i < |s.versions| && s.versions[i].id == x.version && s.versions[i].agent == x.agent
  }

  ghost predicate SessionsArePinned(s: Store) {
    forall i :: 0 <= i < |s.sessions| ==> IsPinned(s, s.sessions[i])
  }

  ghost predicate Inv(hash: HashFunction, s: Store) {
    && IdsAreDistinct(s) && HashesAreCurrent(hash, s.versions) && TimestampsMarkPublished(s.versions)
    && ToolsAreDistinct(s.versions) && VersionsAreNumbered(s.versions) && RowsBelong(s) && SessionsArePinned(s)
  }

  // ---- Version numbers ----

  lemma {:induction false} MaxIsCount(versions: seq<VersionRow>, agent: Id)
    requires CountsUp(Numbers(versions, agent))
    ensures MaxVersionN(versions, agent) == |Numbers(versions, agent)|
  {
    if versions != [] {
      var before, numbers := versions[..|versions| - 1], Numbers(versions, agent);
      assert versions[|versions| - 1].agent == agent ==> numbers[|numbers| - 1] == versions[|versions| - 1].versionN;
      assert forall i :: 0 <= i < |Numbers(before, agent)| ==> Numbers(before, agent)[i] == numbers[i];
      MaxIsCount(before, agent);
    }
  }

  lemma NumbersAppend(versions: seq<VersionRow>, row: VersionRow, agent: Id)
    ensures Numbers(versions + [row], agent)
      == if row.agent == agent then Numbers(versions, agent) + [row.versionN] else Numbers(versions, agent)
  {
    assert (versions + [row])[..|versions|] == versions;
  }

  lemma {:induction false} NumbersIgnoreContents(versions: seq<VersionRow>, k: nat, row: VersionRow, agent: Id)
    requires k < |versions| && row.agent == versions[k].agent && row.versionN == versions[k].versionN
    ensures Numbers(versions[k := row], agent) == Numbers(versions, agent)
  {
    var n := |versions| - 1;
    if k < n {
      NumbersIgnoreContents(versions[..n], k, row, agent);
      assert versions[k := row][..n] == versions[..n][k := row];
    } else {
      assert versions[k := row][..n] == versions[..n];
    }
  }

  lemma {:induction false} NumbersWithout(versions: seq<VersionRow>, gone: Id, agent: Id)
    ensures Numbers(Without(versions, gone), agent) == if agent == gone then [] else Numbers(versions, agent)
  {
    if versions != [] {
      var before, last := versions[..|versions| - 1], versions[|versions| - 1];
      NumbersWithout(before, gone, agent);
      NumbersAppend(Without(before, gone), last, agent);
    }
  }

  /** What stays is what does not belong to the agent, each row in one place, in the same order. */
  lemma {:induction false} WithoutKeepsOthers(versions: seq<VersionRow>, gone: Id)
    ensures forall row :: row in Without(versions, gone) <==> row in versions && row.agent != gone
    ensures forall i :: 0 <= i < |Without(versions, gone)| ==> Without(versions, gone)[i] in versions
    ensures (forall i, j :: 0 <= i < j < |versions| ==> versions[i].id != versions[j].id) ==>
      forall i, j :: 0 <= i < j < |Without(versions, gone)| ==>
        Without(versions, gone)[i].id != Without(versions, gone)[j].id
  {
    if versions != [] {
      var before, last := versions[..|versions| - 1], versions[|versions| - 1];
      WithoutKeepsOthers(before, gone);
      assert versions == before + [last];
      assert forall row :: row in before ==> exists k :: 0 <= k < |before| && versions[k] == row;
    }
  }

  // ---- Each operation keeps it ----

  lemma CreateAgentKeeps(hash: HashFunction, s: Store, project: Id, id: Id)
    requires Inv(hash, s) && id !in s.used
    ensures Inv(hash, CreateAgent(s, project, id).0)
  {
    hide Numbers;
  }

  lemma DeleteAgentKeeps(hash: HashFunction, s: Store, project: Id, agent: Id)
    requires Inv(hash, s)
    ensures Inv(hash, DeleteAgent(s, project, agent).0)
  {
    hide Numbers, Without, DistinctNames;
    var s' := DeleteAgent(s, project, agent).0;
    if s' != s {
      WithoutKeepsOthers(s.versions, agent);
      forall a ensures CountsUp(Numbers(s'.versions, a)) {
        NumbersWithout(s.versions, agent, a);
      }
      forall i | 0 <= i < |s'.sessions| ensures IsPinned(s', s'.sessions[i]) {
        var x := s.sessions[i];
        assert IsPinned(s, x);
        var k :| 0 <= k < |s.versions| && s.versions[k].id == x.version && s.versions[k].agent == x.agent;
        assert s.versions[k] in s'.versions;
      }
    }
  }

  lemma CreateVersionKeeps(hash: HashFunction, s: Store, project: Id, agent: Id, body: Configuration, id: Id)
    requires Inv(hash, s) && id !in s.used
    ensures Inv(hash, CreateVersion(hash, s, project, agent, body, id).0)
  {
    hide Numbers, DistinctNames, MaxVersionN;
    var s' := CreateVersion(hash, s, project, agent, body, id).0;
    if s' != s {
      var row := s'.versions[|s.versions|];
      MaxIsCount(s.versions, agent);
      forall a ensures CountsUp(Numbers(s'.versions, a)) {
        NumbersAppend(s.versions, row, a);
      }
      PinsSurvive(s, s');
    }
  }

  /** Sessions stay pinned as long as no version goes away. */
  lemma PinsSurvive(s: Store, s': Store)
    requires SessionsArePinned(s) && s'.sessions == s.sessions && |s.versions| <= |s'.versions|
    requires forall k :: 0 <= k < |s.versions| ==>
      s'.versions[k].id == s.versions[k].id && s'.versions[k].agent == s.versions[k].agent
    ensures SessionsArePinned(s')
  {
    forall i | 0 <= i < |s.sessions| ensures IsPinned(s', s.sessions[i]) {
      var x := s.sessions[i];
      assert IsPinned(s, x);
      var k :| 0 <= k < |s.versions| && s.versions[k].id == x.version && s.versions[k].agent == x.agent;
      assert s'.versions[k].id == x.version;
    }
  }

  /** Rewriting one row, identity and number kept. */
  lemma RewriteKeeps(hash: HashFunction, s: Store, k: nat, row: VersionRow)
    requires Inv(hash, s) && k < |s.versions|
    requires var was := s.versions[k];
      && row.id == was.id && row.organization == was.organization && row.project == was.project
      && row.agent == was.agent && row.versionN == was.versionN
    requires row.configHash == hash(row.Hashed()) && DistinctNames(row.configuration.tools)
    requires row.status == Published <==> row.publishedAt.Some?
    ensures Inv(hash, s.(versions := s.versions[k := row]))
  {
    hide Numbers, DistinctNames;
    var s' := s.(versions := s.versions[k := row]);
    forall a ensures CountsUp(Numbers(s'.versions, a)) {
      NumbersIgnoreContents(s.versions, k, row, a);
    }
    PinsSurvive(s, s');
  }

  lemma UpdateVersionKeeps(hash: HashFunction, s: Store, project: Id, agent: Id, version: Id, patch: Patch)
    requires Inv(hash, s)
    ensures Inv(hash, UpdateVersion(hash, s, project, agent, version, patch).0)
  {
    hide Numbers, DistinctNames, IdsAreDistinct, RowsBelong, SessionsArePinned, VersionsAreNumbered;
    var (s', answer) := UpdateVersion(hash, s, project, agent, version, patch);
    if s' != s {
      RewriteKeeps(hash, s, GetForAgent(s, project, agent, version).value, answer.version);
    }
  }

  lemma PublishVersionKeeps(hash: HashFunction, s: Store, project: Id, agent: Id, version: Id, now: int)
    requires Inv(hash, s)
    ensures Inv(hash, PublishVersion(s, project, agent, version, now).0)
  {
    hide Numbers, DistinctNames, IdsAreDistinct, RowsBelong, SessionsArePinned, VersionsAreNumbered;
    var (s', answer) := PublishVersion(s, project, agent, version, now);
    if s' != s {
      RewriteKeeps(hash, s, GetForAgent(s, project, agent, version).value, answer.version);
    }
  }

  lemma CreateSessionKeeps(hash: HashFunction, s: Store, project: Id, agent: Id, pinned: Option<Id>, id: Id)
    requires Inv(hash, s) && id !in s.used
    ensures Inv(hash, CreateSession(s, project, agent, pinned, id).0)
  {
    hide Numbers, DistinctNames, LatestPublished;
    var (s', answer) := CreateSession(s, project, agent, pinned, id);
    if s' != s {
      forall i | 0 <= i < |s'.sessions| ensures IsPinned(s', s'.sessions[i]) {
        if i < |s.sessions| {
          assert IsPinned(s, s.sessions[i]);
        } else {
          var k := ChooseVersion(s, project, agent, pinned).value;
          assert s.versions[k].id == answer.session.version;
        }
      }
    }
  }

  lemma StepKeeps(hash: HashFunction, s: Store, op: Op)
    requires Inv(hash, s)
    ensures Inv(hash, Step(hash, s, op))
  {
    hide Inv, CreateAgent, DeleteAgent, CreateVersion, UpdateVersion, PublishVersion, CreateSession;
    if !IsReuse(s, op) {
      match op
      case NewAgent(project, id) => CreateAgentKeeps(hash, s, project, id);
      case RemoveAgent(project, agent) => DeleteAgentKeeps(hash, s, project, agent);
      case NewVersion(project, agent, body, id) => CreateVersionKeeps(hash, s, project, agent, body, id);
      case ChangeVersion(project, agent, version, patch) => UpdateVersionKeeps(hash, s, project, agent, version, patch);
      case Publish(project, agent, version, now) => PublishVersionKeeps(hash, s, project, agent, version, now);
      case NewSession(project, agent, pinned, id) => CreateSessionKeeps(hash, s, project, agent, pinned, id);
    }
  }

  lemma {:induction false} RunKeeps(hash: HashFunction, s: Store, ops: seq<Op>)
    requires Inv(hash, s)
    ensures Inv(hash, RunFrom(hash, s, ops))
  {
    hide Inv, Step;
    if ops != [] {
      RunKeeps(hash, s, ops[..|ops| - 1]);
      StepKeeps(hash, RunFrom(hash, s, ops[..|ops| - 1]), ops[|ops| - 1]);
    }
  }

  /** Over every run from empty tables: each hash is the hash of the row's current fields, the numbers of an agent's
      versions are 1, 2, 3, ... in the order of creation, a publication time marks exactly the published rows, and
      every session's version is there. */
  lemma EveryRunIsConsistent(hash: HashFunction, projects: map<Id, Id>, ops: seq<Op>)
    ensures var s := RunFrom(hash, Fresh(projects), ops);
      && HashesAreCurrent(hash, s.versions) && VersionsAreNumbered(s.versions)
      && TimestampsMarkPublished(s.versions) && SessionsArePinned(s)
  {
    hide RunFrom;
    RunKeeps(hash, Fresh(projects), ops);
  }
}
