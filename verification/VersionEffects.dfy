/** What the version and session operations change, what they leave alone, and exactly when they are refused. */
module VersionEffects {
  import opened Common
  import opened VersionPublishing
  import opened VersionHistory

  /** The row of this version, if it belongs to this agent of this project. */
  ghost predicate IsRowOf(s: Store, project: Id, agent: Id, version: Id, row: VersionRow) {
    && row in s.versions && row.id == version && row.agent == agent && row.project == project
    && project in s.projects && row.organization == s.projects[project]
  }

  lemma FoundIffRow(hash: HashFunction, s: Store, project: Id, agent: Id, version: Id)
    requires Inv(hash, s)
    ensures GetForAgent(s, project, agent, version).None? <==> forall row :: !IsRowOf(s, project, agent, version, row)
    ensures GetForAgent(s, project, agent, version).Some? ==>
      IsRowOf(s, project, agent, version, s.versions[GetForAgent(s, project, agent, version).value])
  {
    hide Numbers, DistinctNames;
    if GetForAgent(s, project, agent, version).None? {
      forall row ensures !IsRowOf(s, project, agent, version, row) {
        if IsRowOf(s, project, agent, version, row) {
          IsFound(hash, s, row);
        }
      }
    } else {
      var k := GetForAgent(s, project, agent, version).value;
      assert s.versions[k] in s.versions;
      assert IsRowOf(s, project, agent, version, s.versions[k]);
    }
  }

  lemma IsFound(hash: HashFunction, s: Store, row: VersionRow)
    requires Inv(hash, s) && row in s.versions
    ensures Find(s.versions, row.id).Some? && s.versions[Find(s.versions, row.id).value] == row
  {
    hide Numbers, DistinctNames;
    var k :| 0 <= k < |s.versions| && s.versions[k] == row;
    assert Find(s.versions, row.id) == Some(k);
  }

  // ---- Updating ----

  /** The fields a patch sets. */
  datatype Field = Instructions | Personality | Locale | Llm | Stt | Tts | Tools

  predicate Sets(p: Patch, f: Field) {
    match f
    case Instructions => p.instructions.Some?
    case Personality => p.personality.Some?
    case Locale => p.locale.Some?
    case Llm => p.llm.Some?
    case Stt => p.stt.Some?
    case Tts => p.tts.Some?
    case Tools => p.tools.Some?
  }

  /** Each field that the patch holds has its value afterwards, each other field its old one. */
  ghost predicate IsPatched(before: Configuration, p: Patch, after: Configuration) {
    && (forall v :: p.instructions == Some(v) ==> after.instructions == v)
    && (p.instructions.None? ==> after.instructions == before.instructions)
    && (forall v :: p.personality == Some(v) ==> after.personality == v)
    && (p.personality.None? ==> after.personality == before.personality)
    && (forall v :: p.locale == Some(v) ==> after.locale == v) && (p.locale.None? ==> after.locale == before.locale)
    && (forall v :: p.llm == Some(v) ==> after.llm == v) && (p.llm.None? ==> after.llm == before.llm)
    && (forall v :: p.stt == Some(v) ==> after.stt == v) && (p.stt.None? ==> after.stt == before.stt)
    && (forall v :: p.tts == Some(v) ==> after.tts == v) && (p.tts.None? ==> after.tts == before.tts)
    && (forall v :: p.tools == Some(v) ==> after.tools == v) && (p.tools.None? ==> after.tools == before.tools)
  }

  /** One row has been replaced; everything else in the tables is as it was. */
  ghost predicate OnlyRowChanged(s: Store, s': Store, row: VersionRow, row': VersionRow) {
    exists k :: 0 <= k < |s.versions| && s.versions[k] == row && s' == s.(versions := s.versions[k := row'])
  }

  /** An update is refused exactly for duplicate tools, a version that is not there, or a published one; then nothing
      changes. */
  lemma UpdateIsRefusedIff(hash: HashFunction, s: Store, project: Id, agent: Id, version: Id, patch: Patch)
    requires Inv(hash, s)
    ensures var (s', answer) := UpdateVersion(hash, s, project, agent, version, patch);
      && (answer == Refused(DuplicateTool) <==> patch.tools.Some? && !DistinctNames(patch.tools.value))
      && (answer == Refused(NotFound) <==>
            && !(patch.tools.Some? && !DistinctNames(patch.tools.value))
            && forall row :: !IsRowOf(s, project, agent, version, row))
      && (answer == Refused(PublishedImmutable) <==>
            && !(patch.tools.Some? && !DistinctNames(patch.tools.value))
            && exists row :: IsRowOf(s, project, agent, version, row) && row.status == Published)
      && (answer.Refused? ==> s' == s)
  {
    hide Inv, DistinctNames, GetForAgent;
    FoundIffRow(hash, s, project, agent, version);
    forall row, other | IsRowOf(s, project, agent, version, row) && IsRowOf(s, project, agent, version, other)
      ensures row == other
    {
      OneRowPerId(hash, s, row, other);
    }
  }

  /** An accepted update changes the draft's configuration field by field as the patch says, and its hash with it, and
      nothing else in the tables. */
  lemma UpdateEffect(hash: HashFunction, s: Store, project: Id, agent: Id, version: Id, patch: Patch, row: VersionRow)
    requires Inv(hash, s) && IsRowOf(s, project, agent, version, row)
    requires UpdateVersion(hash, s, project, agent, version, patch).1.VersionAnswer?
    ensures var (s', answer) := UpdateVersion(hash, s, project, agent, version, patch);
      && OnlyRowChanged(s, s', row, answer.version) && row.status == Draft
      && answer.version
           == row.(configuration := answer.version.configuration, configHash := hash(answer.version.Hashed()))
      && IsPatched(row.configuration, patch, answer.version.configuration)
  {
    hide Inv, DistinctNames, GetForAgent;
    FoundIffRow(hash, s, project, agent, version);
    var k := GetForAgent(s, project, agent, version).value;
    OneRowPerId(hash, s, row, s.versions[k]);
  }

  const NoChange := Patch(None, None, None, None, None, None, None)

  /** A patch that sets nothing leaves the tables as they are, hash included. */
  lemma EmptyPatchChangesNothing(hash: HashFunction, s: Store, project: Id, agent: Id, version: Id)
    requires Inv(hash, s)
    ensures UpdateVersion(hash, s, project, agent, version, NoChange).0 == s
  {
    hide Numbers, DistinctNames, Find;
    if GetForAgent(s, project, agent, version).Some? {
      var k := GetForAgent(s, project, agent, version).value;
      assert Patched(s.versions[k].configuration, NoChange) == s.versions[k].configuration;
      assert s.versions[k].WithHash(hash) == s.versions[k];
      assert s.versions[k := s.versions[k]] == s.versions;
    }
  }

  /** Patches that set different fields may be applied in either order. */
  lemma DisjointPatchesCommute(c: Configuration, p: Patch, q: Patch)
    requires forall f :: !(Sets(p, f) && Sets(q, f))
    ensures Patched(Patched(c, p), q) == Patched(Patched(c, q), p)
  {
    assert !(Sets(p, Instructions) && Sets(q, Instructions)) && !(Sets(p, Personality) && Sets(q, Personality));
    assert !(Sets(p, Locale) && Sets(q, Locale)) && !(Sets(p, Llm) && Sets(q, Llm));
    assert !(Sets(p, Stt) && Sets(q, Stt)) && !(Sets(p, Tts) && Sets(q, Tts)) && !(Sets(p, Tools) && Sets(q, Tools));
  }

  /** On the tables as well: two updates of one draft with different fields end in the same tables in either order. */
  lemma DisjointUpdatesCommute(
      hash: HashFunction, s: Store, project: Id, agent: Id, version: Id, p: Patch, q: Patch)
    requires Inv(hash, s) && forall f :: !(Sets(p, f) && Sets(q, f))
    ensures UpdateVersion(hash, UpdateVersion(hash, s, project, agent, version, p).0, project, agent, version, q).0
         == UpdateVersion(hash, UpdateVersion(hash, s, project, agent, version, q).0, project, agent, version, p).0
  {
    hide Inv, DistinctNames, Patched;
    if GetForAgent(s, project, agent, version).Some? {
      var k := GetForAgent(s, project, agent, version).value;
      DisjointPatchesCommute(s.versions[k].configuration, p, q);
      StillFound(hash, s, project, agent, version, p);
      StillFound(hash, s, project, agent, version, q);
    }
  }

  lemma StillFound(hash: HashFunction, s: Store, project: Id, agent: Id, version: Id, p: Patch)
    requires Inv(hash, s) && GetForAgent(s, project, agent, version).Some?
    ensures GetForAgent(UpdateVersion(hash, s, project, agent, version, p).0, project, agent, version)
         == GetForAgent(s, project, agent, version)
  {
    hide Numbers, DistinctNames, Patched;
    var k := GetForAgent(s, project, agent, version).value;
    var s' := UpdateVersion(hash, s, project, agent, version, p).0;
    assert forall j :: 0 <= j < |s.versions| ==> s'.versions[j].id == s.versions[j].id;
    assert Find(s'.versions, version) == Some(k);
  }

  // ---- Creating and publishing ----

  /** An agent is created exactly in a project that is there; it then belongs to that project and its organization. */
  lemma CreateAgentEffect(s: Store, project: Id, id: Id)
    requires id !in s.agents
    ensures var (s', answer) := CreateAgent(s, project, id);
      && (answer == Refused(NotFound) <==> project !in s.projects) && (answer.Refused? ==> s' == s)
      && (!answer.Refused? ==>
            && answer == Done && HasAgent(s', project, id) && s'.agents - {id} == s.agents
            && s' == s.(agents := s'.agents, used := s.used + {id}))
  {
  }

  /** A version is created exactly for distinct tools and an agent that is there; it is a draft with the configuration
      asked for and the next number, added behind all others, and the answer. */
  lemma CreateVersionEffect(hash: HashFunction, s: Store, project: Id, agent: Id, body: Configuration, id: Id)
    requires Inv(hash, s)
    ensures var (s', answer) := CreateVersion(hash, s, project, agent, body, id);
      && (answer.VersionAnswer? <==> DistinctNames(body.tools) && HasAgent(s, project, agent))
      && (answer.VersionAnswer? ==>
            var row := answer.version;
            && s' == s.(versions := s.versions + [row], used := s.used + {id})
            && row.id == id && row.agent == agent && row.project == project && row.organization == s.projects[project]
            && row.versionN == |Numbers(s.versions, agent)| + 1 && row.status == Draft && row.publishedAt.None?
            && row.configuration == body && row.configHash == hash(row.Hashed()))
      && (!answer.VersionAnswer? ==> s' == s && (answer == Refused(DuplicateTool) || answer == Refused(NotFound)))
      && (answer == Refused(DuplicateTool) <==> !DistinctNames(body.tools))
  {
    hide Numbers, DistinctNames, MaxVersionN;
    MaxIsCount(s.versions, agent);
  }

  /** Publishing is refused exactly when the version is not there; a draft becomes published at that time with nothing
      else changed, and a published version stays as it is. */
  lemma PublishEffect(hash: HashFunction, s: Store, project: Id, agent: Id, version: Id, now: int)
    requires Inv(hash, s)
    ensures var (s', answer) := PublishVersion(s, project, agent, version, now);
      && (answer == Refused(NotFound) <==> forall row :: !IsRowOf(s, project, agent, version, row))
      && (answer.Refused? ==> answer == Refused(NotFound) && s' == s)
      && (forall row :: IsRowOf(s, project, agent, version, row) ==>
            && answer.VersionAnswer?
            && (row.status == Published ==> s' == s && answer.version == row)
            && (row.status == Draft ==>
                  && answer.version == row.(status := Published, publishedAt := Some(now))
                  && OnlyRowChanged(s, s', row, answer.version)))
  {
    hide Inv, GetForAgent;
    FoundIffRow(hash, s, project, agent, version);
    forall row | IsRowOf(s, project, agent, version, row)
      ensures row == s.versions[GetForAgent(s, project, agent, version).value]
    {
      OneRowPerId(hash, s, row, s.versions[GetForAgent(s, project, agent, version).value]);
    }
  }

  // ---- Sessions and agents ----

  /** A session is refused exactly when its agent or the version asked for is not there, or when none is asked for and
      none is published; it is added behind all others and carries its version's identity and current hash. */
  lemma CreateSessionEffect(hash: HashFunction, s: Store, project: Id, agent: Id, pinned: Option<Id>, id: Id)
    requires Inv(hash, s)
    ensures var (s', answer) := CreateSession(s, project, agent, pinned, id);
      && (answer == Refused(NotFound) <==>
            || !HasAgent(s, project, agent)
            || (pinned.Some? && forall row :: !IsRowOf(s, project, agent, pinned.value, row)))
      && (answer == Refused(NoPublishedVersion) <==>
            && HasAgent(s, project, agent) && pinned.None?
            && forall row :: row in s.versions ==> !IsPublishedOf(row, s.projects[project], project, agent))
      && (answer.Refused? ==> s' == s)
      && (answer.SessionAnswer? ==>
            && s' == s.(sessions := s.sessions + [answer.session], used := s.used + {id})
            && answer.session.id == id && answer.session.project == project && answer.session.agent == agent
            && answer.session.organization == s.projects[project]
            && exists row :: IsRowOf(s, project, agent, answer.session.version, row)
                 && answer.session.configHash == row.configHash)
  {
    hide Inv, GetForAgent, LatestPublished;
    if pinned.Some? {
      FoundIffRow(hash, s, project, agent, pinned.value);
    } else if HasAgent(s, project, agent) {
      LatestIffPublished(s.versions, s.projects[project], project, agent);
    }
    var (s', answer) := CreateSession(s, project, agent, pinned, id);
    if answer.SessionAnswer? {
      var k := ChooseVersion(s, project, agent, pinned).value;
      assert s.versions[k] in s.versions;
      assert IsRowOf(s, project, agent, answer.session.version, s.versions[k]);
    }
  }

  lemma LatestIffPublished(versions: seq<VersionRow>, organization: Id, project: Id, agent: Id)
    ensures LatestPublished(versions, organization, project, agent).None?
      <==> forall row :: row in versions ==> !IsPublishedOf(row, organization, project, agent)
    ensures var latest := LatestPublished(versions, organization, project, agent);
      latest.Some? ==> IsPublishedOf(versions[latest.value], organization, project, agent)
  {
    if LatestPublished(versions, organization, project, agent).None? {
      forall row | row in versions ensures !IsPublishedOf(row, organization, project, agent) {
        var k :| 0 <= k < |versions| && versions[k] == row;
      }
    } else {
      var k := LatestPublished(versions, organization, project, agent).value;
      assert versions[k] in versions;
    }
  }

  /** An agent is deleted exactly when it is there and no session belongs to it; with it go exactly its versions. */
  lemma DeleteAgentEffect(s: Store, project: Id, agent: Id)
    ensures var (s', answer) := DeleteAgent(s, project, agent);
      && (answer == Refused(NotFound) <==> !HasAgent(s, project, agent))
      && (answer == Refused(StillReferenced) <==>
            HasAgent(s, project, agent) && exists x :: x in s.sessions && x.agent == agent)
      && (answer.Refused? ==> s' == s)
      && (!answer.Refused? ==>
            && answer == Done && agent !in s'.agents && s'.agents == s.agents - {agent} && s'.sessions == s.sessions
            && forall row :: row in s'.versions <==> row in s.versions && row.agent != agent)
  {
    hide Without;
    WithoutKeepsOthers(s.versions, agent);
  }
}
