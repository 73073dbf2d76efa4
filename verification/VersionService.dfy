/** The version and session services, assigning to the rows of their tables. */
module VersionService {
  import opened Common
  import opened VersionPublishing

  class Services {
    const projects: map<Id, Id>
    const hash: HashFunction
    var agents: map<Id, AgentRow>
    var versions: seq<VersionRow>
    var sessions: seq<SessionRow>
    var used: set<Id>

    function Tables(): Store
      reads this
    {
      Store(projects, agents, versions, sessions, used)
    }

    ghost predicate Consistent()
      reads this
    {
      Inv(hash, Tables())
    }

    constructor (projects: map<Id, Id>, hash: HashFunction)
      ensures Tables() == Fresh(projects) && this.hash == hash && Consistent()
    {
      this.projects, this.hash := projects, hash;
      agents, versions, sessions, used := map[], [], [], {};
      new;
      RunKeeps(hash, Fresh(projects), []);
    }

    /** Whether the agent belongs to the project, and the project's organization. */
    method RequireAgent(project: Id, agent: Id) returns (organization: Option<Id>)
      ensures organization == if HasAgent(Tables(), project, agent) then Some(projects[project]) else None
    {
      if project !in projects {
        return None;
      }
      if agent !in agents || agents[agent] != AgentRow(projects[project], project) {
        return None;
      }
      return Some(projects[project]);
    }

    method CreateAgent(project: Id, id: Id) returns (answer: Answer)
      requires Consistent() && id !in used
      modifies this`agents, this`used
      ensures (Tables(), answer) == VersionPublishing.CreateAgent(old(Tables()), project, id)
      ensures Consistent()
    {
      hide Inv;
      CreateAgentKeeps(hash, Tables(), project, id);
      if project !in projects {
        return Refused(NotFound);
      }
      agents := agents[id := AgentRow(projects[project], project)];
      used := used + {id};
      return Done;
    }

    method DeleteAgent(project: Id, agent: Id) returns (answer: Answer)
      requires Consistent()
      modifies this`agents, this`versions
      ensures (Tables(), answer) == VersionPublishing.DeleteAgent(old(Tables()), project, agent)
      ensures Consistent()
    {
      hide Inv, Without;
      DeleteAgentKeeps(hash, Tables(), project, agent);
      var organization := RequireAgent(project, agent);
      if organization.None? {
        return Refused(NotFound);
      }
      if exists x :: x in sessions && x.agent == agent {
        return Refused(StillReferenced);
      }
      versions := Without(versions, agent);
      agents := agents - {agent};
      return Done;
    }

    method CreateVersion(project: Id, agent: Id, body: Configuration, id: Id) returns (answer: Answer)
      requires Consistent() && id !in used
      modifies this
      ensures (Tables(), answer) == VersionPublishing.CreateVersion(hash, old(Tables()), project, agent, body, id)
      ensures Consistent()
    {
      hide Inv, NextVersionN, DistinctNames;
      CreateVersionKeeps(hash, Tables(), project, agent, body, id);
      if !DistinctNames(body.tools) {
        return Refused(DuplicateTool);
      }
      var organization := RequireAgent(project, agent);
      if organization.None? {
        return Refused(NotFound);
      }
      var versionN := NextVersionN(versions, agent);
      var snapshot :=
        VersionRow(id, organization.value, project, agent, versionN, Draft, body, "", None).WithHash(hash);
      versions := versions + [snapshot];
      used := used + {id};
      return VersionAnswer(snapshot);
    }

    method UpdateVersion(project: Id, agent: Id, version: Id, patch: Patch) returns (answer: Answer)
      requires Consistent()
      modifies this`versions
      ensures (Tables(), answer) == VersionPublishing.UpdateVersion(hash, old(Tables()), project, agent, version, patch)
      ensures Consistent()
    {
      hide Inv, GetForAgent, DistinctNames;
      UpdateVersionKeeps(hash, Tables(), project, agent, version, patch);
      if patch.tools.Some? && !DistinctNames(patch.tools.value) {
        return Refused(DuplicateTool);
      }
      var found := GetForAgent(Tables(), project, agent, version);
      if found.None? {
        return Refused(NotFound);
      }
      var row := versions[found.value];
      if row.status != Draft {
        return Refused(PublishedImmutable);
      }
      row := row.(configuration := Patched(row.configuration, patch)).WithHash(hash);
      versions := versions[found.value := row];
      return VersionAnswer(row);
    }

    method PublishVersion(project: Id, agent: Id, version: Id, now: int) returns (answer: Answer)
      requires Consistent()
      modifies this`versions
      ensures (Tables(), answer) == VersionPublishing.PublishVersion(old(Tables()), project, agent, version, now)
      ensures Consistent()
    {
      hide Inv, GetForAgent;
      PublishVersionKeeps(hash, Tables(), project, agent, version, now);
      var found := GetForAgent(Tables(), project, agent, version);
      if found.None? {
        return Refused(NotFound);
      }
      var row := versions[found.value];
      if row.status == Published {
        return VersionAnswer(row);
      }
      row := row.(status := Published);
      row := row.(publishedAt := Some(now));
      versions := versions[found.value := row];
      return VersionAnswer(row);
    }

    method CreateSession(project: Id, agent: Id, pinned: Option<Id>, id: Id) returns (answer: Answer)
      requires Consistent() && id !in used
      modifies this`sessions, this`used
      ensures (Tables(), answer) == VersionPublishing.CreateSession(old(Tables()), project, agent, pinned, id)
      ensures Consistent()
    {
      hide Inv, GetForAgent, LatestPublished;
      CreateSessionKeeps(hash, Tables(), project, agent, pinned, id);
      var organization := RequireAgent(project, agent);
      if organization.None? {
        return Refused(NotFound);
      }
      var found: Option<nat>;
      if pinned.Some? {
        found := GetForAgent(Tables(), project, agent, pinned.value);
        if found.None? {
          return Refused(NotFound);
        }
      } else {
        found := LatestPublished(versions, organization.value, project, agent);
        if found.None? {
          return Refused(NoPublishedVersion);
        }
      }
      var row := versions[found.value];
      var session := SessionRow(id, organization.value, project, agent, row.id, row.configHash);
      sessions := sessions + [session];
      used := used + {id};
      return SessionAnswer(session);
    }
  }
}
