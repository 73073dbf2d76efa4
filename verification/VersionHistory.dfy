/** What happens to version rows and session pins over time. */
module VersionHistory {
  import opened Common
  import opened VersionPublishing

  /** The same version at a later time: only a draft may have changed, and only in its configuration or by being
      published. */
  ghost predicate Evolves(row: VersionRow, later: VersionRow) {
    && later.id == row.id && later.organization == row.organization && later.project == row.project
    && later.agent == row.agent && later.versionN == row.versionN
    && (row.status == Published ==> later == row)
  }

  /** The agent is gone, and its identity will not come back. */
  ghost predicate AgentGone(s: Store, agent: Id) {
    agent !in s.agents && agent in s.used
  }

  ghost predicate Continues(s: Store, row: VersionRow) {
    exists later :: later in s.versions && Evolves(row, later)
  }

  /** One step of the tables as seen by a reader. */
  ghost predicate Leads(s: Store, s': Store) {
    && s.used <= s'.used
    && s.sessions <= s'.sessions
    && (forall a :: AgentGone(s, a) ==> AgentGone(s', a))
    && (forall row :: row in s.versions ==> Continues(s', row) || AgentGone(s', row.agent))
    && (forall a :: a in s.agents && AgentGone(s', a) ==> forall x :: x in s.sessions ==> x.agent != a)
  }

  lemma SameRowsLead(s: Store, s': Store)
    requires s.used <= s'.used && s.sessions <= s'.sessions && s.versions <= s'.versions
    requires forall a :: a in s.agents ==> a in s'.agents
    requires forall a :: a in s'.agents ==> a in s.agents || a !in s.used
    ensures Leads(s, s')
  {
    forall row | row in s.versions ensures Continues(s', row) {
      assert Evolves(row, row) && row in s'.versions;
    }
  }

  lemma RewriteLeads(s: Store, k: nat, row: VersionRow)
    requires k < |s.versions| && Evolves(s.versions[k], row)
    ensures Leads(s, s.(versions := s.versions[k := row]))
  {
    var s' := s.(versions := s.versions[k := row]);
    forall r | r in s.versions ensures Continues(s', r) {
      var i :| 0 <= i < |s.versions| && s.versions[i] == r;
      assert s'.versions[i] in s'.versions && Evolves(r, s'.versions[i]);
    }
  }

  lemma DeleteLeads(hash: HashFunction, s: Store, project: Id, agent: Id)
    requires Inv(hash, s)
    ensures Leads(s, DeleteAgent(s, project, agent).0)
  {
    hide Without, Numbers, DistinctNames;
    var s' := DeleteAgent(s, project, agent).0;
    if s' == s {
      SameRowsLead(s, s);
    } else {
      WithoutKeepsOthers(s.versions, agent);
      forall row | row in s.versions ensures Continues(s', row) || AgentGone(s', row.agent) {
        if row.agent != agent {
          assert Evolves(row, row) && row in s'.versions;
        }
      }
    }
  }

  lemma StepLeads(hash: HashFunction, s: Store, op: Op)
    requires Inv(hash, s)
    ensures Leads(s, Step(hash, s, op))
  {
    hide Leads, Inv, DistinctNames, NextVersionN;
    if IsReuse(s, op) {
      SameRowsLead(s, s);
    } else {
      match op
      case NewAgent(project, id) => SameRowsLead(s, Step(hash, s, op));
      case RemoveAgent(project, agent) => DeleteLeads(hash, s, project, agent);
      case NewVersion(project, agent, body, id) => SameRowsLead(s, Step(hash, s, op));
      case ChangeVersion(project, agent, version, patch) =>
        var (s', answer) := UpdateVersion(hash, s, project, agent, version, patch);
        if answer.VersionAnswer? {
          RewriteLeads(s, GetForAgent(s, project, agent, version).value, answer.version);
        } else {
          SameRowsLead(s, s);
        }
      case Publish(project, agent, version, now) =>
        var (s', answer) := PublishVersion(s, project, agent, version, now);
        if s' != s {
          RewriteLeads(s, GetForAgent(s, project, agent, version).value, answer.version);
        } else {
          SameRowsLead(s, s);
        }
      case NewSession(project, agent, pinned, id) => SameRowsLead(s, Step(hash, s, op));
    }
  }

  lemma LeadsTwice(s: Store, s': Store, s'': Store)
    requires Leads(s, s') && Leads(s', s'')
    requires forall a :: a in s.agents ==> a in s.used
    ensures Leads(s, s'')
  {
    forall row | row in s.versions ensures Continues(s'', row) || AgentGone(s'', row.agent) {
      if Continues(s', row) {
        var later :| later in s'.versions && Evolves(row, later);
        if Continues(s'', later) {
          var last :| last in s''.versions && Evolves(later, last);
          assert Evolves(row, last);
        }
      }
    }
    forall a | a in s.agents && AgentGone(s'', a) ensures forall x :: x in s.sessions ==> x.agent != a {
      assert a in s'.agents || AgentGone(s', a);
    }
  }

  lemma {:induction false} RunLeads(hash: HashFunction, s: Store, ops: seq<Op>)
    requires Inv(hash, s)
    ensures Leads(s, RunFrom(hash, s, ops))
  {
    hide Leads, Step, Numbers, DistinctNames;
    if ops == [] {
      SameRowsLead(s, s);
    } else {
      var before := RunFrom(hash, s, ops[..|ops| - 1]);
      RunLeads(hash, s, ops[..|ops| - 1]);
      RunKeeps(hash, s, ops[..|ops| - 1]);
      StepLeads(hash, before, ops[|ops| - 1]);
      LeadsTwice(s, before, RunFrom(hash, s, ops));
    }
  }

  // ---- Published rows ----

  lemma OneRowPerId(hash: HashFunction, s: Store, a: VersionRow, b: VersionRow)
    requires Inv(hash, s) && a in s.versions && b in s.versions && a.id == b.id
    ensures a == b
  {
  }

  /** Whatever happens next, a published row either stays exactly as it is, configuration, hash and time of
      publication, or its agent has been deleted. */
  lemma PublishedRowsAreFrozen(hash: HashFunction, s: Store, ops: seq<Op>, row: VersionRow)
    requires Inv(hash, s) && row in s.versions && row.status == Published
    ensures var s' := RunFrom(hash, s, ops);
      && (row in s'.versions || AgentGone(s', row.agent))
      && forall later :: later in s'.versions && later.id == row.id ==> later == row
  {
    hide Inv, RunFrom;
    var s' := RunFrom(hash, s, ops);
    RunLeads(hash, s, ops);
    RunKeeps(hash, s, ops);
    forall later | later in s'.versions && later.id == row.id ensures later == row {
      if row in s'.versions {
        OneRowPerId(hash, s', row, later);
      } else {
        NoRowsOfGoneAgents(hash, s', row.agent);
        BelongsToSameAgent(hash, s, ops, row, later);
      }
    }
  }

  lemma NoRowsOfGoneAgents(hash: HashFunction, s: Store, agent: Id)
    requires Inv(hash, s) && AgentGone(s, agent)
    ensures forall row :: row in s.versions ==> row.agent != agent
  {
  }

  /** A row's identity stays with its agent: after a run, no row with this id belongs to another agent. */
  lemma {:induction false} BelongsToSameAgent(
      hash: HashFunction, s: Store, ops: seq<Op>, row: VersionRow, later: VersionRow)
    requires Inv(hash, s) && row in s.versions
    requires later in RunFrom(hash, s, ops).versions && later.id == row.id
    ensures later.agent == row.agent
  {
    hide Inv, Step;
    if ops == [] {
      OneRowPerId(hash, s, row, later);
    } else {
      var init := ops[..|ops| - 1];
      var before := RunFrom(hash, s, init);
      RunKeeps(hash, s, init);
      RunLeads(hash, s, init);
      assert row.id in s.used && s.used <= before.used by { UsedIds(hash, s, row); }
      RowsComeFromBefore(hash, before, ops[|ops| - 1], later);
      var earlier :| earlier in before.versions && earlier.id == later.id && earlier.agent == later.agent;
      BelongsToSameAgent(hash, s, init, row, earlier);
    }
  }

  lemma UsedIds(hash: HashFunction, s: Store, row: VersionRow)
    requires Inv(hash, s) && row in s.versions
    ensures row.id in s.used
  {
  }

  lemma RowsComeFromBefore(hash: HashFunction, s: Store, op: Op, later: VersionRow)
    requires later in Step(hash, s, op).versions && later.id in s.used
    ensures exists earlier :: earlier in s.versions && earlier.id == later.id && earlier.agent == later.agent
  {
    hide Numbers, DistinctNames, NextVersionN, Without;
    if op.RemoveAgent? {
      WithoutKeepsOthers(s.versions, op.agent);
      assert later in s.versions;
    } else {
      var s' := Step(hash, s, op);
      var k :| 0 <= k < |s'.versions| && s'.versions[k] == later;
      assert k < |s.versions|;
      assert s.versions[k].id == later.id && s.versions[k].agent == later.agent;
    }
  }

  /** Publishing again changes nothing, whatever the time, and updating is refused. */
  lemma PublishedRefusesChanges(
      hash: HashFunction, s: Store, project: Id, agent: Id, version: Id, now: int, again: int, patch: Patch)
    requires Inv(hash, s) && PublishVersion(s, project, agent, version, now).1.VersionAnswer?
    ensures var s' := PublishVersion(s, project, agent, version, now).0;
      && PublishVersion(s', project, agent, version, again) == (s', PublishVersion(s, project, agent, version, now).1)
      && UpdateVersion(hash, s', project, agent, version, patch).0 == s'
      && UpdateVersion(hash, s', project, agent, version, patch).1.Refused?
  {
    hide Numbers, DistinctNames, Find;
    var s' := PublishVersion(s, project, agent, version, now).0;
    var k := GetForAgent(s, project, agent, version).value;
    PublishVersionKeeps(hash, s, project, agent, version, now);
    assert s'.versions[k].id == version;
    assert Find(s'.versions, version) == Some(k);
  }

  // ---- Session pins ----

  /** The session carries the hash its version has now. */
  ghost predicate Agrees(s: Store, x: SessionRow) {
    exists row :: row in s.versions && row.id == x.version && row.configHash == x.configHash
  }

  ghost predicate IsInjective(hash: HashFunction) {
    forall p, q :: hash(p) == hash(q) ==> p == q
  }

  lemma PinnedRow(hash: HashFunction, s: Store, x: SessionRow) returns (row: VersionRow)
    requires Inv(hash, s) && x in s.sessions
    ensures row in s.versions && row.id == x.version && row.agent == x.agent
  {
    assert IsPinned(s, x);
    var k :| 0 <= k < |s.versions| && s.versions[k].id == x.version && s.versions[k].agent == x.agent;
    row := s.versions[k];
  }

  /** A new session agrees with the version it is pinned to; without an explicit version that is the published one
      with the highest number. */
  lemma NewSessionAgrees(hash: HashFunction, s: Store, project: Id, agent: Id, pinned: Option<Id>, id: Id)
    requires Inv(hash, s) && CreateSession(s, project, agent, pinned, id).1.SessionAnswer?
    ensures var (s', answer) := CreateSession(s, project, agent, pinned, id);
      && answer.session in s'.sessions && Agrees(s', answer.session)
      && (pinned.Some? ==> answer.session.version == pinned.value)
      && (pinned.None? ==> exists row ::
            && row in s.versions && row.id == answer.session.version
            && row.status == Published && row.agent == agent
            && forall other :: other in s.versions && other.agent == agent && other.status == Published ==>
                 other.versionN <= row.versionN)
  {
    hide Numbers, DistinctNames, Find, LatestPublished;
    var (s', answer) := CreateSession(s, project, agent, pinned, id);
    var k := ChooseVersion(s, project, agent, pinned).value;
    var row := s.versions[k];
    assert row in s'.versions;
    if pinned.None? {
      forall other | other in s.versions && other.agent == agent && other.status == Published
        ensures other.versionN <= row.versionN
      {
        var i :| 0 <= i < |s.versions| && s.versions[i] == other;
        assert IsPublishedOf(s.versions[i], s.projects[project], project, agent);
      }
    }
  }

  /** The agent of a session cannot be deleted, so what it is pinned to goes on existing. */
  lemma PinnedRowContinues(hash: HashFunction, s: Store, ops: seq<Op>, x: SessionRow, row: VersionRow)
    requires Inv(hash, s) && x in s.sessions && row in s.versions && row.agent == x.agent
    ensures x in RunFrom(hash, s, ops).sessions && Continues(RunFrom(hash, s, ops), row)
  {
    hide RunFrom, Numbers, DistinctNames;
    RunLeads(hash, s, ops);
    assert row.agent in s.agents;
  }

  /** A session and the row it is pinned to, once published, are there in every continuation. */
  lemma PinnedPublishedRowStays(hash: HashFunction, s: Store, ops: seq<Op>, x: SessionRow, row: VersionRow)
    requires Inv(hash, s) && x in s.sessions
    requires row in s.versions && row.id == x.version && row.agent == x.agent && row.status == Published
    ensures x in RunFrom(hash, s, ops).sessions && row in RunFrom(hash, s, ops).versions
  {
    hide RunFrom, Inv;
    PinnedRowContinues(hash, s, ops, x, row);
  }

  /** A valid configuration that would give the row another hash. */
  ghost predicate OtherHash(hash: HashFunction, row: VersionRow, c: Configuration) {
    DistinctNames(c.tools) && hash(row.(configuration := c).Hashed()) != row.configHash
  }

  function Everything(c: Configuration): Patch {
    Patch(Some(c.instructions), Some(c.personality), Some(c.locale), Some(c.llm), Some(c.stt), Some(c.tts),
          Some(c.tools))
  }

  lemma DraftCanChange(hash: HashFunction, s: Store, row: VersionRow, c: Configuration)
    requires Inv(hash, s) && row in s.versions && row.status == Draft && OtherHash(hash, row, c)
    ensures var s' := RunFrom(hash, s, [ChangeVersion(row.project, row.agent, row.id, Everything(c))]);
      exists later :: later in s'.versions && later.id == row.id && later.configHash != row.configHash
  {
    hide Numbers, DistinctNames;
    var op := ChangeVersion(row.project, row.agent, row.id, Everything(c));
    assert [op][..0] == [];
    assert RunFrom(hash, s, []) == s;
    assert RunFrom(hash, s, [op]) == Step(hash, s, op);
    var k :| 0 <= k < |s.versions| && s.versions[k] == row;
    assert Find(s.versions, row.id) == Some(k);
    assert GetForAgent(s, row.project, row.agent, row.id) == Some(k);
    assert Patched(row.configuration, Everything(c)) == c;
    var later := Step(hash, s, op).versions[k];
    assert later == row.(configuration := c).WithHash(hash);
    assert later in Step(hash, s, op).versions;
  }

  /** Without another hash in reach, a draft keeps the hash it has, whatever is changed in it. */
  lemma DraftKeepsHash(hash: HashFunction, s: Store, row: VersionRow, later: VersionRow)
    requires Inv(hash, s) && later in s.versions && Evolves(row, later)
    requires forall c :: !OtherHash(hash, row, c)
    ensures later.configHash == row.configHash
  {
    hide Numbers, DistinctNames;
    assert !OtherHash(hash, row, later.configuration);
    assert later.Hashed() == row.(configuration := later.configuration).Hashed();
  }

  /** For every hash function: a session that agrees with its version now goes on agreeing in every continuation exactly
      when the version is published or no valid configuration would change its hash. */
  lemma PinHoldsForeverIff(hash: HashFunction, s: Store, x: SessionRow, row: VersionRow)
    requires Inv(hash, s) && x in s.sessions && Agrees(s, x)
    requires row in s.versions && row.id == x.version
    ensures (forall ops :: Agrees(RunFrom(hash, s, ops), x))
      <==> row.status == Published || forall c :: !OtherHash(hash, row, c)
  {
    hide Inv, RunFrom, OtherHash;
    var pinned := PinnedRow(hash, s, x);
    OneRowPerId(hash, s, pinned, row);
    var agreeing :| agreeing in s.versions && agreeing.id == x.version && agreeing.configHash == x.configHash;
    OneRowPerId(hash, s, agreeing, row);
    if row.status == Draft && exists c :: OtherHash(hash, row, c) {
      var c :| OtherHash(hash, row, c);
      var ops := [ChangeVersion(row.project, row.agent, row.id, Everything(c))];
      DraftCanChange(hash, s, row, c);
      RunKeeps(hash, s, ops);
      var later :| later in RunFrom(hash, s, ops).versions && later.id == row.id && later.configHash != row.configHash;
      DisagreesWith(hash, RunFrom(hash, s, ops), x, later);
    } else {
      forall ops ensures Agrees(RunFrom(hash, s, ops), x) {
        PinnedRowContinues(hash, s, ops, x, row);
        RunKeeps(hash, s, ops);
        var later :| later in RunFrom(hash, s, ops).versions && Evolves(row, later);
        if row.status == Draft {
          DraftKeepsHash(hash, RunFrom(hash, s, ops), row, later);
        }
      }
    }
  }

  lemma DisagreesWith(hash: HashFunction, s: Store, x: SessionRow, row: VersionRow)
    requires Inv(hash, s) && row in s.versions && row.id == x.version && row.configHash != x.configHash
    ensures !Agrees(s, x)
  {
    hide Inv;
    forall other | other in s.versions && other.id == x.version ensures other == row {
      OneRowPerId(hash, s, other, row);
    }
  }

  /** With a hash without collisions only published versions will do. */
  lemma PinHoldsForeverIffPublished(hash: HashFunction, s: Store, x: SessionRow, row: VersionRow)
    requires Inv(hash, s) && IsInjective(hash) && x in s.sessions && Agrees(s, x)
    requires row in s.versions && row.id == x.version
    ensures (forall ops :: Agrees(RunFrom(hash, s, ops), x)) <==> row.status == Published
  {
    hide RunFrom, Numbers, DistinctNames, Agrees;
    PinHoldsForeverIff(hash, s, x, row);
    var longer := row.configuration.(instructions := row.configuration.instructions + ".");
    assert |longer.instructions| == |row.configuration.instructions| + 1;
    assert row.(configuration := longer).Hashed() != row.Hashed();
    assert OtherHash(hash, row, longer);
  }
}
