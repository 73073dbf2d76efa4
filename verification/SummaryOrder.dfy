/** When the coverage of the stored summary moves forward, for runs with any overlap of calls. */
module SummaryOrder {
  import opened Common
  import opened PyStrings
  import opened Conversation
  import opened LlmContext
  import opened Summarization
  import opened SummaryRuns

  /** Of two summaries of one ledger, the one that covers more messages reaches further, and the other way round. */
  lemma ThroughByCount(a: Stored, b: Stored, ledger: seq<Message>)
    requires Numbered(ledger) && Covers(a, ledger) && Covers(b, ledger)
    ensures a.summary.throughSequence < b.summary.throughSequence
      <==> a.summary.sourceMessageCount < b.summary.sourceMessageCount
  {
    hide Counting;
    CountingIsIncreasing(ledger);
    var counting := Counting(ledger);
    assert counting[|a.folded| - 1] == a.folded[|a.folded| - 1];
    assert counting[|b.folded| - 1] == b.folded[|b.folded| - 1];
  }

  lemma OneStepMore(config: LlmConfig, ops: seq<Op>, op: Op)
    ensures Run(config, ops + [op]) == Step(config, Run(config, ops), op)
  {
    assert (ops + [op])[..|ops|] == ops;
  }

  /** The call waits for a text. */
  predicate Waits(s: State, call: nat) {
    call in s.calls && (s.calls[call].AwaitingFirst? || s.calls[call].AwaitingShorter?)
  }

  predicate Upserts(config: LlmConfig, s: State, op: Op) {
    Step(config, s, op).upserts != s.upserts
  }

  /** Only an answer to a waiting call touches the store, and then it stores one summary more. */
  lemma StepUpserts(config: LlmConfig, s: State, op: Op)
    requires StateInv(s)
    ensures !Upserts(config, s, op) ==> Step(config, s, op).store == s.store
    ensures Upserts(config, s, op) ==> op.Answer? && Waits(s, op.answered) && Step(config, s, op).store.Some?
    ensures Upserts(config, s, op) ==>
      var plan, st := s.calls[op.answered].plan, Step(config, s, op).store.value;
      && PlanIsSound(plan) && st.folded == FoldedOf(plan.existing) + plan.uncovered
      && Step(config, s, op).upserts == s.upserts + [st] && Step(config, s, op).ledger == s.ledger
  {
    hide StoreCovers, PlanIsSound, Covers, Begin, AfterFirst, AfterShorter;
    match op {
      case Append(_) =>
      case Call(_, userText, cancelled) => BeginEnds(config, s.store, s.ledger, userText, cancelled);
      case Answer(call, g, cancelled) =>
        if call in s.calls {
          SoundCallDrops(s.calls[call], s.ledger);
          AnswerIsSound(config, s.calls[call], s.ledger, g, cancelled);
        }
    }
  }

  // ---- The exact condition for one upsert ----

  lemma CountIsFolded(st: Stored, ledger: seq<Message>)
    requires Covers(st, ledger)
    ensures st.summary.sourceMessageCount == |st.folded|
  {
  }

  lemma StateCovers(s: State)
    requires StateInv(s)
    ensures Numbered(s.ledger) && (s.store.Some? ==> Covers(s.store.value, s.ledger))
  {
  }

  /** Whenever an answer stores a summary over another, whatever else is waiting: the coverage moves forward exactly
      when the answered call had dropped more messages than the stored summary counts. */
  lemma UpsertRaisesCoverageIff(config: LlmConfig, ops: seq<Op>, op: Op)
    requires Run(config, ops).store.Some? && Upserts(config, Run(config, ops), op)
    ensures var s, s' := Run(config, ops), Run(config, ops + [op]);
      && op.Answer? && Waits(s, op.answered) && s'.store.Some?
      && (s'.store.value.summary.throughSequence > s.store.value.summary.throughSequence
          <==> |s.calls[op.answered].plan.dropped| > s.store.value.summary.sourceMessageCount)
  {
    hide Run, Step, Covers, PlanIsSound, StateInv;
    var s, s' := Run(config, ops), Run(config, ops + [op]);
    OneStepMore(config, ops, op);
    RunIsSound(config, ops);
    RunIsSound(config, ops + [op]);
    StepUpserts(config, s, op);
    FoldsToDropped(s.calls[op.answered].plan);
    StateCovers(s);
    StateCovers(s');
    ThroughByCount(s.store.value, s'.store.value, s.ledger);
    CountIsFolded(s'.store.value, s.ledger);
  }

  // ---- Whole runs ----

  /** Every stored summary reaches further than all before it. */
  ghost predicate Rises(upserts: seq<Stored>) {
    forall i, j :: 0 <= i < j < |upserts| ==> upserts[i].summary.throughSequence < upserts[j].summary.throughSequence
  }

  /** If the operation stores a summary over another, its call dropped more messages than that one counts. */
  ghost predicate DropsMore(config: LlmConfig, s: State, op: Op) {
    Upserts(config, s, op) && s.store.Some? ==>
      && op.Answer? && Waits(s, op.answered)
      && |s.calls[op.answered].plan.dropped| > s.store.value.summary.sourceMessageCount
  }

  ghost predicate DropsMoreAt(config: LlmConfig, ops: seq<Op>, n: nat)
    requires n < |ops|
  {
    DropsMore(config, Run(config, ops[..n]), ops[n])
  }

  ghost predicate AllDropMore(config: LlmConfig, ops: seq<Op>) {
    forall n :: 0 <= n < |ops| ==> DropsMoreAt(config, ops, n)
  }

  lemma {:induction false} StoreIsLastUpsert(config: LlmConfig, ops: seq<Op>)
    ensures var s := Run(config, ops);
      s.store == if s.upserts == [] then None else Some(s.upserts[|s.upserts| - 1])
  {
    if ops != [] {
      hide Step, StateInv;
      var init := ops[..|ops| - 1];
      StoreIsLastUpsert(config, init);
      RunIsSound(config, init);
      StepUpserts(config, Run(config, init), ops[|ops| - 1]);
    }
  }

  lemma RisesAppend(upserts: seq<Stored>, st: Stored)
    ensures Rises(upserts + [st])
      <==> Rises(upserts)
           && (upserts != [] ==> upserts[|upserts| - 1].summary.throughSequence < st.summary.throughSequence)
  {
    var more := upserts + [st];
    assert more[|upserts|] == st;
    assert forall i :: 0 <= i < |upserts| ==> more[i] == upserts[i];
    if Rises(more) && upserts != [] {
      assert more[|upserts| - 1].summary.throughSequence < more[|upserts|].summary.throughSequence;
    }
  }

  lemma DropsMoreInPrefix(config: LlmConfig, ops: seq<Op>)
    requires ops != []
    ensures AllDropMore(config, ops)
      <==> AllDropMore(config, ops[..|ops| - 1]) && DropsMore(config, Run(config, ops[..|ops| - 1]), ops[|ops| - 1])
  {
    hide Run, DropsMore;
    var init := ops[..|ops| - 1];
    forall n | 0 <= n < |init| ensures DropsMoreAt(config, init, n) <==> DropsMoreAt(config, ops, n) {
      assert init[..n] == ops[..n];
    }
    assert DropsMoreAt(config, ops, |ops| - 1) <==> DropsMore(config, Run(config, init), ops[|ops| - 1]);
  }

  /** Over a whole run, with any overlap: the coverage strictly increases at every upsert exactly when each upsert over
      another summary is for a call that had dropped more messages than that one counts. */
  lemma {:induction false} CoverageRisesIff(config: LlmConfig, ops: seq<Op>)
    ensures Rises(Run(config, ops).upserts) <==> AllDropMore(config, ops)
  {
    hide Run, Step, StateInv, DropsMore, AllDropMore, Rises;
    if ops == [] {
      NothingRises(config);
    } else {
      var init, op := ops[..|ops| - 1], ops[|ops| - 1];
      CoverageRisesIff(config, init);
      DropsMoreInPrefix(config, ops);
      RisingStep(config, init, op);
      assert ops == init + [op];
    }
  }

  lemma NothingRises(config: LlmConfig)
    ensures Rises(Run(config, []).upserts) && AllDropMore(config, [])
  {
  }

  lemma RisingStep(config: LlmConfig, ops: seq<Op>, op: Op)
    ensures Rises(Run(config, ops + [op]).upserts)
      <==> Rises(Run(config, ops).upserts) && DropsMore(config, Run(config, ops), op)
  {
    hide Run, Step, StateInv, Rises, PlanIsSound;
    var s := Run(config, ops);
    OneStepMore(config, ops, op);
    RunIsSound(config, ops);
    StepUpserts(config, s, op);
    StoreIsLastUpsert(config, ops);
    if Upserts(config, s, op) {
      RisesAppend(s.upserts, Step(config, s, op).store.value);
      if s.store.Some? {
        UpsertRaisesCoverageIff(config, ops, op);
      }
    }
  }

  // ---- Overlap only matters between calls that both store ----

  /** The operation with which a waiting call began. */
  function BeganAt(config: LlmConfig, ops: seq<Op>, call: nat): (b: nat)
    requires call in Run(config, ops).calls
    ensures b < |ops|
  {
    var init := ops[..|ops| - 1];
    if call in Run(config, init).calls then BeganAt(config, init, call) else |ops| - 1
  }

  predicate UpsertsAt(config: LlmConfig, ops: seq<Op>, n: nat)
    requires n < |ops|
  {
    Upserts(config, Run(config, ops[..n]), ops[n])
  }

  /** From the beginning of a call to its upsert no other call upserts. Calls that store nothing, because they are
      cancelled, fail or are not accepted, may overlap anything. */
  ghost predicate StoringCallsAreApart(config: LlmConfig, ops: seq<Op>) {
    forall m, n :: 0 <= m < n < |ops| && UpsertsAt(config, ops, m) && UpsertsAt(config, ops, n) ==>
      && ops[n].Answer? && ops[n].answered in Run(config, ops[..n]).calls
      && m < BeganAt(config, ops[..n], ops[n].answered)
  }

  /** A call keeps its plan while it waits, and it starts from the summary stored at that moment. */
  lemma CallsChangeByTheirOps(config: LlmConfig, s: State, op: Op, call: nat)
    requires StateInv(s) && call in Step(config, s, op).calls
    ensures Waits(Step(config, s, op), call)
    ensures call in s.calls ==> Waits(s, call) && Step(config, s, op).calls[call].plan == s.calls[call].plan
    ensures call !in s.calls ==> Step(config, s, op).calls[call].plan.existing == s.store
  {
    hide StoreCovers, PlanIsSound, Covers, Begin, AfterFirst, AfterShorter;
    match op {
      case Append(_) =>
      case Call(begun, userText, cancelled) =>
        BeginEnds(config, s.store, s.ledger, userText, cancelled);
        if Begin(config, s.store, s.ledger, userText, cancelled).AwaitingFirst? {
          BeginMakesSoundPlan(config, s.store, s.ledger, userText, cancelled);
        }
      case Answer(answered, g, cancelled) =>
        if answered in s.calls {
          SoundCallDrops(s.calls[answered], s.ledger);
          AnswerKeepsPlan(config, s.calls[answered].plan, g, cancelled);
        }
    }
  }

  /** A waiting call builds on the summary that was stored when it began. */
  lemma {:induction false} CallBuildsOnStoreAtBegin(config: LlmConfig, ops: seq<Op>, call: nat)
    requires call in Run(config, ops).calls
    ensures Waits(Run(config, ops), call)
    ensures Run(config, ops).calls[call].plan.existing == Run(config, ops[..BeganAt(config, ops, call)]).store
  {
    if ops != [] {
      hide Step, StateInv;
      var init := ops[..|ops| - 1];
      RunIsSound(config, init);
      CallsChangeByTheirOps(config, Run(config, init), ops[|ops| - 1], call);
      if call in Run(config, init).calls {
        CallBuildsOnStoreAtBegin(config, init, call);
        assert init[..BeganAt(config, init, call)] == ops[..BeganAt(config, init, call)];
      }
    }
  }

  lemma {:induction false} StoreStaysWithoutUpserts(config: LlmConfig, ops: seq<Op>, b: nat, n: nat)
    requires b <= n <= |ops| && forall m :: b <= m < n ==> !UpsertsAt(config, ops, m)
    ensures Run(config, ops[..n]).store == Run(config, ops[..b]).store
  {
    if b < n {
      hide Run, Step, StateInv, Upserts;
      StoreStaysWithoutUpserts(config, ops, b, n - 1);
      assert ops[..n] == ops[..n - 1] + [ops[n - 1]];
      assert !UpsertsAt(config, ops, n - 1);
      OneStepMore(config, ops[..n - 1], ops[n - 1]);
      RunIsSound(config, ops[..n - 1]);
      StepUpserts(config, Run(config, ops[..n - 1]), ops[n - 1]);
    }
  }

  /** When the calls that store something do not overlap each other, throughSequence strictly increases at every upsert;
      cancelled, failed and refused calls may overlap freely. */
  lemma CoverageStrictlyIncreases(config: LlmConfig, ops: seq<Op>)
    requires StoringCallsAreApart(config, ops)
    ensures Rises(Run(config, ops).upserts)
  {
    hide Run, DropsMoreAt, Rises, StoringCallsAreApart;
    forall n | 0 <= n < |ops| ensures DropsMoreAt(config, ops, n) {
      ApartDropsMore(config, ops, n);
    }
    CoverageRisesIff(config, ops);
  }

  lemma ApartDropsMore(config: LlmConfig, ops: seq<Op>, n: nat)
    requires StoringCallsAreApart(config, ops) && n < |ops|
    ensures DropsMoreAt(config, ops, n)
  {
    hide Run, Step, PlanIsSound, Covers, StateInv, BeganAt, Upserts;
    var before := ops[..n];
    var s := Run(config, before);
    if Upserts(config, s, ops[n]) && s.store.Some? {
      RunIsSound(config, before);
      StepUpserts(config, s, ops[n]);
      var call := ops[n].answered;
      var b := BeganAt(config, before, call);
      CallBuildsOnStoreAtBegin(config, before, call);
      assert before[..b] == ops[..b];
      assert UpsertsAt(config, ops, n);
      assert forall m :: b <= m < n ==> !UpsertsAt(config, ops, m);
      StoreStaysWithoutUpserts(config, ops, b, n);
      PlanDropsMore(s.calls[call].plan);
      StateCovers(s);
      CountIsFolded(s.store.value, s.ledger);
    }
  }

  lemma PlanDropsMore(plan: Plan)
    requires PlanIsSound(plan)
    ensures |FoldedOf(plan.existing)| < |plan.dropped|
  {
  }
}
