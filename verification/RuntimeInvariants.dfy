/** What every uninterrupted piece of the runtime keeps, and what it never undoes. */
module RuntimeInvariants {
  import opened Common
  import opened PyStrings
  import opened Conversation
  import opened TurnLifecycle
  import opened Events
  import opened RuntimeSpec

  /** The current turn is the only one that is still active; every other turn is terminal. */
  ghost predicate OneActiveTurn(r: Runtime) {
    && (forall t :: t in r.turns ==> !r.turns[t].state.Created? && r.turns[t].WellFormed())
    && (r.current.Some? ==> r.current.value in r.turns && r.turns[r.current.value].state.Active?)
    && (forall t :: t in r.turns && r.turns[t].state.Active? ==> r.current == Some(t))
  }

  ghost predicate CancelledIdsAgree(r: Runtime) {
    && (forall t :: t in r.context.cancelled ==>
          t in r.turns && (r.turns[t].state.Cancelled? || r.turns[t].state.Failed?))
    && (forall t :: t in r.turns && r.turns[t].state.Cancelled? ==> t in r.context.cancelled)
  }

  /** The i-th admitted event has number i: nothing that took a number was dropped. */
  ghost predicate LogIsGapless(r: Runtime) {
    && |r.admitted| == r.context.sequence
    && forall i :: 0 <= i < |r.admitted| ==> r.admitted[i].sequence == i + 1
  }

  ghost predicate TurnsAreNumbered(r: Runtime) {
    && (forall t :: t in r.turns ==> 1 <= r.turns[t].sequence <= r.context.turnSequence)
    && (forall t, u :: t in r.turns && u in r.turns && t != u ==> r.turns[t].sequence != r.turns[u].sequence)
    && (r.current.Some? && r.current.value in r.turns ==>
          r.turns[r.current.value].sequence == r.context.turnSequence)
  }

  ghost predicate InterruptedOnce(r: Runtime) {
    forall t :: Interrupts(r.admitted, t) == if t in r.turns && r.turns[t].state.Cancelled? then 1 else 0
  }

  ghost predicate QuietAfterShutdown(r: Runtime) {
    r.context.shutdown || !r.running ==> r.current.None?
  }

  ghost predicate TokensAgree(r: Runtime) {
    && (forall k :: k in r.fired ==> k.turn in r.context.cancelled && k.serial < r.tokenCount)
    && (forall t :: t in r.llmTokens ==> r.llmTokens[t].turn == t && r.llmTokens[t].serial < r.tokenCount)
    && (forall t :: t in r.ttsTokens ==> r.ttsTokens[t].turn == t && r.ttsTokens[t].serial < r.tokenCount)
    && (forall t :: t in r.sttTokens ==> r.sttTokens[t].turn == t && r.sttTokens[t].serial < r.tokenCount)
  }

  /** Some admitted response event of the turn carried exactly this message's text. */
  ghost predicate WasSpoken(log: seq<Event>, t: TurnId, parts: seq<Part>) {
    exists k :: 0 <= k < |log| && log[k].turn == Some(t) && log[k].payload.LlmResponse?
      && parts == [TextPart(Some(log[k].payload.response))]
  }

  /** One text part with a stripped text that is not empty. */
  ghost predicate IsQuestion(parts: seq<Part>) {
    && |parts| == 1 && parts[0].TextPart? && parts[0].text.Some?
    && parts[0].text.value != "" && IsStripped(parts[0].text.value)
  }

  /** Some admitted final transcript of the turn, stripped, is this text. */
  ghost predicate WasHeard(log: seq<Event>, t: TurnId, text: string) {
    exists k :: 0 <= k < |log| && IsFinalTranscript(log[k], t) && text == Strip(log[k].payload.text)
  }

  predicate SamePair(i: int, j: int) {
    i == j || (i % 2 == 0 && j == i + 1)
  }

  /** The ledger is a list of USER/ASSISTANT pairs of completed turns, in turn order. */
  ghost predicate LedgerIsPaired(r: Runtime) {
    && Numbered(r.ledger)
    && |r.ledger| % 2 == 0
    && (forall i :: 0 <= i < |r.ledger| ==>
          && r.ledger[i].role == (if i % 2 == 0 then User else Assistant)
          && r.ledger[i].status == Committed
          && r.ledger[i].turn in r.turns
          && r.turns[r.ledger[i].turn].state.Completed?)
    && (forall i, j :: 0 <= i <= j < |r.ledger| ==>
          if SamePair(i, j) then r.ledger[i].turn == r.ledger[j].turn
          else r.turns[r.ledger[i].turn].sequence < r.turns[r.ledger[j].turn].sequence)
    && (forall i :: 0 <= i < |r.ledger| && i % 2 == 0 ==> IsQuestion(r.ledger[i].parts))
    && (forall i :: 0 <= i < |r.ledger| && i % 2 == 1 ==>
          WasSpoken(r.admitted, r.ledger[i].turn, r.ledger[i].parts))
  }

  /** Everything but the last clause also holds inside `stop`, between its request and its cancellation. */
  ghost predicate Core(r: Runtime) {
    && OneActiveTurn(r)
    && CancelledIdsAgree(r)
    && LogIsGapless(r)
    && TurnsAreNumbered(r)
    && InterruptedOnce(r)
    && TokensAgree(r)
    && LedgerIsPaired(r)
  }

  ghost predicate Inv(r: Runtime) {
    Core(r) && QuietAfterShutdown(r)
  }

  /** Turns are never removed or renumbered, and a terminal turn never changes again. */
  ghost predicate TurnsEvolve(a: map<TurnId, Turn>, b: map<TurnId, Turn>) {
    forall t :: t in a ==>
      t in b && b[t].sequence == a[t].sequence && (a[t].state.IsTerminal() ==> b[t] == a[t])
  }

  /** What happens to the fields over time: logs only grow, terminal turns are final, cancelled turns are silent. */
  ghost predicate Leads(r: Runtime, r': Runtime) {
    && r.admitted <= r'.admitted
    && r.ledger <= r'.ledger
    && r.context.cancelled <= r'.context.cancelled
    && r.tokenCount <= r'.tokenCount
    && (r.context.shutdown ==> r'.context.shutdown && r'.turns.Keys == r.turns.Keys)
    && TurnsEvolve(r.turns, r'.turns)
    && (forall i :: |r.admitted| <= i < |r'.admitted| ==> !r'.admitted[i].IsStale(r.context.cancelled))
  }

  lemma LeadsReflexive(r: Runtime)
    ensures Leads(r, r)
  {
  }

  lemma LeadsTransitive(a: Runtime, b: Runtime, c: Runtime)
    requires Leads(a, b) && Leads(b, c)
    ensures Leads(a, c)
  {
    forall i | |a.admitted| <= i < |c.admitted|
      ensures !c.admitted[i].IsStale(a.context.cancelled)
    {
      if i < |b.admitted| {
        assert c.admitted[i] == b.admitted[i];
      } else {
        assert !c.admitted[i].IsStale(b.context.cancelled);
      }
    }
  }

  // ---- One clause at a time ----

  lemma AdmittingKeepsSpoken(log: seq<Event>, log': seq<Event>, t: TurnId, parts: seq<Part>)
    requires log <= log' && WasSpoken(log, t, parts)
    ensures WasSpoken(log', t, parts)
  {
    var k :| 0 <= k < |log| && log[k].turn == Some(t) && log[k].payload.LlmResponse?
      && parts == [TextPart(Some(log[k].payload.response))];
    assert log'[k] == log[k];
  }

  lemma AdmittingKeepsHeard(log: seq<Event>, log': seq<Event>, t: TurnId, text: string)
    requires log <= log' && WasHeard(log, t, text)
    ensures WasHeard(log', t, text)
  {
    hide Strip;
    var k :| 0 <= k < |log| && IsFinalTranscript(log[k], t) && text == Strip(log[k].payload.text);
    assert log'[k] == log[k];
  }

  /** The transcript found is that of the turn's last final transcript event, and it is found whenever there is one. */
  lemma {:induction false} FinalTranscriptIsLast(log: seq<Event>, t: TurnId)
    ensures FinalTranscript(log, t).None? ==> forall k :: 0 <= k < |log| ==> !IsFinalTranscript(log[k], t)
    ensures FinalTranscript(log, t).Some? ==>
      exists k :: 0 <= k < |log| && IsFinalTranscript(log[k], t) && log[k].payload.text == FinalTranscript(log, t).value
        && forall j :: k < j < |log| ==> !IsFinalTranscript(log[j], t)
  {
    if log != [] && !IsFinalTranscript(log[|log| - 1], t) {
      FinalTranscriptIsLast(log[..|log| - 1], t);
    }
  }

  /** The ledger stays paired while turns only move forward and the log only grows. */
  lemma LedgerKept(r: Runtime, r': Runtime)
    requires LedgerIsPaired(r) && TurnsEvolve(r.turns, r'.turns)
    requires r'.ledger == r.ledger && r.admitted <= r'.admitted
    ensures LedgerIsPaired(r')
  {
    forall i | 0 <= i < |r.ledger| && i % 2 == 1
      ensures WasSpoken(r'.admitted, r.ledger[i].turn, r.ledger[i].parts)
    {
      AdmittingKeepsSpoken(r.admitted, r'.admitted, r.ledger[i].turn, r.ledger[i].parts);
    }
  }

  /** An event that interrupts nothing leaves the interruption counts alone. */
  lemma InterruptsKept(log: seq<Event>, e: Event)
    requires !e.payload.AgentInterrupted?
    ensures forall t :: Interrupts(log + [e], t) == Interrupts(log, t)
  {
    forall t: TurnId
      ensures Interrupts(log + [e], t) == Interrupts(log, t)
    {
      InterruptsAppend(log, e, t);
    }
  }

  lemma InterruptCounted(log: seq<Event>, e: Event, t: TurnId)
    requires IsInterrupt(e, t)
    ensures forall u :: Interrupts(log + [e], u) == Interrupts(log, u) + if u == t then 1 else 0
  {
    forall u: TurnId
      ensures Interrupts(log + [e], u) == Interrupts(log, u) + if u == t then 1 else 0
    {
      InterruptsAppend(log, e, u);
    }
  }

  /** An event may be emitted when it cannot be stale; then it is admitted with the next number. */
  ghost predicate MayEmit(r: Runtime, turn: Option<TurnId>, payload: Payload) {
    turn.Some? && payload.StaleIfTurnCancelled() ==> turn.value !in r.context.cancelled
  }

  lemma EmitAdmits(r: Runtime, turn: Option<TurnId>, payload: Payload)
    requires MayEmit(r, turn, payload)
    ensures var r' := Emit(r, turn, payload);
      && r' == r.(context := r'.context, admitted := r'.admitted)
      && r'.context == r.context.(sequence := r.context.sequence + 1)
      && r'.admitted == r.admitted + [Event(r.context.sequence + 1, turn, payload)]
      && r.admitted <= r'.admitted
      && (LogIsGapless(r) ==> LogIsGapless(r'))
      && (forall i :: |r.admitted| <= i < |r'.admitted| ==> !r'.admitted[i].IsStale(r.context.cancelled))
  {
  }

  lemma EmitKeeps(r: Runtime, turn: Option<TurnId>, payload: Payload)
    requires Inv(r) && MayEmit(r, turn, payload) && !payload.AgentInterrupted?
    ensures var r' := Emit(r, turn, payload);
      && Inv(r') && Leads(r, r')
      && r' == r.(context := r'.context, admitted := r'.admitted)
      && r'.context == r.context.(sequence := r.context.sequence + 1)
      && r'.admitted == r.admitted + [Event(r.context.sequence + 1, turn, payload)]
  {
    hide LedgerIsPaired, WasSpoken;
    var r' := Emit(r, turn, payload);
    EmitAdmits(r, turn, payload);
    InterruptsKept(r.admitted, Event(r.context.sequence + 1, turn, payload));
    LedgerKept(r, r');
  }

  // ---- Starting and ending a turn ----

  /** The turn bookkeeping after the active turn t has reached the terminal record `ended`. */
  ghost predicate Ended(r: Runtime, r': Runtime, t: TurnId, ended: Turn) {
    && r'.turns == r.turns[t := ended]
    && r'.current == None
    && r'.context.turnSequence == r.context.turnSequence
  }

  lemma EndingKeepsTurns(r: Runtime, r': Runtime, t: TurnId, ended: Turn)
    requires OneActiveTurn(r) && TurnsAreNumbered(r)
    requires t in r.turns && r.turns[t].state.Active?
    requires ended.state.IsTerminal() && ended.WellFormed() && ended.sequence == r.turns[t].sequence
    requires Ended(r, r', t, ended)
    ensures OneActiveTurn(r') && TurnsAreNumbered(r')
    ensures TurnsEvolve(r.turns, r'.turns) && r'.turns.Keys == r.turns.Keys
  {
  }

  lemma ActiveIsCurrent(r: Runtime, t: TurnId)
    requires OneActiveTurn(r) && CancelledIdsAgree(r) && t in r.turns && !r.turns[t].state.IsTerminal()
    ensures r.turns[t].state.Active? && r.current == Some(t) && t !in r.context.cancelled
  {
  }

  lemma StartKeeps(r: Runtime)
    requires Inv(r)
    ensures Inv(Start(r)) && Leads(r, Start(r))
  {
    if !r.running {
      EmitKeeps(r.(running := true), None, SessionStarted);
    }
  }

  lemma BeginningKeepsTurns(r: Runtime, r': Runtime, newTurn: TurnId, begun: Turn)
    requires OneActiveTurn(r) && TurnsAreNumbered(r) && r.current.None? && newTurn !in r.turns
    requires begun == NewTurn.(sequence := r.context.turnSequence + 1, state := Active)
    requires r'.turns == r.turns[newTurn := begun] && r'.current == Some(newTurn)
    requires r'.context.turnSequence == r.context.turnSequence + 1
    ensures OneActiveTurn(r') && TurnsAreNumbered(r') && TurnsEvolve(r.turns, r'.turns)
  {
  }

  lemma BeginningCancelsNothing(r: Runtime, r': Runtime, newTurn: TurnId, begun: Turn)
    requires CancelledIdsAgree(r) && InterruptedOnce(r) && newTurn !in r.turns && begun.state.Active?
    requires r'.turns == r.turns[newTurn := begun] && r'.context.cancelled == r.context.cancelled
    requires r'.admitted == r.admitted
    ensures CancelledIdsAgree(r') && InterruptedOnce(r')
  {
  }

  /** A turn begins exactly when none is active; the new one is then the active one. */
  lemma BeginTurnKeeps(r: Runtime, newTurn: TurnId)
    requires Inv(r) && newTurn !in r.turns && r.running && !r.context.shutdown
    ensures BeginTurn(r, newTurn).Ok? <==> r.current.None?
    ensures BeginTurn(r, newTurn).Ok? ==>
      var r' := BeginTurn(r, newTurn).value;
      Inv(r') && Leads(r, r') && r'.current == Some(newTurn)
      && newTurn in r'.turns && r'.turns[newTurn].state.Active?
  {
    hide LedgerIsPaired, WasSpoken, CancelledIdsAgree, InterruptedOnce, TurnsAreNumbered;
    if r.current.None? {
      var r' := BeginTurn(r, newTurn).value;
      BeginningKeepsTurns(r, r', newTurn, r'.turns[newTurn]);
      BeginningCancelsNothing(r, r', newTurn, r'.turns[newTurn]);
      LedgerKept(r, r');
    }
  }

  /** Of CompleteTurn's two raise branches only the first can be reached, and only on a terminal turn. */
  lemma CompleteTurnKeeps(r: Runtime, t: TurnId)
    requires Inv(r) && t in r.turns
    ensures CompleteTurn(r, t).Ok? <==> !r.turns[t].state.IsTerminal()
    ensures CompleteTurn(r, t).Ok? ==>
      var r' := CompleteTurn(r, t).value;
      Inv(r') && Leads(r, r') && r'.turns[t].state.Completed? && r'.turns.Keys == r.turns.Keys
  {
    hide LedgerIsPaired, WasSpoken;
    if !r.turns[t].state.IsTerminal() {
      ActiveIsCurrent(r, t);
      var r' := CompleteTurn(r, t).value;
      EndingKeepsTurns(r, r', t, r.turns[t].Complete().value);
      LedgerKept(r, r');
    }
  }

  /** Cancelling or erroring t keeps the cancelled set and the tokens in step with the turns. */
  lemma MarkingKeepsIds(r: Runtime, r': Runtime, t: TurnId, ended: Turn)
    requires CancelledIdsAgree(r) && TokensAgree(r) && t in r.turns
    requires ended.state.Cancelled? || ended.state.Failed?
    requires r'.turns == r.turns[t := ended] && r'.context.cancelled == r.context.cancelled + {t}
    requires r'.fired <= r.fired + TokensOf(r, t) && r'.tokenCount == r.tokenCount
    requires r'.llmTokens == r.llmTokens && r'.ttsTokens == r.ttsTokens && r'.sttTokens == r.sttTokens
    ensures CancelledIdsAgree(r') && TokensAgree(r')
  {
  }

  lemma CancellingCountsOnce(r: Runtime, r': Runtime, t: TurnId, ended: Turn, e: Event)
    requires InterruptedOnce(r) && t in r.turns && r.turns[t].state.Active? && ended.state.Cancelled?
    requires r'.turns == r.turns[t := ended] && IsInterrupt(e, t) && r'.admitted == r.admitted + [e]
    ensures InterruptedOnce(r')
  {
    InterruptCounted(r.admitted, e, t);
  }

  lemma OtherEndingCountsNothing(r: Runtime, r': Runtime, t: TurnId, ended: Turn, e: Event)
    requires InterruptedOnce(r) && t in r.turns && r.turns[t].state.Active? && !ended.state.Cancelled?
    requires r'.turns == r.turns[t := ended] && !e.payload.AgentInterrupted? && r'.admitted == r.admitted + [e]
    ensures InterruptedOnce(r')
  {
    InterruptsKept(r.admitted, e);
  }

  /** The turn that is cancelled gets its one interruption; no other count changes. */
  lemma CancelTurnKeeps(r: Runtime, t: TurnId)
    requires Core(r) && t in r.turns
    ensures CancelTurn(r, t).Ok?
    ensures var r' := CancelTurn(r, t).value;
      && Core(r') && Leads(r, r') && r'.turns.Keys == r.turns.Keys && r'.running == r.running
      && r'.context.shutdown == r.context.shutdown && r'.activeTasks == r.activeTasks
      && (if r.turns[t].state.IsTerminal() then r' == r
          else r'.turns[t].state.Cancelled? && t in r'.context.cancelled && r'.current.None?)
  {
    hide LedgerIsPaired, WasSpoken, InterruptedOnce, TurnsAreNumbered, CancelledIdsAgree, TokensAgree;
    if !r.turns[t].state.IsTerminal() {
      ActiveIsCurrent(r, t);
      var ended := r.turns[t].Cancel().value;
      var marked := r.(fired := r.fired + TokensOf(r, t), turns := r.turns[t := ended],
                       context := r.context.(cancelled := r.context.cancelled + {t}));
      var e := Event(r.context.sequence + 1, Some(t), AgentInterrupted);
      EmitAdmits(marked, Some(t), AgentInterrupted);
      var r' := CancelTurn(r, t).value;
      assert r' == marked.(context := r'.context, admitted := r.admitted + [e], current := None);
      CancellingCountsOnce(r, r', t, ended, e);
      MarkingKeepsIds(r, r', t, ended);
      EndingKeepsTurns(r, r', t, ended);
      LedgerKept(r, r');
    }
  }

  lemma FailTurnKeeps(r: Runtime, t: TurnId, code: string)
    requires Inv(r) && t in r.turns
    ensures FailTurn(r, t, code).Ok? <==> !r.turns[t].state.IsTerminal()
    ensures FailTurn(r, t, code).Err? ==> FailTurn(r, t, code).error == InvalidStateTransition
    ensures FailTurn(r, t, code).Ok? ==>
      var r' := FailTurn(r, t, code).value;
      Inv(r') && Leads(r, r') && r'.turns[t].state.Failed? && r'.turns.Keys == r.turns.Keys
  {
    hide LedgerIsPaired, WasSpoken, InterruptedOnce, TurnsAreNumbered;
    if !r.turns[t].state.IsTerminal() {
      ActiveIsCurrent(r, t);
      var ended := r.turns[t].Fail(code).value;
      var e := Event(r.context.sequence + 1, Some(t), ErrorRaised(code));
      EmitAdmits(r.(turns := r.turns[t := ended]), Some(t), ErrorRaised(code));
      var r' := FailTurn(r, t, code).value;
      assert r'.admitted == r.admitted + [e];
      OtherEndingCountsNothing(r, r', t, ended, e);
      EndingKeepsTurns(r, r', t, ended);
      LedgerKept(r, r');
    }
  }

  lemma HandleErrorKeeps(r: Runtime, code: string)
    requires Inv(r)
    ensures HandleError(r, code).Ok?
    ensures var r' := HandleError(r, code).value;
      && Inv(r') && Leads(r, r') && r'.current.None? && r'.turns.Keys == r.turns.Keys
      && (r.current.Some? ==> r.current.value in r'.context.cancelled)
  {
    hide LedgerIsPaired, WasSpoken, InterruptedOnce, TurnsAreNumbered, CancelledIdsAgree, TokensAgree;
    if r.current.Some? {
      var t := r.current.value;
      ActiveIsCurrent(r, t);
      var ended := r.turns[t].Fail(code).value;
      var marked := r.(turns := r.turns[t := ended],
                       context := r.context.(cancelled := r.context.cancelled + {t}));
      var e := Event(r.context.sequence + 1, Some(t), ErrorRaised(code));
      EmitAdmits(marked, Some(t), ErrorRaised(code));
      var r' := HandleError(r, code).value;
      assert r' == marked.(context := r'.context, admitted := r.admitted + [e], current := None);
      OtherEndingCountsNothing(r, r', t, ended, e);
      MarkingKeepsIds(r, r', t, ended);
      EndingKeepsTurns(r, r', t, ended);
      LedgerKept(r, r');
    } else {
      EmitKeeps(r, None, ErrorRaised(code));
    }
  }

  // ---- Committing an exchange ----

  /** Every ledger turn is older than the active one. */
  lemma LedgerIsOlder(r: Runtime, t: TurnId)
    requires LedgerIsPaired(r) && TurnsAreNumbered(r)
    requires t in r.turns && r.turns[t].state.Active? && r.current == Some(t)
    ensures forall i :: 0 <= i < |r.ledger| ==> r.turns[r.ledger[i].turn].sequence < r.turns[t].sequence
  {
  }

  lemma PairAppended(r: Runtime, r': Runtime, t: TurnId, user: Message, reply: Message)
    requires LedgerIsPaired(r) && t in r'.turns
    requires forall i :: 0 <= i < |r.ledger| ==> r.turns[r.ledger[i].turn].sequence < r'.turns[t].sequence
    requires user.turn == reply.turn == t && user.role == User && reply.role == Assistant
    requires user.status == reply.status == Committed && IsQuestion(user.parts)
    requires WasSpoken(r.admitted, t, reply.parts) && r'.admitted == r.admitted
    requires r'.ledger == r.ledger + [user.(sequence := Some(|r.ledger| + 1)), reply.(sequence := Some(|r.ledger| + 2))]
    requires TurnsEvolve(r.turns, r'.turns) && r'.turns[t].state.Completed?
    ensures LedgerIsPaired(r')
  {
    var n := |r.ledger|;
    forall i, j | 0 <= i <= j < n + 2
      ensures if SamePair(i, j) then r'.ledger[i].turn == r'.ledger[j].turn
        else r'.turns[r'.ledger[i].turn].sequence < r'.turns[r'.ledger[j].turn].sequence
    {
      if j < n {
        assert r'.ledger[i] == r.ledger[i] && r'.ledger[j] == r.ledger[j];
      } else if i < n {
        assert r'.ledger[i] == r.ledger[i] && r'.ledger[j].turn == t && !SamePair(i, j);
      }
    }
  }

  /** The ledger after the exchange, when the turn may persist it. */
  function WithPair(c: Config, ledger: seq<Message>, t: TurnId, userText: string, reply: string): seq<Message> {
    if !c.hasLedger then ledger
    else
      var n := |ledger|;
      ledger + [TextEntry(n, t, User, userText).(sequence := Some(n + 1)),
                TextEntry(n + 1, t, Assistant, reply).(sequence := Some(n + 2))]
  }

  lemma CommitEffect(c: Config, r: Runtime, t: TurnId, userText: string, reply: string)
    requires t in r.turns && r.turns[t].state.Active? && r.current == Some(t) && t !in r.context.cancelled
    ensures CommitExchange(c, r, t, userText, reply)
      == Ok(r.(ledger := WithPair(c, r.ledger, t, userText, reply),
               turns := r.turns[t := r.turns[t].Complete().value], current := None))
  {
    assert PersistExchange(c, r, t, userText, reply).ledger == WithPair(c, r.ledger, t, userText, reply);
  }

  lemma CommitKeepsLedger(c: Config, r: Runtime, r': Runtime, t: TurnId, userText: string, reply: string)
    requires LedgerIsPaired(r) && TurnsAreNumbered(r) && r.current == Some(t)
    requires t in r.turns && r.turns[t].state.Active?
    requires WasSpoken(r.admitted, t, [TextPart(Some(reply))]) && r'.admitted == r.admitted
    requires userText != "" && IsStripped(userText)
    requires r'.ledger == WithPair(c, r.ledger, t, userText, reply)
    requires TurnsEvolve(r.turns, r'.turns) && t in r'.turns && r'.turns[t].state.Completed?
    ensures LedgerIsPaired(r') && r.ledger <= r'.ledger
  {
    hide LedgerIsPaired, WasSpoken, TurnsAreNumbered;
    if c.hasLedger {
      var n := |r.ledger|;
      LedgerIsOlder(r, t);
      PairAppended(r, r', t, TextEntry(n, t, User, userText), TextEntry(n + 1, t, Assistant, reply));
    } else {
      LedgerKept(r, r');
    }
  }

  /** Persisting and completing back to back: the pair joins the ledger exactly when its turn completes. */
  lemma CommitKeeps(c: Config, r: Runtime, t: TurnId, userText: string, reply: string)
    requires Inv(r) && t in r.turns && !r.turns[t].state.IsTerminal()
    requires WasSpoken(r.admitted, t, [TextPart(Some(reply))]) && userText != "" && IsStripped(userText)
    ensures var done := CommitExchange(c, r, t, userText, reply);
      && done.Ok?
      && Inv(done.value) && Leads(r, done.value)
      && done.value.turns[t].state.Completed? && done.value.turns.Keys == r.turns.Keys
      && done.value.ledger == WithPair(c, r.ledger, t, userText, reply)
  {
    hide LedgerIsPaired, WasSpoken, CommitExchange, WithPair;
    ActiveIsCurrent(r, t);
    CommitEffect(c, r, t, userText, reply);
    var r' := CommitExchange(c, r, t, userText, reply).value;
    EndingKeepsTurns(r, r', t, r.turns[t].Complete().value);
    CommitKeepsLedger(c, r, r', t, userText, reply);
  }

  // ---- Stopping ----

  lemma RequestKeeps(r: Runtime, closing: Runtime)
    requires Core(r) && closing == r.(context := r.context.(shutdown := true))
    ensures Core(closing) && Leads(r, closing)
  {
    hide LedgerIsPaired, WasSpoken;
    LedgerKept(r, closing);
  }

  lemma StopBeginKeeps(r: Runtime)
    requires Inv(r)
    ensures StopBegin(r).Ok?
    ensures var r' := StopBegin(r).value;
      && Inv(r') && Leads(r, r') && r'.context.shutdown && r'.turns.Keys == r.turns.Keys
      && (forall t :: t in r'.turns ==> r'.turns[t].state.IsTerminal())
  {
    hide LedgerIsPaired, WasSpoken, InterruptedOnce, CancelledIdsAgree, TokensAgree, CancelTurn;
    var closing := r.(context := r.context.(shutdown := true));
    RequestKeeps(r, closing);
    if r.current.Some? {
      ActiveIsCurrent(r, r.current.value);
      CancelTurnKeeps(closing, r.current.value);
      LeadsTransitive(r, closing, CancelTurn(closing, r.current.value).value);
    }
  }

  lemma StopFinishKeeps(r: Runtime, reason: string)
    requires Inv(r) && r.context.shutdown
    ensures Inv(StopFinish(r, reason)) && Leads(r, StopFinish(r, reason))
  {
    hide LedgerIsPaired, WasSpoken;
    EmitKeeps(r, None, SessionEnded(reason));
    LedgerKept(r, StopFinish(r, reason));
  }
}
