/** Publishing assistant audio: one background task per TTS chunk event, run in any order or dropped. */
module VoiceOutput {
  import opened Common
  import opened TurnLifecycle
  import opened Events
  import opened RuntimeSpec
  import opened RuntimeMachine
  import opened RuntimeInvariants
  import opened ScheduleSafety
  import opened Bridge

  datatype OutputFrame = OutputFrame(turn: TurnId, chunkIndex: nat, eventSequence: nat)

  /** Tasks not yet run (by event number), the next index of each turn, and what the transport was given. */
  datatype Publisher = Publisher(pending: set<nat>, chunkIndexes: map<TurnId, nat>, frames: seq<OutputFrame>)

  function NextIndex(indexes: map<TurnId, nat>, t: TurnId): nat {
    if t in indexes then indexes[t] else 0
  }

  /** The bridge's listener: every newly admitted TTS chunk gets a task. */
  function Listen(p: Publisher, before: nat, log: seq<Event>): Publisher {
    p.(pending := p.pending + set i: nat | before <= i < |log| && log[i].payload.TtsChunk? :: i + 1)
  }

  /** `open` stands for the bridge's lifecycle and connection checks, `resolved` for the resolver's answer. */
  predicate MayPublish(c: Config, r: Runtime, e: Event, open: bool, resolved: bool) {
    && r.running && !r.context.shutdown && c.hasTts
    && e.turn.Some? && e.turn.value !in r.context.cancelled && open
    && e.payload.TtsChunk? && resolved
  }

  function PublishChunk(c: Config, r: Runtime, p: Publisher, e: Event, open: bool, resolved: bool): Publisher {
    if !MayPublish(c, r, e, open, resolved) then p
    else
      var t := e.turn.value;
      var index := NextIndex(p.chunkIndexes, t);
      p.(chunkIndexes := p.chunkIndexes[t := index + 1],
         frames := p.frames + [OutputFrame(t, index, e.sequence)])
  }

  /** The bridge's own bookkeeping, updated in place by `_publish_tts_output`. */
  class OutputBookkeeping {
    var chunkIndexes: map<TurnId, nat>
    var frames: seq<OutputFrame>

    function View(pending: set<nat>): Publisher
      reads this
    {
      Publisher(pending, chunkIndexes, frames)
    }

    constructor ()
      ensures View({}) == Publisher({}, map[], [])
    {
      chunkIndexes := map[];
      frames := [];
    }

    method PublishTtsOutput(c: Config, r: Runtime, e: Event, open: bool, resolved: bool, ghost pending: set<nat>)
      modifies this
      ensures View(pending) == PublishChunk(c, r, old(View(pending)), e, open, resolved)
    {
      if !(r.running && !r.context.shutdown && c.hasTts) {
        return;
      }
      if e.turn.None? {
        return;
      }
      if e.turn.value in r.context.cancelled {
        return;
      }
      if !open {
        return;
      }
      if !e.payload.TtsChunk? {
        return;
      }
      if !resolved {
        return;
      }
      var turnKey := e.turn.value;
      var chunkIndex := NextIndex(chunkIndexes, turnKey);
      chunkIndexes := chunkIndexes[turnKey := chunkIndex + 1];
      frames := frames + [OutputFrame(turnKey, chunkIndex, e.sequence)];
    }
  }

  // ---- Runs ----

  datatype OutputStep =
    | Move(step: Step)
    | RunTask(eventSequence: nat, open: bool, resolved: bool)
    | DropTask(eventSequence: nat)

  datatype Voiced = Voiced(system: System, publisher: Publisher)

  function Act(c: Config, v: Voiced, step: OutputStep): Voiced {
    match step
    case Move(inner) =>
      var moved := Advance(c, v.system, inner);
      Voiced(moved, Listen(v.publisher, |v.system.runtime.admitted|, moved.runtime.admitted))
    case RunTask(k, open, resolved) =>
      var log := v.system.runtime.admitted;
      if k !in v.publisher.pending || !(1 <= k <= |log|) then v
      else v.(publisher := PublishChunk(c, v.system.runtime,
                v.publisher.(pending := v.publisher.pending - {k}), log[k - 1], open, resolved))
    case DropTask(k) => v.(publisher := v.publisher.(pending := v.publisher.pending - {k}))
  }

  function RunOutput(c: Config, steps: seq<OutputStep>): Voiced {
    if steps == [] then Voiced(Initial, Publisher({}, map[], []))
    else Act(c, RunOutput(c, steps[..|steps| - 1]), steps[|steps| - 1])
  }

  function FramesOf(frames: seq<OutputFrame>, t: TurnId): nat {
    if frames == [] then 0
    else FramesOf(frames[..|frames| - 1], t) + if frames[|frames| - 1].turn == t then 1 else 0
  }

  /** Indices count the earlier frames of the same turn, and no two frames come from one event. */
  ghost predicate FramesAreNumbered(p: Publisher) {
    && (forall t :: NextIndex(p.chunkIndexes, t) == FramesOf(p.frames, t))
    && (forall i :: 0 <= i < |p.frames| ==> p.frames[i].chunkIndex == FramesOf(p.frames[..i], p.frames[i].turn))
  }

  ghost predicate FramesComeFromEvents(log: seq<Event>, p: Publisher) {
    && (forall k :: k in p.pending ==> 1 <= k <= |log| && log[k - 1].payload.TtsChunk?)
    && (forall i :: 0 <= i < |p.frames| ==>
          && 1 <= p.frames[i].eventSequence <= |log|
          && p.frames[i].eventSequence !in p.pending
          && log[p.frames[i].eventSequence - 1].payload.TtsChunk?
          && log[p.frames[i].eventSequence - 1].turn == Some(p.frames[i].turn))
    && (forall i, j :: 0 <= i < j < |p.frames| ==> p.frames[i].eventSequence != p.frames[j].eventSequence)
  }

  ghost predicate VoicedInv(v: Voiced) {
    && SystemInv(v.system)
    && FramesAreNumbered(v.publisher)
    && FramesComeFromEvents(v.system.runtime.admitted, v.publisher)
  }

  lemma PublishingKeepsNumbers(c: Config, r: Runtime, p: Publisher, e: Event, open: bool, resolved: bool)
    requires FramesAreNumbered(p)
    ensures FramesAreNumbered(PublishChunk(c, r, p, e, open, resolved))
  {
    var p' := PublishChunk(c, r, p, e, open, resolved);
    if MayPublish(c, r, e, open, resolved) {
      assert p'.frames[..|p.frames|] == p.frames;
      forall i | 0 <= i < |p'.frames|
        ensures p'.frames[i].chunkIndex == FramesOf(p'.frames[..i], p'.frames[i].turn)
      {
        assert p'.frames[..i] == p.frames[..i];
      }
    }
  }

  lemma PublishingKeepsOrigins(c: Config, r: Runtime, p: Publisher, k: nat, open: bool, resolved: bool)
    requires LogIsGapless(r) && FramesComeFromEvents(r.admitted, p) && k in p.pending
    ensures 1 <= k <= |r.admitted|
    ensures FramesComeFromEvents(r.admitted,
              PublishChunk(c, r, p.(pending := p.pending - {k}), r.admitted[k - 1], open, resolved))
  {
  }

  lemma ListeningKeepsOrigins(p: Publisher, before: seq<Event>, log: seq<Event>)
    requires before <= log && FramesComeFromEvents(before, p)
    ensures FramesComeFromEvents(log, Listen(p, |before|, log))
  {
  }

  lemma ActOk(c: Config, v: Voiced, step: OutputStep)
    requires VoicedInv(v)
    ensures VoicedInv(Act(c, v, step))
    ensures Leads(v.system.runtime, Act(c, v, step).system.runtime)
    ensures v.publisher.frames <= Act(c, v, step).publisher.frames
    ensures forall i :: |v.publisher.frames| <= i < |Act(c, v, step).publisher.frames| ==>
      Act(c, v, step).publisher.frames[i].turn !in v.system.runtime.context.cancelled
  {
    hide Core, Advance, FramesAreNumbered, FramesComeFromEvents;
    LeadsReflexive(v.system.runtime);
    match step {
      case Move(inner) =>
        AdvanceOk(c, v.system, inner);
        ListeningKeepsOrigins(v.publisher, v.system.runtime.admitted, Advance(c, v.system, inner).runtime.admitted);
        SameFrames(v.publisher, Act(c, v, step).publisher);
      case RunTask(k, open, resolved) =>
        if k in v.publisher.pending {
          var taken := v.publisher.(pending := v.publisher.pending - {k});
          GaplessLog(v.system.runtime);
          PublishingKeepsOrigins(c, v.system.runtime, v.publisher, k, open, resolved);
          SameFrames(v.publisher, taken);
          PublishingKeepsNumbers(c, v.system.runtime, taken, v.system.runtime.admitted[k - 1], open, resolved);
        }
      case DropTask(k) =>
        SameFrames(v.publisher, Act(c, v, step).publisher);
        DroppingKeepsOrigins(v.system.runtime.admitted, v.publisher, k);
    }
  }

  lemma GaplessLog(r: Runtime)
    requires Core(r)
    ensures LogIsGapless(r)
  {
  }

  lemma SameFrames(p: Publisher, q: Publisher)
    requires FramesAreNumbered(p) && q.frames == p.frames && q.chunkIndexes == p.chunkIndexes
    ensures FramesAreNumbered(q)
  {
  }

  lemma DroppingKeepsOrigins(log: seq<Event>, p: Publisher, k: nat)
    requires FramesComeFromEvents(log, p)
    ensures FramesComeFromEvents(log, p.(pending := p.pending - {k}))
  {
  }

  lemma {:induction false} OutputIsSafe(c: Config, steps: seq<OutputStep>)
    ensures VoicedInv(RunOutput(c, steps))
  {
    hide Act, SystemInv;
    if steps == [] {
      StepsAreSafe(c, []);
    } else {
      OutputIsSafe(c, steps[..|steps| - 1]);
      ActOk(c, RunOutput(c, steps[..|steps| - 1]), steps[|steps| - 1]);
    }
  }

  /** The frames of a turn carry indices 0, 1, 2, ... in the order they reach the transport. */
  lemma ChunkIndicesAreConsecutive(c: Config, steps: seq<OutputStep>, i: nat)
    requires i < |RunOutput(c, steps).publisher.frames|
    ensures var frames := RunOutput(c, steps).publisher.frames;
      frames[i].chunkIndex == FramesOf(frames[..i], frames[i].turn)
  {
    OutputIsSafe(c, steps);
  }

  lemma OriginOf(r: Runtime, p: Publisher, i: nat)
    requires LogIsGapless(r) && FramesComeFromEvents(r.admitted, p) && i < |p.frames|
    ensures 1 <= p.frames[i].eventSequence <= |r.admitted|
    ensures r.admitted[p.frames[i].eventSequence - 1]
      == Event(p.frames[i].eventSequence, Some(p.frames[i].turn), r.admitted[p.frames[i].eventSequence - 1].payload)
    ensures r.admitted[p.frames[i].eventSequence - 1].payload.TtsChunk?
  {
  }

  /** Every frame stems from an admitted TTS chunk of its turn. */
  lemma EveryFrameHasItsChunk(c: Config, steps: seq<OutputStep>, i: nat)
    requires i < |RunOutput(c, steps).publisher.frames|
    ensures var v := RunOutput(c, steps);
      var log, frame := v.system.runtime.admitted, v.publisher.frames[i];
      && 1 <= frame.eventSequence <= |log|
      && log[frame.eventSequence - 1].sequence == frame.eventSequence
      && log[frame.eventSequence - 1].payload.TtsChunk?
      && log[frame.eventSequence - 1].turn == Some(frame.turn)
  {
    hide Core, FramesAreNumbered, FramesComeFromEvents, LogIsGapless, RunOutput;
    OutputIsSafe(c, steps);
    var v := RunOutput(c, steps);
    GaplessLog(v.system.runtime);
    OriginOf(v.system.runtime, v.publisher, i);
  }

  /** No chunk yields two frames. */
  lemma OneFramePerChunk(c: Config, steps: seq<OutputStep>, i: nat, j: nat)
    requires i < j < |RunOutput(c, steps).publisher.frames|
    ensures var frames := RunOutput(c, steps).publisher.frames;
      frames[i].eventSequence != frames[j].eventSequence
  {
    hide Core, FramesAreNumbered, RunOutput;
    OutputIsSafe(c, steps);
  }

  /** Once a turn is in the cancelled set, the transport is given no further frame of it. */
  lemma {:induction false} NoFrameAfterCancellation(
      c: Config, prefix: seq<OutputStep>, steps: seq<OutputStep>, t: TurnId, i: nat)
    requires prefix <= steps && t in RunOutput(c, prefix).system.runtime.context.cancelled
    requires |RunOutput(c, prefix).publisher.frames| <= i < |RunOutput(c, steps).publisher.frames|
    ensures RunOutput(c, steps).publisher.frames[i].turn != t
  {
    FramesAfterCancellation(c, prefix, steps, t);
  }

  lemma {:induction false} FramesAfterCancellation(
      c: Config, prefix: seq<OutputStep>, steps: seq<OutputStep>, t: TurnId)
    requires prefix <= steps && t in RunOutput(c, prefix).system.runtime.context.cancelled
    ensures t in RunOutput(c, steps).system.runtime.context.cancelled
    ensures forall i :: |RunOutput(c, prefix).publisher.frames| <= i < |RunOutput(c, steps).publisher.frames| ==>
      RunOutput(c, steps).publisher.frames[i].turn != t
  {
    hide Act, VoicedInv;
    if prefix != steps {
      var before := steps[..|steps| - 1];
      FramesAfterCancellation(c, prefix, before, t);
      OutputIsSafe(c, before);
      ActOk(c, RunOutput(c, before), steps[|steps| - 1]);
    }
  }

  // ---- What is published ----

  /** After each move, exactly the TTS chunks it admitted have new tasks. */
  lemma NewChunksGetTasks(c: Config, steps: seq<OutputStep>, inner: Step, k: nat)
    ensures var v, v' := RunOutput(c, steps), RunOutput(c, steps + [Move(inner)]);
      var before, log := |v.system.runtime.admitted|, v'.system.runtime.admitted;
      && v'.publisher.frames == v.publisher.frames
      && (k in v'.publisher.pending <==>
            k in v.publisher.pending || (before < k <= |log| && log[k - 1].payload.TtsChunk?))
  {
    hide Advance;
    assert (steps + [Move(inner)])[..|steps|] == steps;
    OutputIsSafe(c, steps);
    var v, v' := RunOutput(c, steps), RunOutput(c, steps + [Move(inner)]);
    var before, log := |v.system.runtime.admitted|, v'.system.runtime.admitted;
    if before < k <= |log| && log[k - 1].payload.TtsChunk? {
      var i: nat := k - 1;
      assert k == i + 1;
    }
  }

  /** Running a pending task hands over exactly one frame, for its chunk and with its turn's next index, exactly when
      the runtime is running with text-to-speech, the turn is not cancelled, the bridge is open and the audio is found;
      otherwise none. Either way the task is done. */
  lemma TaskPublishesIff(c: Config, steps: seq<OutputStep>, k: nat, open: bool, resolved: bool)
    requires k in RunOutput(c, steps).publisher.pending
    ensures var v, v' := RunOutput(c, steps), RunOutput(c, steps + [RunTask(k, open, resolved)]);
      && v'.system == v.system && v'.publisher.pending == v.publisher.pending - {k}
      && 1 <= k <= |v.system.runtime.admitted|
      && var r, turn := v.system.runtime, v.system.runtime.admitted[k - 1].turn;
        v'.publisher.frames
          == v.publisher.frames
             + if r.running && !r.context.shutdown && c.hasTts && open && resolved
                  && turn.Some? && turn.value !in r.context.cancelled
               then [OutputFrame(turn.value, FramesOf(v.publisher.frames, turn.value), k)] else []
  {
    hide RunOutput, FramesOf, SystemInv;
    OutputOnce(c, steps, RunTask(k, open, resolved));
    OutputIsSafe(c, steps);
    PublishingAddsIff(c, RunOutput(c, steps), k, open, resolved);
  }

  lemma OutputOnce(c: Config, steps: seq<OutputStep>, step: OutputStep)
    ensures RunOutput(c, steps + [step]) == Act(c, RunOutput(c, steps), step)
  {
    hide Act;
    assert (steps + [step])[..|steps|] == steps;
  }

  lemma PublishingAddsIff(c: Config, v: Voiced, k: nat, open: bool, resolved: bool)
    requires VoicedInv(v) && k in v.publisher.pending
    ensures var v' := Act(c, v, RunTask(k, open, resolved));
      && v'.system == v.system && v'.publisher.pending == v.publisher.pending - {k}
      && 1 <= k <= |v.system.runtime.admitted|
      && var r, turn := v.system.runtime, v.system.runtime.admitted[k - 1].turn;
        v'.publisher.frames
          == v.publisher.frames
             + if r.running && !r.context.shutdown && c.hasTts && open && resolved
                  && turn.Some? && turn.value !in r.context.cancelled
               then [OutputFrame(turn.value, FramesOf(v.publisher.frames, turn.value), k)] else []
  {
    hide FramesOf, Core;
    GaplessLog(v.system.runtime);
  }
}
