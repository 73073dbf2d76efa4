/** Durable messages, the session ledger, and their provider-neutral form. */
module Conversation {
  import opened Common

  datatype Role = User | Assistant | System | Tool

  datatype Status = Committed | Interrupted

  /** A content part: only text parts with a string payload carry text. */
  datatype Part = TextPart(text: Option<string>) | OtherPart

  datatype Message = Message(
    id: nat, turn: nat, role: Role, status: Status, parts: seq<Part>, sequence: Option<int>)

  datatype ToolCall = ToolCall(id: string, name: string, arguments: string)

  datatype LlmMessage = LlmMessage(
    role: Role, content: string, toolCallId: Option<string>, toolCalls: seq<ToolCall>)

  function TextMessage(role: Role, content: string): LlmMessage {
    LlmMessage(role, content, None, [])
  }

  /** The concatenated text of the non-empty text parts. */
  function PartsText(parts: seq<Part>): string {
    if parts == [] then ""
    else
      (if parts[0].TextPart? && parts[0].text.Some? then parts[0].text.value else "") + PartsText(parts[1..])
  }

  /** Whether a part contributes text. */
  predicate HasText(part: Part) {
    part.TextPart? && part.text.Some? && part.text.value != ""
  }

  lemma {:induction false} TextFromParts(parts: seq<Part>)
    ensures PartsText(parts) == "" <==> forall i :: 0 <= i < |parts| ==> !HasText(parts[i])
  {
    if parts != [] {
      TextFromParts(parts[1..]);
      assert forall i :: 0 < i < |parts| ==> parts[i] == parts[1..][i - 1];
      assert forall i :: 0 <= i < |parts[1..]| ==> parts[1..][i] == parts[i + 1];
    }
  }

  function MessageText(m: Message): (r: Option<string>)
    ensures r.Some? ==> r.value != ""
  {
    var text := PartsText(m.parts);
    if text == "" then None else Some(text)
  }

  /** A message has no text exactly when none of its parts has any; otherwise its text is that of its parts joined. */
  lemma MessageTextIsItsParts(m: Message)
    ensures MessageText(m).None? <==> forall i :: 0 <= i < |m.parts| ==> !HasText(m.parts[i])
    ensures MessageText(m).Some? ==> MessageText(m).value == PartsText(m.parts)
  {
    TextFromParts(m.parts);
  }

  function MessageToLlm(m: Message): Option<LlmMessage> {
    var text := MessageText(m);
    if text.None? || m.role == Tool then None else Some(TextMessage(m.role, text.value))
  }

  /** A message that takes part in budgeting: committed, textual, and not a tool message. */
  predicate Counts(m: Message) {
    m.status == Committed && MessageToLlm(m).Some?
  }

  /** A message counts exactly when it is committed, not a tool message, and some part of it has text; the model then
      gets its role and its text, and nothing about calls. */
  lemma CountsIff(m: Message)
    ensures Counts(m) <==> m.status == Committed && m.role != Tool && exists part :: part in m.parts && HasText(part)
    ensures Counts(m) ==> MessageToLlm(m).value == LlmMessage(m.role, PartsText(m.parts), None, [])
  {
    TextFromParts(m.parts);
    if MessageText(m).Some? {
      var i :| 0 <= i < |m.parts| && HasText(m.parts[i]);
      assert m.parts[i] in m.parts;
    }
  }

  /** The text of parts is put together in their order. */
  lemma {:induction false} PartsInOrder(a: seq<Part>, b: seq<Part>)
    ensures PartsText(a + b) == PartsText(a) + PartsText(b)
  {
    if a == [] {
      assert a + b == b;
    } else {
      PartsInOrder(a[1..], b);
      PartsUnfold(a, b);
    }
  }

  lemma PartsUnfold(a: seq<Part>, b: seq<Part>)
    requires a != []
    ensures PartsText(a + b)
      == (if a[0].TextPart? && a[0].text.Some? then a[0].text.value else "") + PartsText(a[1..] + b)
  {
    assert (a + b)[1..] == a[1..] + b;
  }

  /** A part with text contributes it, any other part nothing. */
  lemma OnePart(part: Part)
    ensures PartsText([part]) == if HasText(part) then part.text.value else ""
  {
    assert [part][1..] == [];
  }

  predicate AllCount(messages: seq<Message>) {
    forall i :: 0 <= i < |messages| ==> Counts(messages[i])
  }

  function Counting(messages: seq<Message>): (r: seq<Message>)
    ensures AllCount(r)
    ensures forall m :: m in r ==> m in messages
  {
    if messages == [] then []
    else
      var init, last := messages[..|messages| - 1], messages[|messages| - 1];
      if Counts(last) then Counting(init) + [last] else Counting(init)
  }

  function ToLlm(counting: seq<Message>): (r: seq<LlmMessage>)
    requires AllCount(counting)
    ensures |r| == |counting|
    ensures forall i :: 0 <= i < |r| ==> r[i] == MessageToLlm(counting[i]).value
  {
    seq(|counting|, i requires 0 <= i < |counting| => MessageToLlm(counting[i]).value)
  }

  /** The loop of committed_messages_to_llm. */
  method CommittedMessagesToLlm(messages: seq<Message>) returns (r: seq<LlmMessage>)
    ensures r == ToLlm(Counting(messages))
  {
    r := [];
    for i := 0 to |messages|
      invariant r == ToLlm(Counting(messages[..i]))
    {
      assert messages[..i + 1][..i] == messages[..i];
      if messages[i].status == Committed {
        var converted := MessageToLlm(messages[i]);
        if converted.Some? {
          r := r + [converted.value];
        }
      }
    }
    assert messages[..|messages|] == messages;
  }

  lemma {:induction false} CountingAppend(a: seq<Message>, b: seq<Message>)
    ensures Counting(a + b) == Counting(a) + Counting(b)
  {
    if b == [] {
      assert a + b == a;
    } else {
      CountingAppend(a, b[..|b| - 1]);
      assert (a + b)[..|a + b| - 1] == a + b[..|b| - 1];
    }
  }

  /** A list in which every message counts is left alone. */
  lemma {:induction false} CountingOfCounting(a: seq<Message>)
    requires AllCount(a)
    ensures Counting(a) == a
  {
    if a != [] {
      CountingOfCounting(a[..|a| - 1]);
    }
  }

  /** The in-memory ledger stamps each message with its one-based position. */
  function AppendMessage(ledger: seq<Message>, m: Message): seq<Message> {
    ledger + [m.(sequence := Some(|ledger| + 1))]
  }

  predicate Numbered(ledger: seq<Message>) {
    forall i :: 0 <= i < |ledger| ==> ledger[i].sequence == Some(i + 1)
  }

  function TextEntry(id: nat, turn: nat, role: Role, text: string): Message {
    Message(id, turn, role, Committed, [TextPart(Some(text))], None)
  }
}
