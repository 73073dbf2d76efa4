/** The in-memory message store: one ledger per session. */
module MemoryLedger {
  import opened Common
  import opened Conversation

  type SessionId = nat

  datatype Appended = Appended(session: SessionId, message: Message)

  function Bucket(buckets: map<SessionId, seq<Message>>, session: SessionId): seq<Message> {
    if session in buckets then buckets[session] else []
  }

  /** The buckets after a series of appends to any sessions. */
  function Buckets(appends: seq<Appended>): map<SessionId, seq<Message>> {
    if appends == [] then map[]
    else
      var before, last := Buckets(appends[..|appends| - 1]), appends[|appends| - 1];
      before[last.session := AppendMessage(Bucket(before, last.session), last.message)]
  }

  class InMemoryConversationRepository {
    var messagesBySession: map<SessionId, seq<Message>>
    ghost var appends: seq<Appended>

    ghost predicate Valid()
      reads this
    {
      messagesBySession == Buckets(appends)
    }

    constructor ()
      ensures Valid() && appends == []
    {
      messagesBySession, appends := map[], [];
    }

    method Append(session: SessionId, m: Message) returns (stored: Message)
      requires Valid()
      modifies this
      ensures Valid() && appends == old(appends) + [Appended(session, m)]
      ensures stored == m.(sequence := Some(|Bucket(old(messagesBySession), session)| + 1))
      ensures Bucket(messagesBySession, session) == Bucket(old(messagesBySession), session) + [stored]
      ensures forall other :: other != session ==>
        Bucket(messagesBySession, other) == Bucket(old(messagesBySession), other)
    {
      if session !in messagesBySession {
        messagesBySession := messagesBySession[session := []];
      }
      var bucket := messagesBySession[session];
      stored := m.(sequence := Some(|bucket| + 1));
      messagesBySession := messagesBySession[session := bucket + [stored]];
      appends := appends + [Appended(session, m)];
      assert appends[..|appends| - 1] == old(appends);
    }
  }

  /** What was appended to one session, in order. */
  function Of(appends: seq<Appended>, session: SessionId): seq<Message> {
    if appends == [] then []
    else
      var last := appends[|appends| - 1];
      Of(appends[..|appends| - 1], session) + if last.session == session then [last.message] else []
  }

  /** The messages with their one-based positions stamped on. */
  ghost predicate IsStamped(bucket: seq<Message>, own: seq<Message>) {
    && Numbered(bucket) && |bucket| == |own|
    && forall i :: 0 <= i < |own| ==> bucket[i] == own[i].(sequence := Some(i + 1))
  }

  lemma StampOneMore(bucket: seq<Message>, own: seq<Message>, m: Message)
    requires IsStamped(bucket, own)
    ensures IsStamped(AppendMessage(bucket, m), own + [m])
  {
  }

  /** However appends to different sessions are interleaved, a session's ledger is what was appended to it, in order,
      numbered from 1: no gap, no repetition, no influence of other sessions. */
  lemma {:induction false} SessionsAreIndependent(appends: seq<Appended>, session: SessionId)
    ensures IsStamped(Bucket(Buckets(appends), session), Of(appends, session))
  {
    hide IsStamped, AppendMessage;
    if appends == [] {
      EmptyIsStamped();
    } else {
      var init := appends[..|appends| - 1];
      SessionsAreIndependent(init, session);
      assert Of(init, session) + [] == Of(init, session);
      StampOneMore(Bucket(Buckets(init), session), Of(init, session), appends[|appends| - 1].message);
    }
  }

  lemma EmptyIsStamped()
    ensures IsStamped([], [])
  {
  }
}
