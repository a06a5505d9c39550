/**
 * The chat page: the initial user and conversation ids, the conversation
 * snapshot handed to the widget, and the records and socket events that
 * sending, receiving an assistant reply and publishing it produce.
 *
 * The page hands each record to the store's `addMessage`, whose definition
 * is not part of this model, so the page logs the calls (`added`) rather
 * than their effect on the store. Socket emits are logged the same way
 * (`sent`); an emit happens only once a socket exists.
 */
module ChatApp {
  import opened Wrappers
  import opened JsText
  import opened ChatTypes
  import ChatStore
  import ByomSdk

  /**
   * `localStorage.getItem('userId') || 'user-' + Math.random().toString(16).slice(2, 6)`,
   * with `randomHex` standing for the hexadecimal rendering of the random number.
   */
  function InitialUserId(stored: Option<string>, randomHex: string): (r: string)
    ensures stored.Some? && stored.value != "" ==> r == stored.value
    ensures !(stored.Some? && stored.value != "") ==>
      && |r| == 5 + (if |randomHex| <= 2 then 0 else Min(4, |randomHex| - 2))
      && r[..5] == "user-"
      && forall i :: 5 <= i < |r| ==> r[i] == randomHex[i - 3]
  {
    if stored.Some? && stored.value != "" then stored.value else "user-" + SliceRange(randomHex, 2, 6)
  }

  /** `localStorage.getItem('conversationId') || 'demo'` */
  function InitialConvId(stored: Option<string>): (r: string)
    ensures r != ""
    ensures stored.Some? && stored.value != "" ==> r == stored.value
    ensures !(stored.Some? && stored.value != "") ==> r == "demo"
  {
    if stored.Some? && stored.value != "" then stored.value else "demo"
  }

  const SnapshotLimit: nat := 50

  /** `getSnapshot`: the last 50 stored messages, in order, each cut down to author, role, text and ts. */
  function Snapshot(msgs: seq<StoredMessage>): (r: seq<Message>)
    ensures |r| == Min(SnapshotLimit, |msgs|)
    ensures forall i :: 0 <= i < |r| ==> r[i] == Project(msgs[|msgs| - |r| + i])
  {
    var last := SliceFromEnd(msgs, SnapshotLimit);
    seq(|last|, i requires 0 <= i < |last| => Project(last[i]))
  }

  /** The snapshot is within the SDK's limit, so `invoke` sends it unchanged. */
  lemma SnapshotSentWhole(userId: string, conversationId: Option<string>, prompt: string, msgs: seq<StoredMessage>)
    ensures ByomSdk.Payload(ByomSdk.InvokeArgs(userId, conversationId, prompt, Snapshot(msgs))).conversation
      == Snapshot(msgs)
  {
  }

  /**
   * Once a record is at the end of the conversation, the snapshot ends with
   * its projection; a full snapshot drops its oldest entry to make room.
   */
  lemma {:induction false} SnapshotAfterAdd(msgs: seq<StoredMessage>, m: StoredMessage)
    ensures Snapshot(msgs + [m]) ==
      (if |msgs| < SnapshotLimit then Snapshot(msgs) else Snapshot(msgs)[1..]) + [Project(m)]
  {
    var before, after := Snapshot(msgs), Snapshot(msgs + [m]);
    var expected := (if |msgs| < SnapshotLimit then before else before[1..]) + [Project(m)];
    assert |after| == |expected|;
    forall i | 0 <= i < |after| ensures after[i] == expected[i] {
      if i < |after| - 1 {
        assert (msgs + [m])[|msgs| + 1 - |after| + i] == msgs[|msgs| + 1 - |after| + i];
      }
    }
  }

  /** The record `handleSend` stores. */
  function SendRecord(userId: string, text: string, now: int): (m: StoredMessage)
    ensures m.author == userId && m.role == User && m.text == text && m.ts == now
    ensures m.meta == None && m.ephemeral == None
  {
    StoredMessage(userId, User, text, now, None, None)
  }

  /** The ephemeral record `handleAssistantMessage` stores for a reply from the widget. */
  function EphemeralReply(reply: ByomSdk.AssistantReply, now: int): (m: StoredMessage)
    ensures m.author == "assistant" && m.role == Assistant && m.text == reply.text && m.ts == now
    ensures m.meta == reply.meta && m.ephemeral == Some(true)
  {
    StoredMessage("assistant", Assistant, reply.text, now, reply.meta, Some(true))
  }

  /** `{ ...m, ephemeral: false }` */
  function Published(m: StoredMessage): (p: StoredMessage)
    ensures p.ephemeral == Some(false)
    ensures p.author == m.author && p.role == m.role && p.text == m.text && p.ts == m.ts && p.meta == m.meta
  {
    m.(ephemeral := Some(false))
  }

  /** Socket events the page emits. */
  datatype Event =
    | JoinEvent(conversationId: string, userId: string)
    | MessageEvent(conversationId: string, author: string, text: string, ts: int)
    | AssistantEvent(conversationId: string, author: string, text: string, ts: int, meta: Option<Meta>)

  /** The event `publishAssistant` emits: always authored `assistant`. */
  function PublishEvent(convId: string, m: StoredMessage): (e: Event)
    ensures e.AssistantEvent? && e.conversationId == convId && e.author == "assistant"
    ensures e.text == m.text && e.ts == m.ts && e.meta == m.meta
  {
    AssistantEvent(convId, "assistant", m.text, m.ts, m.meta)
  }

  /**
   * Publishing an ephemeral reply keeps its timestamp, text and meta both in
   * the stored copy and in the broadcast event; only the flag changes, and
   * publishing again changes nothing.
   */
  lemma PublishedReplyAgrees(convId: string, reply: ByomSdk.AssistantReply, now: int)
    ensures var m := EphemeralReply(reply, now);
      && Published(m) == m.(ephemeral := Some(false))
      && Published(Published(m)) == Published(m)
      && PublishEvent(convId, Published(m)) == PublishEvent(convId, m)
      && PublishEvent(convId, m) == AssistantEvent(convId, "assistant", reply.text, now, reply.meta)
  {
  }

  /** A call of the store's `addMessage`: the conversation id and the record. */
  datatype AddCall = AddCall(convId: string, msg: StoredMessage)

  class App {
    var userId: string
    var convId: string
    var joined: bool
    /** Whether `socketRef.current` holds a socket. */
    var connected: bool
    var added: seq<AddCall>
    var sent: seq<Event>

    constructor (storedUserId: Option<string>, randomHex: string, storedConvId: Option<string>)
      ensures userId == InitialUserId(storedUserId, randomHex) && convId == InitialConvId(storedConvId)
      ensures !joined && !connected && added == [] && sent == []
    {
      userId := InitialUserId(storedUserId, randomHex);
      convId := InitialConvId(storedConvId);
      joined, connected := false, false;
      added, sent := [], [];
    }

    /** `handleJoin`: a new socket replaces the old one and announces the user in the conversation. */
    method HandleJoin()
      modifies this
      ensures joined && connected
      ensures sent == old(sent) + [JoinEvent(convId, userId)]
      ensures added == old(added) && userId == old(userId) && convId == old(convId)
    {
      connected := true;
      sent := sent + [JoinEvent(convId, userId)];
      joined := true;
    }

    /** `handleSend`: store the user's message, and emit the same text and ts when a socket exists. */
    method HandleSend(text: string, now: int)
      modifies this
      ensures added == old(added) + [AddCall(convId, SendRecord(userId, text, now))]
      ensures sent == old(sent) + if connected then [MessageEvent(convId, userId, text, now)] else []
      ensures userId == old(userId) && convId == old(convId)
      ensures joined == old(joined) && connected == old(connected)
    {
      var msg := StoredMessage(userId, User, text, now, None, None);
      added := added + [AddCall(convId, msg)];
      if connected {
        sent := sent + [MessageEvent(convId, userId, text, now)];
      }
    }

    /** `handleAssistantMessage`: store the reply as ephemeral and emit nothing. */
    method HandleAssistantMessage(reply: ByomSdk.AssistantReply, now: int)
      modifies this
      ensures added == old(added) + [AddCall(convId, EphemeralReply(reply, now))]
      ensures sent == old(sent)
      ensures userId == old(userId) && convId == old(convId)
      ensures joined == old(joined) && connected == old(connected)
    {
      var msg := StoredMessage("assistant", Assistant, reply.text, now, reply.meta, Some(true));
      added := added + [AddCall(convId, msg)];
    }

    /** `publishAssistant`: store the non-ephemeral copy and broadcast it when a socket exists. */
    method PublishAssistant(m: StoredMessage)
      modifies this
      ensures added == old(added) + [AddCall(convId, Published(m))]
      ensures sent == old(sent) + if connected then [PublishEvent(convId, m)] else []
      ensures userId == old(userId) && convId == old(convId)
      ensures joined == old(joined) && connected == old(connected)
    {
      added := added + [AddCall(convId, m.(ephemeral := Some(false)))];
      if connected {
        sent := sent + [AssistantEvent(convId, "assistant", m.text, m.ts, m.meta)];
      }
    }

    /** `getSnapshot` over the store's current conversation. */
    function GetSnapshot(store: ChatStore.Store): (r: seq<Message>)
      reads this, store
      ensures r == Snapshot(store.GetMessages(convId))
      ensures convId !in store.table ==> r == []
    {
      Snapshot(store.GetMessages(convId))
    }
  }
}
