/**
 * The server's message intake (`POST /message`): validation of the request
 * body, creation of the conversation on first use, the append of a
 * user-role record, the broadcast to the conversation's room and the
 * response. The socket broadcast and the HTTP response are outputs.
 */
module MessageServer {
  import opened Wrappers
  import opened ChatTypes

  /** `{ id, author, role, text, ts }` as the server stores and broadcasts it. */
  datatype ServerMessage = ServerMessage(id: string, author: string, role: Role, text: string, ts: int)

  /** `{ id, messages[] }` */
  datatype Conversation = Conversation(id: string, messages: seq<ServerMessage>)

  /** The three fields the handler reads from `req.body`; a field may be missing. */
  datatype MessageBody = MessageBody(conversationId: Option<string>, author: Option<string>, text: Option<string>)

  /** 400 `{ error }`, or `{ ok: true, id }`. */
  datatype Response = BadRequest(error: string) | Accepted(id: string)

  /** `io.to(room).emit(event, message)` */
  datatype Broadcast = Broadcast(room: string, event: string, message: ServerMessage)

  /** What one request produces: the new conversations table, the response and at most one broadcast. */
  datatype Outcome = Outcome(conversations: map<string, Conversation>, response: Response, broadcast: Option<Broadcast>)

  const MissingFields: string := "missing fields"

  /** A string field is truthy when it is present and not empty. */
  predicate Truthy(v: Option<string>)
  {
    v.Some? && v.value != ""
  }

  /** `req.body || {}`: a missing body has no fields. */
  function Fields(body: Option<MessageBody>): (f: MessageBody)
    ensures body.None? ==> f.conversationId.None? && f.author.None? && f.text.None?
    ensures body.Some? ==> f == body.value
  {
    body.GetOr(MessageBody(None, None, None))
  }

  /** `conversationId && author && text`: all three present and non-empty; a missing body is never complete. */
  predicate Complete(body: Option<MessageBody>)
    ensures Complete(body) ==> body.Some?
    ensures Complete(body) <==>
      Truthy(Fields(body).conversationId) && Truthy(Fields(body).author) && Truthy(Fields(body).text)
  {
    var f := Fields(body);
    Truthy(f.conversationId) && Truthy(f.author) && Truthy(f.text)
  }

  /** Every conversation is stored under its own id. */
  ghost predicate KeyedById(convs: map<string, Conversation>)
  {
    forall k :: k in convs ==> convs[k].id == k
  }

  function Existing(convs: map<string, Conversation>, id: string): seq<ServerMessage>
  {
    if id in convs then convs[id].messages else []
  }

  /**
   * The handler on a table of conversations, with `newId` standing for
   * `crypto.randomUUID()` and `now` for `Date.now()`.
   */
  function Intake(convs: map<string, Conversation>, body: Option<MessageBody>, newId: string, now: int): (r: Outcome)
    ensures r.response.BadRequest? <==> !Complete(body)
    ensures !Complete(body) ==>
      r.conversations == convs && r.response == BadRequest(MissingFields) && r.broadcast == None
    ensures Complete(body) ==>
      var f := Fields(body);
      var cid := f.conversationId.value;
      var msg := ServerMessage(newId, f.author.value, User, f.text.value, now);
      && cid in r.conversations
      && r.conversations[cid].id == (if cid in convs then convs[cid].id else cid)
      && r.conversations[cid].messages == Existing(convs, cid) + [msg]
      && r.conversations.Keys == convs.Keys + {cid}
      && (forall other :: other in convs && other != cid ==> r.conversations[other] == convs[other])
      && r.broadcast == Some(Broadcast(cid, "message", msg))
      && r.response == Accepted(msg.id)
  {
    var f := Fields(body);
    if !Complete(body) then
      Outcome(convs, BadRequest(MissingFields), None)
    else
      var cid := f.conversationId.value;
      var convo := if cid in convs then convs[cid] else Conversation(cid, []);
      var msg := ServerMessage(newId, f.author.value, User, f.text.value, now);
      var convo' := convo.(messages := convo.messages + [msg]);
      Outcome(convs[cid := convo'], Accepted(msg.id), Some(Broadcast(cid, "message", msg)))
  }

  /** Every request keeps each conversation stored under its own id. */
  lemma IntakeKeepsKeys(convs: map<string, Conversation>, body: Option<MessageBody>, newId: string, now: int)
    requires KeyedById(convs)
    ensures KeyedById(Intake(convs, body, newId, now).conversations)
  {
  }

  /** An accepted request's id is the id of the message now last in its conversation. */
  lemma AcceptedIdIsLast(convs: map<string, Conversation>, body: Option<MessageBody>, newId: string, now: int)
    requires Intake(convs, body, newId, now).response.Accepted?
    ensures var r := Intake(convs, body, newId, now);
      var cid := Fields(body).conversationId.value;
      var ms := r.conversations[cid].messages;
      |ms| == |Existing(convs, cid)| + 1 && ms[|ms| - 1].id == r.response.id
        && ms[|ms| - 1].role == User
  {
  }

  class Server {
    var conversations: map<string, Conversation>

    ghost predicate Valid()
      reads this
    {
      KeyedById(conversations)
    }

    constructor ()
      ensures Valid() && conversations == map[]
    {
      conversations := map[];
    }

    /** The `POST /message` handler. */
    method PostMessage(body: Option<MessageBody>, newId: string, now: int) returns (response: Response, broadcast: Option<Broadcast>)
      requires Valid()
      modifies this
      ensures Valid()
      ensures var o := Intake(old(conversations), body, newId, now);
        conversations == o.conversations && response == o.response && broadcast == o.broadcast
    {
      var f := Fields(body);
      if !Truthy(f.conversationId) || !Truthy(f.author) || !Truthy(f.text) {
        return BadRequest(MissingFields), None;
      }
      var cid := f.conversationId.value;
      var convo := if cid in conversations then conversations[cid] else Conversation(cid, []);
      var msg := ServerMessage(newId, f.author.value, User, f.text.value, now);
      convo := convo.(messages := convo.messages + [msg]);
      conversations := conversations[cid := convo];
      broadcast := Some(Broadcast(cid, "message", msg));
      response := Accepted(msg.id);
    }
  }
}
