/**
 * The client-side conversation store: a module-level table from
 * conversation id to the list of messages of that conversation. Each add
 * rebuilds the list as the old list followed by one new record and sets it
 * back under the same id.
 */
module ChatStore {
  import opened Wrappers
  import opened ChatTypes

  type Table = map<string, seq<StoredMessage>>

  /** `store.get(convId) ?? []` */
  function Lookup(t: Table, convId: string): (r: seq<StoredMessage>)
    ensures convId !in t ==> r == []
    ensures convId in t ==> r == t[convId]
  {
    if convId in t then t[convId] else []
  }

  /** `store.set(convId, [...msgs, msg])`: only `convId` changes, and it gains `msg` at the end. */
  function Appended(t: Table, convId: string, msg: StoredMessage): (r: Table)
    ensures Lookup(r, convId) == Lookup(t, convId) + [msg]
    ensures forall other :: other != convId ==> Lookup(r, other) == Lookup(t, other)
    ensures r.Keys == t.Keys + {convId}
  {
    t[convId := Lookup(t, convId) + [msg]]
  }

  /** The record `addUserMessage` builds, with `now` standing for `Date.now()`. */
  function UserRecord(author: string, text: string, now: int): (m: StoredMessage)
    ensures m.role == User && m.author == author && m.text == text && m.ts == now
    ensures m.meta == None && m.ephemeral == None
  {
    StoredMessage(author, User, text, now, None, None)
  }

  /** The record `addAssistantMessage` builds: `meta` is always present and carries `modelId`, given or not. */
  function AssistantRecord(author: string, text: string, modelId: Option<string>, now: int): (m: StoredMessage)
    ensures m.role == Assistant && m.author == author && m.text == text && m.ts == now
    ensures m.meta == Some(Meta(modelId)) && m.ephemeral == None
  {
    StoredMessage(author, Assistant, text, now, Some(Meta(modelId)), None)
  }

  class Store {
    var table: Table

    constructor ()
      ensures table == map[]
    {
      table := map[];
    }

    /** `getMessages`: a conversation never stored reads as empty. */
    function GetMessages(convId: string): (r: seq<StoredMessage>)
      reads this
      ensures convId !in table ==> r == []
      ensures convId in table ==> r == table[convId]
    {
      Lookup(table, convId)
    }

    method AddUserMessage(convId: string, author: string, text: string, now: int)
      modifies this
      ensures table == Appended(old(table), convId, UserRecord(author, text, now))
    {
      var msgs := GetMessages(convId);
      var msg := StoredMessage(author, User, text, now, None, None);
      table := table[convId := msgs + [msg]];
    }

    method AddAssistantMessage(convId: string, author: string, text: string, modelId: Option<string>, now: int)
      modifies this
      ensures table == Appended(old(table), convId, AssistantRecord(author, text, modelId, now))
    {
      var msgs := GetMessages(convId);
      var msg := StoredMessage(author, Assistant, text, now, Some(Meta(modelId)), None);
      table := table[convId := msgs + [msg]];
    }
  }

  /** One call of `addUserMessage` or `addAssistantMessage`, with its clock reading. */
  datatype Add =
    | AddUser(convId: string, author: string, text: string, now: int)
    | AddAssistant(convId: string, author: string, text: string, modelId: Option<string>, now: int)

  function Record(a: Add): StoredMessage
  {
    match a
    case AddUser(_, author, text, now) => UserRecord(author, text, now)
    case AddAssistant(_, author, text, modelId, now) => AssistantRecord(author, text, modelId, now)
  }

  /** The table after the calls `adds`, in order. */
  function ApplyAll(t: Table, adds: seq<Add>): Table
    decreases |adds|
  {
    if adds == [] then t else ApplyAll(Appended(t, adds[0].convId, Record(adds[0])), adds[1..])
  }

  /** A single call of `AddUserMessage` or `AddAssistantMessage` is a one-step `ApplyAll`. */
  lemma OneAdd(t: Table, a: Add)
    ensures ApplyAll(t, [a]) == Appended(t, a.convId, Record(a))
  {
    assert [a][1..] == [];
  }

  /** The records of the calls in `adds` that name `convId`, in call order. */
  function RecordsFor(adds: seq<Add>, convId: string): seq<StoredMessage>
    decreases |adds|
  {
    if adds == [] then []
    else (if adds[0].convId == convId then [Record(adds[0])] else []) + RecordsFor(adds[1..], convId)
  }

  /**
   * After any sequence of adds, every conversation holds its old list
   * followed by the records addressed to it, in call order: nothing is
   * removed, reordered or capped, and conversations no call names are
   * untouched.
   */
  lemma {:induction false} ApplyAllAppends(t: Table, adds: seq<Add>, convId: string)
    ensures Lookup(ApplyAll(t, adds), convId) == Lookup(t, convId) + RecordsFor(adds, convId)
    decreases |adds|
  {
    if adds != [] {
      var t' := Appended(t, adds[0].convId, Record(adds[0]));
      ApplyAllAppends(t', adds[1..], convId);
    }
  }

  lemma {:induction false} RecordsForAll(adds: seq<Add>, convId: string)
    requires forall i :: 0 <= i < |adds| ==> adds[i].convId == convId
    ensures |RecordsFor(adds, convId)| == |adds|
    decreases |adds|
  {
    if adds != [] {
      RecordsForAll(adds[1..], convId);
    }
  }

  /** `n` adds to one conversation grow it by exactly `n`, keeping the old list as a prefix. */
  lemma NoCap(t: Table, adds: seq<Add>, convId: string)
    requires forall i :: 0 <= i < |adds| ==> adds[i].convId == convId
    ensures |Lookup(ApplyAll(t, adds), convId)| == |Lookup(t, convId)| + |adds|
    ensures Lookup(t, convId) <= Lookup(ApplyAll(t, adds), convId)
  {
    ApplyAllAppends(t, adds, convId);
    RecordsForAll(adds, convId);
  }

  lemma {:induction false} RecordsForNone(adds: seq<Add>, convId: string)
    requires forall i :: 0 <= i < |adds| ==> adds[i].convId != convId
    ensures RecordsFor(adds, convId) == []
    decreases |adds|
  {
    if adds != [] {
      RecordsForNone(adds[1..], convId);
    }
  }

  /** A conversation that no add names reads the same afterwards. */
  lemma Untouched(t: Table, adds: seq<Add>, convId: string)
    requires forall i :: 0 <= i < |adds| ==> adds[i].convId != convId
    ensures Lookup(ApplyAll(t, adds), convId) == Lookup(t, convId)
  {
    ApplyAllAppends(t, adds, convId);
    RecordsForNone(adds, convId);
  }
}
