/** The message records the chat client and the SDK pass around. */
module ChatTypes {
  import opened Wrappers

  datatype Role = User | Assistant

  /** `meta: { modelId?: string }`, attached to assistant replies. */
  datatype Meta = Meta(modelId: Option<string>)

  /**
   * A message as the client keeps it: the shared `Message` shape
   * (author, role, text, `ts` in epoch milliseconds, optional `ephemeral`)
   * plus the optional `meta` the store adds.
   */
  datatype StoredMessage = StoredMessage(
    author: string,
    role: Role,
    text: string,
    ts: int,
    meta: Option<Meta>,
    ephemeral: Option<bool>)

  /** The SDK's `Message`: only author, role, text and ts. */
  datatype Message = Message(author: string, role: Role, text: string, ts: int)

  /** `({ author, role, text, ts }) => ({ author, role, text, ts })` */
  function Project(m: StoredMessage): (r: Message)
    ensures r.author == m.author && r.role == m.role && r.text == m.text && r.ts == m.ts
  {
    Message(m.author, m.role, m.text, m.ts)
  }

  /** A message stored without meta or ephemeral flag; not a source operation, it only serves to state that projection forgets exactly `meta` and `ephemeral`. */
  function Plain(m: Message): StoredMessage
  {
    StoredMessage(m.author, m.role, m.text, m.ts, None, None)
  }

  /** Projection forgets exactly `meta` and `ephemeral`: it undoes `Plain`, and two records project alike iff they agree on the four kept fields. */
  lemma ProjectKeepsCoreFields(m: StoredMessage, n: StoredMessage, core: Message)
    ensures Project(Plain(core)) == core
    ensures Project(m) == Project(n) <==>
      m.author == n.author && m.role == n.role && m.text == n.text && m.ts == n.ts
  {
  }
}
