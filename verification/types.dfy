/**
 The data model of the Slack relay: the messages a thread-history query
 returns, the per-delivery context supplied by the Slack framework, the
 role-tagged turns sent to the chat-completion API, and the outcome of
 handling one event.
 */
module Types {

  // A field that TypeScript types as `T | undefined`.
  datatype Option<+T> = None | Some(value: T)

  // TypeScript's nullish coalescing `o ?? fallback`.
  function Coalesce<T>(o: Option<T>, fallback: T): T {
    if o.Some? then o.value else fallback
  }

  /** The role tag of a chat-completion turn. */
  datatype Role = System | User | Assistant

  /** One turn of the transcript sent to the chat-completion API. */
  datatype Turn = Turn(role: Role, content: string)

  /** One message of a thread as returned by the thread-history query. */
  datatype RawMessage = RawMessage(text: Option<string>, botId: Option<string>, ts: string)

  /** The thread-history response; `messages` may be missing altogether. */
  datatype Replies = Replies(messages: Option<seq<RawMessage>>)

  /** Per-delivery metadata: the bot's identities and Slack's retry headers. */
  datatype Context = Context(
    botUserId: string,
    botId: Option<string>,
    retryNum: Option<int>,
    retryReason: Option<string>)

  /** The two event subscriptions the relay registers. */
  datatype EventKind = AppMention | MessagePosted

  /** The fields of an inbound event that the handlers read. */
  datatype SlackEvent = SlackEvent(kind: EventKind, channel: string, ts: string, threadTs: Option<string>)

  /** The result of the chat-completion call: the first choice's content
      (which may itself be missing) or the stringified error it raised. */
  datatype Completion = Completed(content: Option<string>) | Failed(detail: string)

  /** What handling one event does: nothing, or post `text` into a thread. */
  datatype Outcome = Skip | Reply(channel: string, threadTs: string, text: Option<string>)
}
