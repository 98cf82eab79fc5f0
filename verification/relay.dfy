/**
 The event handlers: the retry guard, thread resolution, the System-first
 gate and the reply (or fallback error reply) posted into the thread. The
 thread-history query and the chat-completion call are parameters.
 */
module Relay {
  import opened Types
  import opened Mention
  import opened Transcript
  import opened History

  /** The retry reason under which Slack redelivers a timed-out event. */
  const TimeoutRetryReason: string := "http_timeout"

  /** The text in front of the error detail in the fallback reply. */
  const ErrorPrefix: string := "Unexpected error occurs. Please start a conversation in a new thread: "

  /** `toChatCompletionRequestMessages`: no messages give no turns;
      otherwise the mapped thread, trimmed. */
  function ToChatMessages(ctx: Context, replies: Replies): (turns: seq<Turn>)
    ensures replies.messages.None? ==> turns == []
    ensures replies.messages.Some? ==>
      var mapped := MapTranscript(ctx, replies.messages.value);
      && SystemTurns(turns) == SystemTurns(mapped)
      && NonSystemTurns(turns) == LastN(NonSystemTurns(mapped), MaxNonSystemTurns)
      && IsSubsequence(turns, mapped)
      && turns == KeepRecent(mapped, MaxNonSystemTurns)
      && (CountNonSystem(mapped) <= MaxNonSystemTurns ==> turns == mapped)
  {
    match replies.messages
    case None => []
    case Some(ms) => TrimHistory(MapTranscript(ctx, ms))
  }

  /** `guardRetry`: a delivery is skipped only when it is a retry and its
      reason is the timeout reason. */
  function GuardRetry(ctx: Context): (skip: bool)
    ensures skip <==> ctx.retryNum.Some? && ctx.retryReason == Some(TimeoutRetryReason)
  {
    !(ctx.retryNum.None? || ctx.retryReason != Some(TimeoutRetryReason))
  }

  /** The fallback reply text; the error detail can be read back from it. */
  function ErrorText(detail: string): (r: string)
    ensures |r| == |ErrorPrefix| + |detail|
    ensures r[..|ErrorPrefix|] == ErrorPrefix
    ensures r[|ErrorPrefix|..] == detail
  {
    ErrorPrefix + detail
  }

  /** The transcript is sent only when it is non-empty and opens with a System turn. */
  predicate Eligible(turns: seq<Turn>) {
    |turns| > 0 && IsSystem(turns[0])
  }

  /** `completeChat` with the thread fetched as `replies` and the
      completion API as `complete`. */
  function CompleteChat(ctx: Context, channel: string, threadTs: string, replies: Replies,
                        complete: seq<Turn> -> Completion): (o: Outcome)
    ensures o.Skip? <==> !Eligible(ToChatMessages(ctx, replies))
    ensures o.Reply? ==> o.channel == channel && o.threadTs == threadTs
    ensures o.Reply? ==>
      match complete(ToChatMessages(ctx, replies))
      case Completed(content) => o.text == content
      case Failed(detail) => o.text == Some(ErrorPrefix + detail)
  {
    var turns := ToChatMessages(ctx, replies);
    if !Eligible(turns) then Skip
    else
      match complete(turns)
      case Completed(content) => Reply(channel, threadTs, content)
      case Failed(detail) => Reply(channel, threadTs, Some(ErrorText(detail)))
  }

  /** The thread a handler answers in: a mention uses `thread_ts ?? ts`;
      a plain message is answered only inside a thread. */
  function ResolveThread(ev: SlackEvent): (r: Option<string>)
    ensures ev.kind == AppMention ==> r == Some(if ev.threadTs.Some? then ev.threadTs.value else ev.ts)
    ensures ev.kind == MessagePosted ==> r == ev.threadTs
  {
    match ev.kind
    case AppMention => Some(Coalesce(ev.threadTs, ev.ts))
    case MessagePosted => ev.threadTs
  }

  /** One event handler of `setup`: guard, resolve the thread, fetch its
      history with `fetch(channel, threadTs)` and complete the chat. */
  function HandleEvent(ctx: Context, ev: SlackEvent,
                       fetch: (string, string) -> Replies,
                       complete: seq<Turn> -> Completion): (o: Outcome)
    ensures GuardRetry(ctx) ==> o == Skip
    ensures ev.kind == MessagePosted && ev.threadTs.None? ==> o == Skip
    ensures o.Reply? ==> o.channel == ev.channel
    ensures o.Reply? && ev.kind == AppMention ==> o.threadTs == Coalesce(ev.threadTs, ev.ts)
    ensures o.Reply? && ev.kind == MessagePosted ==> ev.threadTs == Some(o.threadTs)
  {
    if GuardRetry(ctx) then Skip
    else
      match ResolveThread(ev)
      case None => Skip
      case Some(threadTs) => CompleteChat(ctx, ev.channel, threadTs, fetch(ev.channel, threadTs), complete)
  }

  /** Past the guards, the reply depends only on the thread named by the event:
      the history of exactly that thread is fetched and answered. */
  lemma HandleEventAnswersThread(ctx: Context, ev: SlackEvent, threadTs: string,
                                 fetch: (string, string) -> Replies,
                                 complete: seq<Turn> -> Completion)
    requires !GuardRetry(ctx)
    requires ResolveThread(ev) == Some(threadTs)
    ensures HandleEvent(ctx, ev, fetch, complete)
         == CompleteChat(ctx, ev.channel, threadTs, fetch(ev.channel, threadTs), complete)
  {
  }

  /** A mention posted inside a thread is delivered both as a mention and as
      a message; given the same inputs the two handlers give the same
      outcome, so such a mention is answered twice whenever it is answered
      at all (each handler fetches and completes on its own, so the two
      texts may differ). */
  lemma ThreadMentionAnsweredByBothHandlers(ctx: Context, channel: string, ts: string, threadTs: string,
                                            fetch: (string, string) -> Replies,
                                            complete: seq<Turn> -> Completion)
    ensures HandleEvent(ctx, SlackEvent(AppMention, channel, ts, Some(threadTs)), fetch, complete)
         == HandleEvent(ctx, SlackEvent(MessagePosted, channel, ts, Some(threadTs)), fetch, complete)
  {
  }

  /** A thread that starts with a mention of the bot is answered: the
      completion result (or its error text) is posted into that thread. */
  lemma MentionedThreadIsAnswered(ctx: Context, channel: string, threadTs: string,
                                  ms: seq<RawMessage>, complete: seq<Turn> -> Completion)
    requires |ms| > 0 && HasMention(TextOf(ms[0]), ctx.botUserId)
    ensures CompleteChat(ctx, channel, threadTs, Replies(Some(ms)), complete).Reply?
    ensures CompleteChat(ctx, channel, threadTs, Replies(Some(ms)), complete).threadTs == threadTs
  {
    var mapped := MapTranscript(ctx, ms);
    assert mapped[0].role == System;
    TrimHistoryKeepsLeadingSystem(mapped);
    assert Eligible(ToChatMessages(ctx, Replies(Some(ms))));
  }

  /** A thread whose first message is not a mention and that holds at most
      `MaxNonSystemTurns` non-System turns gets no reply. */
  lemma UnmentionedShortThreadIsSkipped(ctx: Context, channel: string, threadTs: string,
                                        ms: seq<RawMessage>, complete: seq<Turn> -> Completion)
    requires |ms| > 0 && !HasMention(TextOf(ms[0]), ctx.botUserId)
    requires CountNonSystem(MapTranscript(ctx, ms)) <= MaxNonSystemTurns
    ensures CompleteChat(ctx, channel, threadTs, Replies(Some(ms)), complete) == Skip
  {
  }

  /** Messages none of which starts with a mention map to non-System turns. */
  lemma UnmentionedMapToNonSystem(ctx: Context, ms: seq<RawMessage>)
    requires forall i :: 0 <= i < |ms| ==> !HasMention(TextOf(ms[i]), ctx.botUserId)
    ensures forall i :: 0 <= i < |ms| ==> !IsSystem(MapTranscript(ctx, ms)[i])
  {
  }

  /** A thread that opens with a plain message, then a mention, then
      `MaxNonSystemTurns` messages without a mention is answered: trimming
      drops the opening message and the transcript opens with the mention. */
  lemma LaterMentionAnswersLongThread(ctx: Context, channel: string, threadTs: string,
                                      ms: seq<RawMessage>, complete: seq<Turn> -> Completion)
    requires |ms| == MaxNonSystemTurns + 2
    requires !HasMention(TextOf(ms[0]), ctx.botUserId) && HasMention(TextOf(ms[1]), ctx.botUserId)
    requires forall i :: 2 <= i < |ms| ==> !HasMention(TextOf(ms[i]), ctx.botUserId)
    ensures CompleteChat(ctx, channel, threadTs, Replies(Some(ms)), complete).Reply?
  {
    var rest := ms[2..];
    assert forall i :: 0 <= i < |rest| ==> !HasMention(TextOf(rest[i]), ctx.botUserId) by {
      forall i | 0 <= i < |rest|
        ensures !HasMention(TextOf(rest[i]), ctx.botUserId)
      {
        assert rest[i] == ms[i + 2];
      }
    }
    var first := MapMessage(ctx, ms[0]);
    var instruction := MapMessage(ctx, ms[1]);
    var later := MapTranscript(ctx, rest);
    MapTranscriptSplit(ctx, ms);
    UnmentionedMapToNonSystem(ctx, rest);
    TrimHistoryCanPromoteSystem(first, instruction, later);
    var turns := ToChatMessages(ctx, Replies(Some(ms)));
    assert turns == TrimHistory([first, instruction] + later);
    assert Eligible(turns);
  }
}
