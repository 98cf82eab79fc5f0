/**
 Mapping a Slack thread to role-tagged chat turns
 (`toChatCompletionRequestMessages`, before trimming).
 */
module Transcript {
  import opened Types
  import opened Mention

  /** The message text, with a missing text read as the empty string. */
  function TextOf(m: RawMessage): string {
    Coalesce(m.text, "")
  }

  /** A message posted by this bot: a non-empty `bot_id` equal to the
      context's bot id (an empty `bot_id` is falsy in the `m.bot_id && ...` test). */
  predicate IsSelfAuthored(ctx: Context, m: RawMessage) {
    m.botId.Some? && m.botId.value != "" && ctx.botId == Some(m.botId.value)
  }

  /** The role of one message. The mention test comes first, so a bot-authored
      message that starts with a mention is a System turn. */
  function MapMessage(ctx: Context, m: RawMessage): (t: Turn)
    ensures t.role == System <==> HasMention(TextOf(m), ctx.botUserId)
    ensures t.role == Assistant <==> !HasMention(TextOf(m), ctx.botUserId) && IsSelfAuthored(ctx, m)
    ensures t.role == System ==> IsStrippedMention(TextOf(m), ctx.botUserId, t.content)
    ensures t.role != System ==> t.content == TextOf(m)
  {
    var content := TextOf(m);
    if HasMention(content, ctx.botUserId) then
      Turn(System, StripMention(content, ctx.botUserId))
    else if IsSelfAuthored(ctx, m) then
      Turn(Assistant, content)
    else
      Turn(User, content)
  }

  /** `replies.messages.map(...)`: turn i is the mapping of message i. */
  function MapTranscript(ctx: Context, ms: seq<RawMessage>): (ts: seq<Turn>)
    ensures |ts| == |ms|
    ensures forall i :: 0 <= i < |ms| ==> ts[i] == MapMessage(ctx, ms[i])
  {
    if |ms| == 0 then [] else [MapMessage(ctx, ms[0])] + MapTranscript(ctx, ms[1..])
  }

  /** The first two turns of a mapped thread, followed by the mapping of the rest. */
  lemma MapTranscriptSplit(ctx: Context, ms: seq<RawMessage>)
    requires |ms| >= 2
    ensures MapTranscript(ctx, ms)
         == [MapMessage(ctx, ms[0]), MapMessage(ctx, ms[1])] + MapTranscript(ctx, ms[2..])
  {
    assert ms[1..][1..] == ms[2..];
  }

  /** A message the bot authored, without a leading mention, is an
      Assistant turn with its text unchanged. */
  lemma SelfAuthoredIsAssistant(ctx: Context, m: RawMessage)
    requires IsSelfAuthored(ctx, m) && !HasMention(TextOf(m), ctx.botUserId)
    ensures MapMessage(ctx, m) == Turn(Assistant, TextOf(m))
  {
  }

  /** A mention followed by spaces and a body becomes a System turn holding
      just the body, whoever posted the message. */
  lemma MentionBecomesSystem(ctx: Context, ws: string, body: string, botId: Option<string>, ts: string)
    requires AllMentionSpace(ws)
    requires |body| == 0 || !IsMentionSpace(body[0])
    ensures MapMessage(ctx, RawMessage(Some(MentionToken(ctx.botUserId) + ws + body), botId, ts)) == Turn(System, body)
  {
    StripMentionRoundTrip(ctx.botUserId, ws, body);
  }

  lemma PirateInstruction(ctx: Context)
    requires ctx.botUserId == "BOT"
    ensures MapMessage(ctx, RawMessage(Some("<@BOT> be a pirate"), None, "1")) == Turn(System, "be a pirate")
  {
    assert MentionToken("BOT") + " " + "be a pirate" == "<@BOT> be a pirate";
    assert "be a pirate"[0] == 'b';
    assert AllMentionSpace(" ") by { assert " "[0] == ' '; }
    MentionBecomesSystem(ctx, " ", "be a pirate", None, "1");
  }

  /** The thread `["<@BOT> be a pirate", "hi"]` maps to a System
      instruction followed by a User turn. */
  lemma PirateThread(ctx: Context)
    requires ctx.botUserId == "BOT"
    ensures MapTranscript(ctx, [RawMessage(Some("<@BOT> be a pirate"), None, "1"), RawMessage(Some("hi"), None, "2")])
         == [Turn(System, "be a pirate"), Turn(User, "hi")]
  {
    PirateInstruction(ctx);
    assert |MentionToken(ctx.botUserId)| > |"hi"|;
    assert !HasMention("hi", ctx.botUserId);
  }
}
