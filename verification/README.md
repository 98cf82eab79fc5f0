# Slack chat-bot relay — Dafny model

A model of the core of a Slack bot that answers in threads with a chat-completion
model. When the bot is mentioned, or a message is posted in a thread, it fetches
the thread, turns each message into a role-tagged turn, and keeps every System
turn plus the 13 most recent other turns. It sends that transcript to the
chat-completion API only when it starts with a System turn, then posts the
answer into the thread. If the completion fails, it posts a fixed error text
followed by the error instead.

Modules, one per component of `app/src/app.ts`:

- `Types` (types.dfy): messages, context, turns, events, completion result, outcome.
- `Mention` (mention.dfy): the anchored pattern `^<@botUserId>[ \t\r\n]*`, as a literal prefix plus a maximal run of space/tab/CR/LF.
- `Transcript` (transcript.dfy): the per-message role mapping.
- `History` (history.dfy): the trimming, in two forms. `DropOldest` is the algorithm as written: indices of non-System turns, a drop set of the oldest ones, a filter by position. `KeepRecent` is a reference definition: a non-System turn survives exactly when fewer than `k` non-System turns follow it. The two are proved equal.
- `Relay` (relay.dfy): the retry guard, thread resolution, the System-first gate and the reply.

The Slack thread-history query and the chat-completion call are parameters.
`fetch(channel, threadTs)` returns the replies. `complete(turns)` returns
`Completed(content)` or `Failed(detail)`. An event handler returns `Skip` or
`Reply(channel, threadTs, text)`.

The mention test (app/src/app.ts:17) runs before the `bot_id` test
(app/src/app.ts:23). So a message the bot posted that starts with
`<@botUserId>` becomes a System turn, not an Assistant turn
(`Transcript.MapMessage`, `Transcript.MentionBecomesSystem`).

Two further behaviours of the code are stated as lemmas:

- The System-first gate looks at the transcript after trimming, not at the thread. Suppose a thread opens with a plain message, then has a mention, then 13 more messages without a mention. Trimming drops the opening message, so the transcript starts with the System turn (`History.TrimHistoryCanPromoteSystem`), and the thread is answered (`Relay.LaterMentionAnswersLongThread`).
- A mention inside a thread reaches both handlers, and given the same inputs the two handlers give the same outcome (`Relay.ThreadMentionAnsweredByBothHandlers`). So such a mention is answered twice whenever it is answered at all. Each handler fetches the thread and calls the completion on its own, so the two texts may differ.

## Model

| member | source | states |
|---|---|---|
| Mention.SkipSpaces | app/src/app.ts:14 | the `[ \t\r\n]*` run: removes a maximal leading run of space/tab/CR/LF and keeps the rest as a suffix |
| Mention.StripMention | app/src/app.ts:14-20 | replacing the pattern with `''` leaves exactly the text after the token and the maximal whitespace run after it |
| Mention.StripMentionRoundTrip | app/src/app.ts:14-20 | token + whitespace run + a body not starting with whitespace matches the pattern and strips back to the body |
| Transcript.MapMessage | app/src/app.ts:15-32 | System iff the text (missing read as `''`) starts with the mention, with the mention stripped; else Assistant iff `bot_id` is non-empty and equals the bot id; else User; non-System content is the text unchanged |
| Transcript.MapTranscript | app/src/app.ts:15-33 | the mapped transcript has one turn per message, in order: turn i is the mapping of message i |
| Transcript.SelfAuthoredIsAssistant | app/src/app.ts:23-28 | a bot-authored message without a leading mention becomes an Assistant turn with its text unchanged |
| Transcript.MentionBecomesSystem | app/src/app.ts:17-22 | a message starting with the mention becomes a System turn holding the body, whoever authored it (bot-authored included) |
| Transcript.PirateInstruction | app/src/app.ts:16-22 | the message `"<@BOT> be a pirate"` maps to the System turn `"be a pirate"` |
| Transcript.PirateThread | app/src/app.ts:15-33 | the thread `"<@BOT> be a pirate"`, `"hi"` maps to System `"be a pirate"` then User `"hi"` |
| History.NonSystemIndices | app/src/app.ts:36-38 | the index list holds the positions of exactly the non-System turns, strictly ascending, one per non-System turn |
| History.DropFirstIndices | app/src/app.ts:43-44 | filtering out the oldest `m` non-System positions keeps exactly the turns that are System or have fewer than `count - m` non-System turns after them |
| History.DropOldestIsKeepRecent | app/src/app.ts:36-44 | the trimming as written equals the reference definition "a non-System turn survives iff fewer than k non-System turns follow it" |
| History.TrimHistory | app/src/app.ts:35-44 | equals the reference trimming (a non-System turn survives iff fewer than 13 non-System turns follow it); keeps every System turn, keeps exactly the last 13 non-System turns (all if fewer), is a subsequence of its input, and is the identity when there are at most 13 non-System turns |
| History.TrimHistoryLength | app/src/app.ts:39-44 | the trimmed length is the number of System turns plus min(non-System count, 13) |
| History.TrimHistoryIdempotent | app/src/app.ts:36-44 | trimming twice equals trimming once |
| History.TrimHistoryKeepsLeadingSystem | app/src/app.ts:36-44 | a transcript opening with a System turn still opens with that turn after trimming |
| History.TrimHistoryCanPromoteSystem | app/src/app.ts:36-44 | non-System, System, then 13 non-System turns: once trimmed, the transcript opens with the System turn |
| Relay.ToChatMessages | app/src/app.ts:7-45 | no `messages` gives no turns; otherwise the result is the reference trimming of the mapped thread: all System turns and the last 13 others, as a subsequence of it, and the mapped thread itself when it has at most 13 non-System turns |
| Relay.GuardRetry | app/src/app.ts:100-116 | a delivery is skipped iff a retry number is present and the retry reason is `http_timeout`; no retry number, or any other reason, proceeds |
| Relay.ErrorText | app/src/app.ts:91-95 | the fallback text is the fixed prefix followed by the error detail, and the detail can be read back after the prefix |
| Relay.CompleteChat | app/src/app.ts:59-97 | nothing is posted iff the trimmed transcript is empty or does not open with a System turn; otherwise the reply goes to the given channel and thread with the first choice's content, or the prefix + error detail on failure |
| Relay.ResolveThread | app/src/app.ts:123-143 | a mention answers in `thread_ts` when present, else in `ts`; a plain message answers in its `thread_ts` and is ignored without one |
| Relay.HandleEvent | app/src/app.ts:123-143 | a timed-out retry is skipped; a plain message outside a thread is skipped; a reply goes to the event's channel and resolved thread |
| Relay.HandleEventAnswersThread | app/src/app.ts:128-143 | past the guards, the handler fetches exactly the resolved thread of the event's channel and completes it |
| Relay.ThreadMentionAnsweredByBothHandlers | app/src/app.ts:123-143 | given the same fetched history and completion result, the mention handler and the message handler give the same outcome for a mention inside a thread, so it is answered twice whenever it is answered at all |
| Relay.MentionedThreadIsAnswered | app/src/app.ts:67-70 | a thread whose first message starts with the mention always gets a reply in that thread |
| Relay.LaterMentionAnswersLongThread | app/src/app.ts:36-70 | a thread of a plain message, a mention and 13 messages without a mention passes the System-first gate and gets a reply |
| Relay.UnmentionedShortThreadIsSkipped | app/src/app.ts:67-70 | a thread whose first message is not a mention and that has at most 13 non-System turns gets no reply |

## Left out

- Slack `conversations.replies`, `say`, and the OpenAI `createChatCompletion` / `listModels` calls are foreign network calls. They are function parameters (`fetch`, `complete`) or results (`Outcome`). The fetch's token and `inclusive` flag are not modelled.
- Logging (`logger.debug`, `logger.info`, `logger.error`) has no behaviour to state.
- The `async`/`await` structure, and races between concurrent events on the same thread, are not modelled. Each event is one pure function call.
- A failure of the thread fetch is not modelled: `fetch` is a total function. In the code the fetch (app/src/app.ts:60-65) sits outside the `try` (app/src/app.ts:76-97), so its error escapes the handler and nothing is posted; only a completion failure reaches the fallback text.
- A failure of `say` inside the `try` would also reach the fallback path. `say` is not modelled, so the model does not cover this.
- An empty `choices` array makes `choices[0].message` throw a runtime TypeError, which is caught and posted. The model treats the completion result as already holding the first choice, because the runtime error text is not something the model can state.
- Error stringification (`toString` or `JSON.stringify`) is foreign. The model takes the stringified detail as given.
- Regular-expression semantics: the mention pattern is a literal prefix. This assumes `botUserId` has no regex metacharacters, which holds for Slack ids. An undefined `botUserId` is not modelled.
- An event object with `thread_ts` present but `undefined` passes the `'thread_ts' in event` test at app/src/app.ts:137. The model treats a present `thread_ts` as a string.
- Strings are sequences of `char`. UTF-16 details are not modelled.
- app/src/lambda.ts, app/src/socket.ts and the iac/ files are hosting and infrastructure configuration with no logic to model.
