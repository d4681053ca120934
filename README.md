# Slack agent bot — a Dafny model of its sequential core

The system is a Slack bot that forwards messages and mentions to a
language-model agent and posts the agent's answer back with citation
references. It comes in two generations: the current bot (`src/slack_bot/`,
`src/agent/parser.py`) and an older one (`src/slack/`). This project models
the deterministic logic around the language model and the Slack SDK:

- the agent-result parser, both generations. It turns a transcript into the
  reply text and the references, and does the reverse scan, window, grouping,
  de-duplication and reversal;
- the Slack clients of both generations:
  - the 429 retry predicate;
  - channel and thread URL parsing;
  - the paginated history and replies reads;
  - the session-id choice;
  - the blocks and metadata of `reply_markdown` and `reply_blocks`;
- the bots:
  - the webhook filters that admit events to the queue;
  - the event worker, a FIFO drained up to a falsy sentinel, with one
    `task_done` per pop;
  - the shutdown order;
  - the control flow of message, mention and reaction processing;
  - the run configuration;
- the configuration lookups (emoji, message, prompt) and `get_message_dicts`;
- `clean_title` and the reply formatter of the Slack-conversation tool;
- the MCP tool-result conversion.

Imperative source keeps its form:
- The loops are `method`s with invariants, each proved equal to a
  specification function. The properties are lemmas about those functions.
- The bot is a `class` whose queue, unfinished-task count, dispatch log and
  trace of outward actions its methods update.
- The prompt mixin is a `class` with its lazily created configurations.
- The final reversal of the references works in place on an `array`.

The Slack Web API, the language model, the JSON parser, the Langfuse client
and the clock are parameters: page functions, answer strings, transcripts,
`loads`, `fetched`, `Surroundings`.

Files:
- `common.dfy`: whitespace stripping, joining, Python's `[:n]`.
- `config_message.dfy`, `config_prompt.dfy`
- `agent_parser.dfy`
- `slack_types.dfy`, `slack_bot_client.dfy`, `slack_client.dfy`
- `slack_bot.dfy`, `slack_legacy_bot.dfy`
- `slack_conversation.dfy`
- `mcp_result.dfy`

## Model

| member | source | states |
|---|---|---|
| Common.StripEmptyIffBlank | src/agent/parser.py:30 | `strip()` gives "" exactly when the string is all whitespace |
| Common.StripIdempotent | src/agent/parser.py:39 | stripping twice is stripping once |
| Common.StripHasNoOuterSpace | src/agent/parser.py:39 | a stripped string neither starts nor ends with whitespace |
| Common.PySlicePrefix | src/slack_bot/client.py:206-208 | `s[:k]` is a prefix of `s`, of length `k` capped at the length of `s`, or that length plus `k` floored at 0 for a negative `k` |
| MessageConfig.EmojiLookup | src/config/message.py:23-27 | the lookup succeeds iff some entry has the name, returns the first such entry's emoji, else the not-found error |
| MessageConfig.MessageLookup | src/config/message.py:44-48 | the same for messages and their text |
| MessageConfig.MatchIndexedComplete | src/config/message.py:51-55 | every name of the form `<key>_<digits>_<field>` is matched, with that index and field |
| MessageConfig.NonIndexedIgnored | src/config/message.py:53-55 | a name not of that form changes neither the groups nor the index order |
| MessageConfig.LaterMessageOverwrites | src/config/message.py:56-57 | a later entry with the same index and field overwrites the earlier value; the index's other fields and every other index keep their values |
| MessageConfig.SortStringsCorrect | src/config/message.py:58-61 | the index sort yields a strictly ascending permutation of distinct indices |
| MessageConfig.StrLessTotal | src/config/message.py:58-61 | string order is total on distinct strings, so `"10"` and `"2"` are always ordered |
| MessageConfig.GetMessageDicts | src/config/message.py:50-61 | one dict per distinct index, the i-th being the group of the i-th index in sorted order |
| MessageConfig.MessageDictsOrdered | src/config/message.py:58-61 | those indices are strictly ascending in string order, distinct, and exactly the grouped indices |
| PromptConfig.PromptLookup | src/config/prompt.py:31-35 | the first prompt with the name, or a not-found error iff no prompt has it |
| PromptConfig.PromptMixin.constructor | src/config/prompt.py:38-45 | starts with neither configuration created |
| PromptConfig.PromptMixin.GetPrompt | src/config/prompt.py:57-74 | YAML: loads the prompt table on first use only and returns its lookup; Langfuse: returns the fetched prompt; other providers: the invalid-provider error with nothing changed |
| PromptConfig.TwoYamlLookups | src/config/prompt.py:58-62 | two YAML lookups both read the table loaded first, which is loaded once |
| AgentParser.KeptFromIsFilter | src/agent/parser.py:27-35 | the item loop raises iff some iterated item is not a string, and otherwise keeps exactly the non-blank strings in order |
| AgentParser.ReplyText | src/agent/parser.py:23-39 | the loop computes the reply-text specification |
| AgentParser.TextContentStripped | src/agent/parser.py:23-39 | a string content gives that string stripped |
| AgentParser.ListContentReply | src/agent/parser.py:25-39 | a list content gives the non-blank iterated strings joined by newline and stripped, or `"..."`; never ""; a non-string raises |
| AgentParser.NonBlankTextsAreNonBlank | src/agent/parser.py:30-32 | every kept item is non-blank |
| AgentParser.ListBranchRepliesWithResultKeys | src/agent/parser.py:27 | as written: with content `[text]`, the reply is the result's key, not the text (Finding 1) |
| AgentParser.IntendedContentFromItems | src/agent/parser.py:25-39 | corrected: iterating the content items gives their non-blank texts joined, or `"..."`, never "" |
| AgentParser.CollectInOrder | src/agent/parser.py:54-62 | the artifact loop only appends: each kept artifact is the stripped title and link of a string pair of the message's list, taken at increasing positions, so in input order |
| AgentParser.CollectArtifacts | src/agent/parser.py:54-62 | the artifact loop computes its specification: non-string title or link skipped, missing key raises, seen key skipped, stripped title and link kept |
| AgentParser.ScanTranscript | src/agent/parser.py:41-64 | the reverse scan computes the per-tool groups of its specification |
| AgentParser.FlattenGroups | src/agent/parser.py:66-70 | the groups' references concatenated in group order |
| AgentParser.ReverseInPlace | src/agent/parser.py:71 | the array afterwards holds the reverse of its old contents |
| AgentParser.Reverse | src/agent/parser.py:71 | element k of the result is element `n-1-k` of the input |
| AgentParser.ParseAgentResult | src/agent/parser.py:22-73 | the whole parser computes `ParseSpec`: empty transcript error, reply text, references |
| AgentParser.ContributingAfterHuman | src/agent/parser.py:43-45 | messages before the newest human message never contribute |
| AgentParser.ReferencesFromWindow | src/agent/parser.py:43-48 | the references depend only on the tool messages after the newest human message that carry a non-empty artifact list |
| AgentParser.ReferencesAreMadeForWindow | src/agent/parser.py:49-64 | the references are, as a multiset, the non-empty ones among one reference per window message, each with the configured title and icon, the tool's name as source, stripped artifacts and exactly the keys no newer message carries |
| AgentParser.ReferencesNonEmpty | src/agent/parser.py:51-53 | every reference has at least one artifact and its source is the name of a contributing tool |
| AgentParser.ReferenceKeysUniqueAndComplete | src/agent/parser.py:42-60 | no two artifacts of the output share a key, and the output's keys are exactly those the window carries |
| AgentParser.DistinctArtifactsCanShareKey | src/agent/parser.py:57 | two different (title, link) pairs can have the same de-duplication key |
| AgentParser.ReferencesChronologicalWhenContiguous | src/agent/parser.py:66-71 | when each tool's messages are contiguous, the output is exactly the non-empty references in chronological order |
| SlackTypes.EventTypeValue | src/slack_bot/client.py:66-69 | each event type's wire value, never empty |
| SlackTypes.Require | src/slack_bot/client.py:72-78 | a required key's value, or the `KeyError` for it iff it is missing |
| SlackBotClient.IsNotRetryable | src/slack_bot/client.py:81-82 | an API error is retried iff its status is 429 (the older client, src/slack/client.py:68-69, is the same) |
| SlackBotClient.ChannelUrlInfo | src/slack_bot/client.py:112-116 | succeeds iff `/archives/<non-slash run>` occurs; yields the run at the first such place; otherwise the invalid-URL error |
| SlackBotClient.ChannelUrlRoundTrip | src/slack_bot/client.py:112-116 | a path built from a channel id parses back to that id |
| SlackBotClient.ThreadUrlInfo | src/slack_bot/client.py:130-134 | succeeds iff `/archives/<run>/p<digits>` occurs; yields the channel and the digits' value at the first such place (the older parser, src/slack/client.py:99-102, runs the same search over the whole URL) |
| SlackBotClient.ThreadUrlRoundTrip | src/slack_bot/client.py:130-134 | a path built from a channel id and a timestamp integer parses back to both |
| SlackBotClient.DecimalRoundTrip | src/slack_bot/client.py:133 | the decimal digits of n read back as n |
| SlackBotClient.FetchConversationsHistory | src/slack_bot/client.py:142-173 | at least one page, exactly one without a limit, at most `max(1, limit)`, pages in order, none after a page without `has_more` (the older read, src/slack/client.py:110-141, is the same loop) |
| SlackBotClient.FetchConversationsReplies | src/slack_bot/client.py:176-208 | every page up to the first without `has_more`, concatenated in order, then `[:limit]` when a limit is given |
| SlackBotClient.FirstClientMsgId | src/slack_bot/client.py:213-220 | some iff a reply has a `client_msg_id`, and then the first one |
| SlackBotClient.HistoryScanFindsFirst | src/slack_bot/client.py:222-236 | the history scan skips subtyped and blank messages and those without the metadata path, and returns the first `reply_session_id` found |
| SlackBotClient.HistoryScanOkWithTexts | src/slack_bot/client.py:225-226 | the scan raises only on a message with neither subtype nor text |
| SlackBotClient.SessionIdSpec | src/slack_bot/client.py:210-241 | the replies branch is taken iff `in_replies` and `thread_ts`; a found id wins; the result is non-empty unless the fallback id is |
| SlackBotClient.SessionIdFallsBack | src/slack_bot/client.py:238-239 | with nothing found, the event's `client_msg_id` or its `KeyError` |
| SlackBotClient.FirstClientMsgIdLoop | src/slack_bot/client.py:216-220 | the replies loop computes the first `client_msg_id`, or "" |
| SlackBotClient.HistoryScanLoop | src/slack_bot/client.py:225-236 | the history loop computes the history scan |
| SlackBotClient.FindSessionId | src/slack_bot/client.py:210-241 | reads the replies (no limit) or one history page of 30, and returns `SessionIdSpec` |
| SlackBotClient.ReplyMessageId | src/slack_bot/client.py:312 | `message_id`, when truthy, else `client_msg_id` or its `KeyError` |
| SlackBotClient.ReplySessionId | src/slack_bot/client.py:313 | the first truthy of session id and message id, else `client_msg_id`; defined whenever the message id is |
| SlackBotClient.ReferenceBlocks | src/slack_bot/client.py:282-292 | one context block per reference, in order, each ``"{icon} *{title}*\n`#{source}`\n{links}"`` |
| SlackBotClient.ReplyMarkdown | src/slack_bot/client.py:261-318 | blocks: markdown cut to 10000, a warning iff longer, one context per reference in order, the disclaimer last; the cleaned text, the thread and the metadata; errors exactly on a missing message, `ts` or id |
| SlackBotClient.Posted | src/slack_bot/client.py:302-316 | the post fails iff a thread `ts` or the message id is missing; otherwise it carries the channel, thread, text, blocks and metadata |
| SlackBotClient.ReplyBlocks | src/slack_bot/client.py:320-338 | the given text and blocks with the same thread and metadata rules |
| SlackClient.RepliesPageSize | src/slack/client.py:150-152 | the requested page size is the limit capped at 1000 |
| SlackClient.RepliesStopAtLimit | src/slack/client.py:154-176 | the read stops at the first page that brings the count to the limit or has no more after it, also on a thread whose pages never end; it does not truncate |
| SlackClient.RepliesWithinAll | src/slack/client.py:154-180 | on a thread whose pages end, the read is a prefix of all replies and holds all of them or at least `limit`, so it keeps at least what the current client's `[:limit]` keeps |
| SlackClient.FetchConversationsReplies | src/slack/client.py:144-182 | the loop computes that read whenever it ends, at the limit or at a page without more |
| SlackClient.FindSessionId | src/slack/client.py:184-215 | 30 replies or one history page of 30, then the same choice and fallback |
| SlackClient.ReplyMarkdown | src/slack/client.py:235-277 | no truncation; markdown, one `"{icon} *{name}*\n{links}"` context per reference in order, the disclaimer last; with `isAsync` the metadata also holds the event text or "" (lines 430-473) |
| SlackBot.HandlerFor | src/slack_bot/bot.py:64-70 | each event type goes to exactly its own processing coroutine |
| SlackBot.FirstStop | src/slack_bot/bot.py:57-61 | the first sentinel's position; nothing before it is a sentinel |
| SlackBot.Dispatches | src/slack_bot/bot.py:62-75 | one dispatch per queued event, in queue order, to its type's handler, recording whether it raised |
| SlackBot.Enqueued | src/slack_bot/bot.py:101-134 | message and assistant events are admitted iff no subtype and non-blank text; mentions iff not edited; reactions always; a missing key raises; the event carries the payload, user, channel and message id |
| SlackBot.IdentifiedEvent | src/slack_bot/bot.py:105-106 | the event is built iff `user`, `channel` and `client_msg_id` are present |
| SlackBot.HandlerEffect | src/slack_bot/bot.py:101-135 | at most one item queued; then the thinking status (assistant) or reaction (message, mention), then the acknowledgement, or only the acknowledgement |
| SlackBot.CreateRunnableConfig | src/slack_bot/bot.py:226-260 | the config carries the event's user, message id as message and run id, session id as session and thread id, and the tags; its context names the bot, the asking user, the channel and the current time; `KeyError` iff `ts` is missing |
| SlackBot.ContextTextsStripped | src/slack_bot/bot.py:227-251 | stripping each context f-string removes exactly its opening and closing newlines and keeps every line in between |
| SlackBot.FirstWithTs | src/slack_bot/bot.py:214-215 | the first reply whose `ts` is the reacted item's, or none |
| SlackBot.FeedbackOn | src/slack_bot/bot.py:216-223 | feedback is recorded iff every metadata key it reads is present |
| SlackBot.SlackBot.constructor | src/slack_bot/bot.py:26-47 | an empty queue, no unfinished items, nothing done |
| SlackBot.SlackBot.Put | src/slack_bot/bot.py:107 | appends to the queue and counts one more unfinished item |
| SlackBot.SlackBot.Get | src/slack_bot/bot.py:57 | takes the front item |
| SlackBot.SlackBot.TaskDone | src/slack_bot/bot.py:76-77 | one fewer unfinished item |
| SlackBot.SlackBot.WorkOne | src/slack_bot/bot.py:56-77 | one pass of the worker loop: the front item is taken and marked done; the worker stops iff it is the sentinel, otherwise exactly that event is dispatched |
| SlackBot.SlackBot.EventWorker | src/slack_bot/bot.py:53-77 | pops up to and including the first sentinel, dispatches every event before it in order whether or not its handler raises, and marks every popped item done (the older worker, src/slack/bot.py:50-74, has the same discipline) |
| SlackBot.SlackBot.Shutdown | src/slack_bot/bot.py:83-89 | close, queue the sentinel, join, flush the tracker when there is one; every pending event is dispatched and the unfinished count returns to zero (the older shutdown, src/slack/bot.py:80-84, is the same order with no tracker) |
| SlackBot.SlackBot.HandleWebhook | src/slack_bot/bot.py:36-135 | for a registered handler (the message handler only outside assistant mode, the assistant handler only in it), the queue and the actions grow by exactly the handler's effect; an unregistered one changes nothing |
| SlackBot.SlackBot.TakeOffReaction | src/slack_bot/bot.py:154 | removes the thinking reaction, or fails on its lookup with nothing done |
| SlackBot.SlackBot.RunAgent | src/slack_bot/bot.py:170-184 | invokes the agent on the text, removes the reaction where asked, and posts the parsed answer; a parse error posts nothing |
| SlackBot.SlackBot.PostAnswer | src/slack_bot/bot.py:184 | one reply is posted, holding the markdown cut to its limit, in the thread or at top level as asked; it fails iff `reply_markdown` would, and then posts nothing |
| SlackBot.SlackBot.CheckedRun | src/slack_bot/bot.py:146-184 | outside assistant mode the check chain runs first; a "yes" then removes the reaction and posts the notice, exactly those actions, and never invokes the agent; otherwise chain, agent, reaction removal and the parsed answer's reply, in that order; no `text` raises `KeyError` with nothing done |
| SlackBot.SlackBot.ProcessMessageEvent | src/slack_bot/bot.py:137-184 | a missing `ts` does nothing; a "yes" from the new-conversation check (outside assistant mode) gives the trace config, chain, reaction removal, notice, and never invokes the agent; otherwise config, chain (outside assistant mode), agent, removal and the answer's reply |
| SlackBot.SlackBot.NewConversationNotice | src/slack_bot/bot.py:153-168 | appends exactly the reaction removal and the post of the title and message outside the thread, with the session dropped; never the agent |
| SlackBot.SlackBot.ProcessAppMentionEvent | src/slack_bot/bot.py:186-207 | runs the agent, parses before removing the reaction, and replies in the thread |
| SlackBot.SlackBot.ProcessReactionAddedEvent | src/slack_bot/bot.py:209-224 | with no tracker nothing happens; otherwise only the first reply with the item's `ts` is looked at and gets feedback when its metadata is complete (the older bot, src/slack/bot.py:180-181, never has a tracker) |
| SlackLegacyBot.LegacyContent | src/slack/bot.py:184-200 | a list content never yields "", and non-strings are dropped rather than raised |
| SlackLegacyBot.LegacyReplyText | src/slack/bot.py:186-200 | the loop computes that text |
| SlackLegacyBot.StringArtifacts | src/slack/bot.py:217-218 | fails iff some artifact lacks a key it reads; otherwise keeps only unstripped string pairs of the input, without content |
| SlackLegacyBot.StringArtifactsKeepsAll | src/slack/bot.py:217-218 | every artifact whose title and link are strings is kept as often as it occurs: nothing is de-duplicated or stripped |
| SlackLegacyBot.StringArtifactsAppend | src/slack/bot.py:217-218 | the comprehension goes artifact by artifact in input order: a concatenation keeps the first part's pairs, then the second's, and fails iff either part does |
| SlackLegacyBot.Referenced | src/slack/bot.py:213-219 | one reference named by the configured message, with the tool's configured icon and exactly the message's string artifacts; it fails iff reading them does |
| SlackLegacyBot.ScanFrom | src/slack/bot.py:202-220 | at most one reference |
| SlackLegacyBot.ScanWindow | src/slack/bot.py:203-220 | no reference iff no qualifying tool message lies after the second-newest AI message; otherwise the reference is built from the newest one |
| SlackLegacyBot.LegacyReferences | src/slack/bot.py:183-222 | the same for the whole transcript: at most one reference, from the newest qualifying message in the window |
| SlackLegacyBot.LegacyParseAgentResult | src/slack/bot.py:183-222 | the loop with its AI-message flag computes `LegacyParseSpec` |
| SlackLegacyBot.LegacyEnqueued | src/slack/bot.py:94-128 | as written: nothing is ever queued; a payload that passes the filter raises the validation error |
| SlackLegacyBot.LegacyHandlersDropAdmittedEvents | src/slack/bot.py:98-99 | as written: every payload the current bot queues is lost to a validation error (Finding 2) |
| SlackConversation.CleanTitle | src/agent/tool/slack_conversation.py:15-17 | no forbidden character is left; every other character keeps its count |
| SlackConversation.CleanTitleSubsequence | src/agent/tool/utils.py:1-3 | the result is a subsequence of the title |
| SlackConversation.CleanTitleIdempotent | src/agent/tool/utils.py:1-3 | cleaning twice is cleaning once |
| SlackConversation.CleanTitleKeepsClean | src/agent/tool/utils.py:1-3 | a title without forbidden characters comes back unchanged |
| SlackConversation.AttachmentLinesInKeyOrder | src/agent/tool/slack_conversation.py:37 | attachment lines follow the key list's order |
| SlackConversation.AttachmentLinesOnlyKeys | src/agent/tool/slack_conversation.py:53-55 | only the four listed keys matter |
| SlackConversation.AttachmentLinesQuoted | src/agent/tool/slack_conversation.py:55 | the lines are empty iff no key is present, and otherwise start with the prefix (`"> "` for bots) |
| SlackConversation.AttachmentsSection | src/agent/tool/slack_conversation.py:57-58 | the section is present iff there is an attachment, and starts with the heading |
| SlackConversation.BotPostShape | src/agent/tool/slack_conversation.py:41-59 | a bot post is rendered as author, post text and quoted attachments |
| SlackConversation.UserMessageShape | src/agent/tool/slack_conversation.py:60-78 | a user message is rendered as the user mention, text and unquoted attachments |
| SlackConversation.ContentsOfMessageReplies | src/agent/tool/slack_conversation.py:38-40 | only `message` replies contribute, one text each in order, and the loop fails iff one of them lacks a key |
| SlackConversation.FormatAttachment | src/agent/tool/slack_conversation.py:52-56 | the key loop computes the stripped attachment lines |
| SlackConversation.FormatAttachments | src/agent/tool/slack_conversation.py:51-56 | one text per attachment |
| SlackConversation.FormatReply | src/agent/tool/slack_conversation.py:41-78 | the body of one reply |
| SlackConversation.GetSlackConversationReplies | src/agent/tool/slack_conversation.py:36-86 | the texts joined by the separator, and exactly one artifact with the URL as link, the text as content and a cleaned title |
| McpResult.Output | src/main.py:46-49 | a bare string iff exactly one text, otherwise the list |
| McpResult.PartitionKeepsOrder | src/main.py:33-44 | fails iff a JSON text fails to parse; otherwise the texts in order and the parsed JSON resources in order, all else dropped |
| McpResult.ConvertOutcome | src/main.py:46-54 | an error result raises with the content; otherwise the content, and no artifact iff there is no JSON resource |
| McpResult.ConvertCallToolResult | src/main.py:32-54 | the loop computes the conversion |

## Left out

- SlackBotClient.FetchConversationsReplies: requires that some page has no `has_more`. The loop at src/slack_bot/client.py:182-200 has no other exit, so on a thread whose pages all have more it never ends; that non-termination is not modelled.
- SlackBotClient.FindSessionId: the same requirement on its unlimited replies read.
- SlackClient.FetchConversationsReplies: requires that the read stops, at a page without more or once `limit` messages are held. On a thread with endless pages that never reach the limit (an empty page after empty page) the source loops forever; that is not modelled.
- SlackClient.FindSessionId: the same requirement on its 30-reply read.
- MessageConfig.DigitRun: `\d` is read as the ASCII digits `0`-`9`. Python's `\d` on `str` also matches the other Unicode decimal digits, so a message named `assistant_greeting_prompt_٣_title` is grouped by the source and ignored by the model (`MessageConfig.MatchIndexed` likewise).
- SlackBotClient.ThreadUrlInfo: reads only ASCII digits after `/p`; the source's `\d+` and `int()` also accept other Unicode decimal digits (`/p١٢`).
- MessageConfig.EmojiLookup, MessageConfig.MessageLookup: the `get_emoji` and `get_message` accessors that the bots and the parser call are not defined in the configuration sources shown: src/config/message.py defines neither `EmojiMixin` nor `MessageMixin`, which src/config/slack.py:7 imports, and `AgentConfig` has neither accessor. They are modelled as these `__getitem__` lookups over one table of messages and one of emojis. `get_tracker` (src/slack_bot/bot.py:34) is likewise undefined, and the tracker is a flag.
- SlackClient.ReplyMarkdown: the older client reads `get_message(...).text` (src/slack/client.py:257), and the model reads it as the message string, as the current client uses it.
- AgentParser.ScanTranscript: a tool message's name is a string. A name of `None` cannot be represented. On such a name the source fails when it builds the `Reference` with that source (src/agent/parser.py:51-53), or at `message.name.strip()` (line 57). MessageConfig.MatchIndexed also reads the key interpolated into the pattern of src/config/message.py:51 literally, so a key with regular-expression metacharacters matches differently in the source.
- AgentParser.CollectArtifacts: an artifact is a record of optional fields. An artifact that is not a dictionary, on which `artifact["title"]` raises `TypeError`, cannot be represented (`SlackLegacyBot.StringArtifacts` likewise).
- Slack Web API calls are functions from page size and page number to a page. Cursors are abstracted to the page index, and `backoff` retry timing is not modelled.
- SlackBotClient.ThreadUrlInfo: returns the integer parsed after `/p`; the float `/ 1000000` that turns it into a timestamp is not modelled.
- SlackBotClient.ChannelUrlInfo: takes the URL's path. `urlparse` is not modelled.
- `clean_markdown` is the parameter `clean`; its regular-expression chain is not modelled.
- `add_reaction`: its `ts` argument and `strip(":")` of the emoji are not modelled. Adding and removing a reaction are recorded as actions.
- asyncio is not modelled: task creation, the socket-mode handler, signal handlers, concurrency between handlers and worker. The worker is a sequential drain of the queue.
- The tracker is not modelled. Its internals and the number of arguments `collect_emoji_feedback` is called with (6 against a 5-parameter signature) are outside the model; feedback is one recorded action.
- `find_session_id` is called without `await` in the current bot. The session id is therefore an opaque input of the processing methods and is not tied to the lookup.
- `replace_channel_id_with_url`, `build_channel_url` and `build_thread_url` are not defined in the client. They are parameters (`Surroundings`), and the agent's input is the event text.
- The replies section of `create_runnable_config` is not modelled, because every caller passes `False`. The current time is an input string.
- The worker's `case _` branch (unknown event type) cannot be reached with three event types.
- Message and mention processing of the older bot is not modelled. Its handlers never admit an event (Finding 2), so that code is unreachable.
- The older `reply_markdown`'s reference type is `SlackMessageReference`. The older parser's reference is built from configuration resources given as the `Resources` record.
- SlackConversation.GetSlackConversationReplies: src/agent/tool/slack_conversation.py:30-31 calls `get_thread_url_info(url, not single_message)`, but the static method at src/slack_bot/client.py:118-119 takes only `url`. As written the tool raises `TypeError` before it reads any replies. The model starts from the replies as if that call had succeeded. The replies are its input, and the title chain is the `makeTitle` parameter.
- `json.loads` is the parameter `loads`; the Langfuse prompt is the input `fetched`.
- The greeting handlers (`_handle_thread_started`) and the random shuffle of greeting prompts are not modelled.
- Configuration loading from YAML and environment is not modelled; the tables are inputs.

## Findings

| source | as written | input that shows it | evidently intended | confidence | as-written member | corrected member |
|---|---|---|---|---|---|---|
| src/agent/parser.py:27 | the list branch iterates `result`, the dict, so it joins the dict's keys (`"messages"`) instead of the content's text items; the same in src/slack/bot.py:189 | last message content `["hello"]`, result with the single key `"messages"`: reply `"messages"` | iterate `content` and join its non-blank text items | high, not executed | AgentParser.ListBranchRepliesWithResultKeys | AgentParser.IntendedContentFromItems |
| src/slack/bot.py:98-99 | the older handlers build `SlackEvent` without `user` and `channel`, which the model requires, so every admitted payload raises a validation error and nothing is queued (also lines 108-109, 118-119, 127) | a message payload with user, channel, non-blank text and `client_msg_id` | pass `user` and `channel` from the payload, as the current bot does | high, not executed | SlackLegacyBot.LegacyHandlersDropAdmittedEvents | SlackBot.Enqueued |
