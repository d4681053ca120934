/** The Slack bot: webhook handlers that filter events into a queue, a worker
    that drains the queue until a sentinel, the shutdown sequence, and the
    control flow that turns one queued event into Slack replies. The queue,
    the count of unfinished items and the trace of outward actions are fields
    of one `SlackBot` object that the methods update. Language-model answers,
    the agent transcript, the wall clock and the URL builders are inputs. */
module SlackBot {
  import opened Common
  import opened MessageConfig
  import opened SlackTypes
  import opened SlackBotClient
  import AgentParser

  // ---------------------------------------------------------------------
  // Values

  /** What the queue holds: an event, or the falsy sentinel `None`. */
  datatype QueueItem = Stop | Queued(event: SlackEvent)

  /** The processing coroutine an event is dispatched to. */
  datatype Handler = ProcessAppMention | ProcessReactionAdded | ProcessMessage

  /** One event the worker popped and dispatched, and whether its handler
      raised (the worker logs that and goes on). */
  datatype Dispatched = Dispatched(event: SlackEvent, handler: Handler, raised: bool)

  /** What the two context texts of a run are made of: the bot's user id,
      the asking user, the channel, the channel and thread URLs and the
      formatted time. `ContextText` and `AgentContextText` render them. */
  datatype ContextFacts = ContextFacts(
    botId: string,
    user: string,
    channel: string,
    channelUrl: string,
    threadUrl: string,
    now: string)

  /** The run configuration handed to the chain and the agent; its two
      context texts are the renderings of `facts`. */
  datatype RunnableConfig = RunnableConfig(
    userId: string,
    messageId: Option<string>,
    sessionId: Option<string>,
    facts: ContextFacts,
    threadId: Option<string>,
    tags: seq<string>,
    runId: Option<string>)

  /** What the bot does to the world, in order. */
  datatype Action =
    | Ack
    | SetStatus(text: string)
    | AddReaction(event: SlackEvent, emoji: string)
    | RemoveReaction(event: SlackEvent, emoji: string)
    | RunConfigured(config: RunnableConfig)
    | ChainInvoked(input: string)
    | AgentInvoked(input: string)
    | PostReply(post: Post)
    | Feedback(messageId: string, user: string, replyMessage: string, replyText: string, reaction: string)
    | CloseHandler
    | SentinelQueued
    | QueueJoined
    | FlushTracker

  /** The webhook handlers. */
  datatype HandlerKind = MessageHandler | AssistantHandler | AppMentionHandler | ReactionHandler

  /** A failure of event processing: a Slack-side error or a parser error. */
  datatype BotError = SlackFailure(slack: SlackError) | ParseFailure(parse: AgentParser.ParseError)

  /** The inputs of the context strings that are not part of the event: the
      bot's user id, the URL builders and the current time, already formatted. */
  datatype Surroundings = Surroundings(
    botId: string,
    channelUrl: string -> string,
    threadUrl: (string, string, Option<string>) -> string,
    now: string)

  const ThinkingEmojiKey := "ai_thinking"
  const AssistantThinkingKey := "assistant_thinking"
  const NewConversationTitleKey := "new_conversation_title"
  const NewConversationMessageKey := "new_conversation_message"
  const Yes := "yes"

  // ---------------------------------------------------------------------
  // The worker's dispatch

  /** The processing coroutine for an event type. */
  function HandlerFor(t: EventType): (h: Handler)
    ensures t == AppMention <==> h == ProcessAppMention
    ensures t == ReactionAdded <==> h == ProcessReactionAdded
    ensures t == MessageEvent <==> h == ProcessMessage
  {
    match t
    case AppMention => ProcessAppMention
    case ReactionAdded => ProcessReactionAdded
    case MessageEvent => ProcessMessage
  }

  /** The position of the first sentinel, or the length when there is none. */
  function FirstStop(items: seq<QueueItem>): (n: nat)
    ensures n <= |items|
    ensures n < |items| ==> items[n] == Stop
    ensures forall k :: 0 <= k < n ==> items[k] != Stop
  {
    if items == [] || items[0] == Stop then 0 else 1 + FirstStop(items[1..])
  }

  /** The sentinel put behind events is the first one. */
  lemma FirstStopAfter(pending: seq<QueueItem>)
    requires Stop !in pending
    ensures FirstStop(pending + [Stop]) == |pending|
  {
    var q := pending + [Stop];
    var n := FirstStop(q);
    assert q[|pending|] == Stop;
    assert forall k :: 0 <= k < |pending| ==> q[k] == pending[k];
  }

  lemma DispatchesSnoc(items: seq<QueueItem>, item: QueueItem, raises: SlackEvent -> bool)
    requires Stop !in items && item.Queued?
    ensures Dispatches(items + [item], raises) == Dispatches(items, raises) + [Dispatch(item, raises)]
  {
    assert (items + [item])[..|items|] == items;
  }

  /** The dispatches of a run of queued events, in queue order. */
  function Dispatches(items: seq<QueueItem>, raises: SlackEvent -> bool): (d: seq<Dispatched>)
    requires Stop !in items
    ensures |d| == |items|
    ensures forall k :: 0 <= k < |items| ==>
              d[k] == Dispatched(items[k].event, HandlerFor(items[k].event.eventType), raises(items[k].event))
  {
    if items == [] then [] else Dispatches(items[..|items| - 1], raises) + [Dispatch(items[|items| - 1], raises)]
  }

  function Dispatch(item: QueueItem, raises: SlackEvent -> bool): Dispatched
    requires item.Queued?
  {
    Dispatched(item.event, HandlerFor(item.event.eventType), raises(item.event))
  }

  // ---------------------------------------------------------------------
  // The webhook filters

  /** The event a webhook handler enqueues, `None` when its filter drops the
      payload, or the `KeyError` of a key it reads that is missing. */
  function Enqueued(kind: HandlerKind, data: EventData): (r: Result<Option<SlackEvent>, SlackError>)
    ensures kind == ReactionHandler ==> (r.Ok? <==> data.user.Some? && data.itemChannel.Some?)
    ensures kind == ReactionHandler && r.Ok? ==> r.value.Some?
    ensures kind == AppMentionHandler && data.edited ==> r == Ok(None)
    ensures (kind == MessageHandler || kind == AssistantHandler) && data.subtype.Some? ==> r == Ok(None)
    ensures (kind == MessageHandler || kind == AssistantHandler) ==>
              (r.Ok? && r.value.Some? <==>
                 data.subtype.None? && data.text.Some? && Strip(data.text.value) != ""
                 && data.user.Some? && data.channel.Some? && data.clientMsgId.Some?)
    ensures kind == AppMentionHandler ==>
              (r.Ok? && r.value.Some? <==> !data.edited && data.user.Some? && data.channel.Some? && data.clientMsgId.Some?)
    ensures r.Ok? && r.value.Some? ==>
              var e := r.value.value;
              && e.data == data && e.sessionId == None
              && e.eventType == (match kind
                                 case ReactionHandler => ReactionAdded
                                 case AppMentionHandler => AppMention
                                 case _ => MessageEvent)
              && e.user == data.user.value
              && e.channel == (if kind == ReactionHandler then data.itemChannel.value else data.channel.value)
              && e.messageId == (if kind == ReactionHandler then None else data.clientMsgId)
  {
    match kind
    case ReactionHandler =>
      if data.user.None? then Err(MissingKey("user"))
      else if data.itemChannel.None? then Err(MissingKey("item.channel"))
      else Ok(Some(SlackEvent(ReactionAdded, data, data.user.value, data.itemChannel.value, None, None)))
    case AppMentionHandler =>
      if data.edited then Ok(None)
      else IdentifiedEvent(AppMention, data)
    case _ =>
      if data.subtype.Some? then Ok(None)
      else if data.text.None? then Err(MissingKey("text"))
      else if Strip(data.text.value) == "" then Ok(None)
      else IdentifiedEvent(MessageEvent, data)
  }

  /** `SlackEvent(type, data, user=event["user"], channel=event["channel"],
      message_id=event["client_msg_id"])`, keys read in that order. */
  function IdentifiedEvent(t: EventType, data: EventData): (r: Result<Option<SlackEvent>, SlackError>)
    ensures r.Ok? <==> data.user.Some? && data.channel.Some? && data.clientMsgId.Some?
    ensures r.Ok? ==> r.value == Some(SlackEvent(t, data, data.user.value, data.channel.value, data.clientMsgId, None))
  {
    if data.user.None? then Err(MissingKey("user"))
    else if data.channel.None? then Err(MissingKey("channel"))
    else if data.clientMsgId.None? then Err(MissingKey("client_msg_id"))
    else Ok(Some(SlackEvent(t, data, data.user.value, data.channel.value, data.clientMsgId, None)))
  }

  /** The handlers the app registers: the message handler outside assistant
      mode, the assistant's user-message handler in it, the mention and
      reaction handlers always. */
  predicate Registered(assistant: bool, kind: HandlerKind) {
    match kind
    case MessageHandler => !assistant
    case AssistantHandler => assistant
    case _ => true
  }

  /** What one webhook handler does: the items it enqueues, the actions it
      takes after enqueueing (the thinking status or reaction, then the
      acknowledgement), and whether it raised. */
  function HandlerEffect(cfg: MessageTables, kind: HandlerKind, data: EventData): (eff: (seq<QueueItem>, seq<Action>, Result<(), SlackError>))
    ensures |eff.0| <= 1
    ensures eff.0 != [] <==> Enqueued(kind, data).Ok? && Enqueued(kind, data).value.Some?
    ensures eff.0 != [] ==> eff.0[0] == Queued(Enqueued(kind, data).value.value)
    ensures eff.2.Ok? <==> eff.1 != [] && eff.1[|eff.1| - 1] == Ack
    ensures eff.2.Ok? && eff.0 != [] && kind == AssistantHandler ==>
              GetMessage(cfg, AssistantThinkingKey).Ok? && eff.1 == [SetStatus(GetMessage(cfg, AssistantThinkingKey).value), Ack]
    ensures eff.2.Ok? && eff.0 != [] && (kind == MessageHandler || kind == AppMentionHandler) ==>
              GetEmoji(cfg, ThinkingEmojiKey).Ok? && eff.1 == [AddReaction(eff.0[0].event, GetEmoji(cfg, ThinkingEmojiKey).value), Ack]
    ensures eff.2.Ok? && (eff.0 == [] || kind == ReactionHandler) ==> eff.1 == [Ack]
  {
    match Enqueued(kind, data)
    case Err(e) => ([], [], Err(e))
    case Ok(None) => ([], [Ack], Ok(()))
    case Ok(Some(ev)) =>
      match kind
      case ReactionHandler => ([Queued(ev)], [Ack], Ok(()))
      case AssistantHandler =>
        (match GetMessage(cfg, AssistantThinkingKey)
         case Err(x) => ([Queued(ev)], [], Err(ConfigLookup(x)))
         case Ok(t) => ([Queued(ev)], [SetStatus(t), Ack], Ok(())))
      case _ =>
        (match GetEmoji(cfg, ThinkingEmojiKey)
         case Err(x) => ([Queued(ev)], [], Err(ConfigLookup(x)))
         case Ok(t) => ([Queued(ev)], [AddReaction(ev, t), Ack], Ok(())))
  }

  // ---------------------------------------------------------------------
  // Run configuration

  /** `create_runnable_config` without the replies section (every caller
      passes `fetch_conversations_replies=False`): the two context texts, the
      ids and the tags. Reading `data["ts"]` is a `KeyError` when it is missing. */
  function CreateRunnableConfig(env: Surroundings, event: SlackEvent): (r: Result<RunnableConfig, SlackError>)
    ensures r.Ok? <==> event.data.ts.Some?
    ensures r.Ok? ==>
              && r.value.userId == event.user
              && r.value.messageId == event.messageId && r.value.runId == event.messageId
              && r.value.sessionId == event.sessionId && r.value.threadId == event.sessionId
              && r.value.tags == ["slack", EventTypeValue(event.eventType)]
              && r.value.facts.botId == env.botId && r.value.facts.user == event.user
              && r.value.facts.channel == event.channel && r.value.facts.now == env.now
  {
    match event.data.ts
    case None => Err(MissingKey("ts"))
    case Some(ts) =>
      var facts := ContextFacts(env.botId, event.user, event.channel, env.channelUrl(event.channel),
                                env.threadUrl(event.channel, ts, event.data.threadTs), env.now);
      Ok(RunnableConfig(event.user, event.messageId, event.sessionId, facts,
                        event.sessionId, ["slack", EventTypeValue(event.eventType)], event.messageId))
  }

  /** The fixed pieces of the two context texts. */
  const YourNameLine := "- Your name is <@"
  const AskingUserLine := "> .\n- User <@"
  const AskingEnd := "> is asking you question.\n"
  const ChannelIdLine := "- Current slack channel id is <#"
  const ChannelIdEnd := "|> .\n"
  const ChannelUrlLine := "- Current slack channel url is "
  const ConversationUrlLine := "- Current slack conversation url is "
  const TimeLine := "- Current time is "
  const LineEnd := " .\n"
  const LastLineEnd := " ."

  /** The chain's context once stripped: the bot, the asking user, the
      channel, the two URLs and the time, one line each. */
  function ContextText(f: ContextFacts): string
  {
    YourNameLine + f.botId + AskingUserLine + f.user + AskingEnd
    + ChannelIdLine + f.channel + ChannelIdEnd
    + ChannelUrlLine + f.channelUrl + LineEnd
    + ConversationUrlLine + f.threadUrl + LineEnd
    + TimeLine + f.now + LastLineEnd
  }

  /** The agent's context once stripped: the channel and the two URLs. */
  function AgentContextText(f: ContextFacts): string
  {
    ChannelIdLine + f.channel + ChannelIdEnd
    + ChannelUrlLine + f.channelUrl + LineEnd
    + ConversationUrlLine + f.threadUrl + LastLineEnd
  }

  /** The two context strings are written as f-strings that open and close
      on a line of their own and are then stripped: what is left is exactly
      the text between the framing newlines. */
  lemma ContextTextsStripped(f: ContextFacts)
    ensures Strip("\n" + ContextText(f) + "\n") == ContextText(f)
    ensures Strip("\n" + AgentContextText(f) + "\n") == AgentContextText(f)
  {
    var c := ContextText(f);
    var a := AgentContextText(f);
    assert c[0] == YourNameLine[0] && c[|c| - 1] == LastLineEnd[|LastLineEnd| - 1];
    assert a[0] == ChannelIdLine[0] && a[|a| - 1] == LastLineEnd[|LastLineEnd| - 1];
    StripNewlineFramed(c);
    StripNewlineFramed(a);
  }

  /** The new-conversation check answered "yes": `answer.strip().lower()`. */
  predicate SaysYes(answer: string) {
    StrippedLowerEquals(answer, Yes)
  }

  /** The first reply whose `ts` is the reacted item's. */
  function FirstWithTs(replies: seq<SlackMessage>, ts: string): (r: Option<nat>)
    ensures r.Some? ==> r.value < |replies| && replies[r.value].ts == ts
                        && forall k :: 0 <= k < r.value ==> replies[k].ts != ts
    ensures r.None? ==> forall k :: 0 <= k < |replies| ==> replies[k].ts != ts
  {
    if replies == [] then None
    else if replies[0].ts == ts then Some(0)
    else match FirstWithTs(replies[1..], ts)
      case None => None
      case Some(k) => Some(k + 1)
  }

  /** The feedback a reaction records about one reply: every key it reads
      must be there, otherwise the `KeyError` is logged and nothing is
      recorded. */
  function FeedbackOn(event: SlackEvent, reply: SlackMessage): (r: seq<Action>)
    ensures |r| <= 1
    ensures r != [] <==> reply.replyMessageId.Some? && reply.replyMessage.Some? && reply.text.Some? && event.data.reaction.Some?
  {
    if reply.replyMessageId.Some? && reply.replyMessage.Some? && reply.text.Some? && event.data.reaction.Some? then
      [Feedback(reply.replyMessageId.value, event.user, reply.replyMessage.value, reply.text.value, event.data.reaction.value)]
    else []
  }

  /** The actions that take the thinking reaction off, when they happen. */
  function Removal(cfg: MessageTables, ev: SlackEvent, removes: bool): seq<Action>
  {
    if removes && GetEmoji(cfg, ThinkingEmojiKey).Ok? then [RemoveReaction(ev, GetEmoji(cfg, ThinkingEmojiKey).value)] else []
  }

  /** Where the thinking reaction comes off around the parse. */
  datatype RemovalPoint = NoRemoval | BeforeParse | AfterParse

  /** `p` posts `markdown` as an answer: its first block is the answer cut to
      10000 characters, it goes in the thread when asked, and its session id
      is the event's first truthy id. */
  predicate AnswerPost(p: Post, markdown: string, ev: SlackEvent, inReplies: bool)
  {
    && |p.blocks| > 0
    && p.blocks[0] == MarkdownBlock(PySlicePrefix(markdown, MaxMarkdown))
    && p.threadTs == ThreadOf(ev, inReplies)
    && ReplySessionId(ev).Ok? && p.metadata.replySessionId == ReplySessionId(ev).value
  }

  /** `p` posts the parsed agent answer. */
  ghost predicate AgentReply(cfg: MessageTables, p: Post, transcript: seq<AgentParser.Message>, iterated: seq<AgentParser.Item>,
                             ev: SlackEvent, inReplies: bool)
  {
    && AgentParser.ParseSpec(cfg, transcript, iterated).Ok?
    && AnswerPost(p, AgentParser.ParseSpec(cfg, transcript, iterated).value.0, ev, inReplies)
  }

  /** `p` is the new-conversation notice: the title as text, the message as
      the one block, outside the thread, and a session id that ignores the
      event's session. */
  ghost predicate NoticeReply(cfg: MessageTables, p: Post, ev: SlackEvent)
  {
    && GetMessage(cfg, NewConversationTitleKey).Ok? && GetMessage(cfg, NewConversationMessageKey).Ok?
    && p.blocks == [PlainContext(GetMessage(cfg, NewConversationMessageKey).value)]
    && p.text == GetMessage(cfg, NewConversationTitleKey).value
    && p.threadTs == None
    && ReplyMessageId(ev).Ok? && p.metadata.replySessionId == ReplyMessageId(ev).value
  }

  // ---------------------------------------------------------------------
  // The bot

  class SlackBot {
    /** The event queue, front first. */
    var queue: seq<QueueItem>
    /** Items put and not yet marked done. */
    var unfinished: nat
    /** What the worker has dispatched. */
    var handled: seq<Dispatched>
    /** What the bot has done outside, in order. */
    var actions: seq<Action>
    /** Assistant mode: replies go in the thread and no reactions are set. */
    const assistant: bool
    /** Whether a feedback tracker is configured. */
    const hasTracker: bool
    const cfg: MessageTables
    const env: Surroundings

    constructor (assistant: bool, hasTracker: bool, cfg: MessageTables, env: Surroundings)
      ensures queue == [] && unfinished == 0 && handled == [] && actions == []
      ensures this.assistant == assistant && this.hasTracker == hasTracker && this.cfg == cfg && this.env == env
    {
      queue := [];
      unfinished := 0;
      handled := [];
      actions := [];
      this.assistant := assistant;
      this.hasTracker := hasTracker;
      this.cfg := cfg;
      this.env := env;
    }

    /** `queue.put`. */
    method Put(item: QueueItem)
      modifies this
      ensures queue == old(queue) + [item] && unfinished == old(unfinished) + 1
      ensures handled == old(handled) && actions == old(actions)
    {
      queue := queue + [item];
      unfinished := unfinished + 1;
    }

    /** `queue.get` on a non-empty queue. */
    method Get() returns (item: QueueItem)
      requires queue != []
      modifies this
      ensures item == old(queue)[0] && queue == old(queue)[1..]
      ensures unfinished == old(unfinished) && handled == old(handled) && actions == old(actions)
    {
      item := queue[0];
      queue := queue[1..];
    }

    /** `queue.task_done`. */
    method TaskDone()
      requires unfinished > 0
      modifies this
      ensures unfinished == old(unfinished) - 1
      ensures queue == old(queue) && handled == old(handled) && actions == old(actions)
    {
      unfinished := unfinished - 1;
    }

    /** The event worker: pops items in order, dispatches each event to the
        coroutine for its type, logs a handler's exception and goes on, marks
        every popped item done, and stops at the first sentinel, which it also
        marks done. `raises` says which events' processing raises. */
    method EventWorker(raises: SlackEvent -> bool)
      requires Stop in queue
      requires unfinished >= |queue|
      modifies this
      ensures var n := FirstStop(old(queue));
              && queue == old(queue)[n + 1..]
              && unfinished == old(unfinished) - (n + 1)
              && handled == old(handled) + Dispatches(old(queue)[..n], raises)
      ensures actions == old(actions)
    {
      ghost var q0, h0 := queue, handled;
      ghost var n := FirstStop(q0);
      ghost var k := 0;
      while true
        invariant k <= n < |q0|
        invariant Stop !in q0[..k]
        invariant queue == q0[k..]
        invariant unfinished == old(unfinished) - k
        invariant handled == h0 + Dispatches(q0[..k], raises)
        invariant actions == old(actions)
        decreases |queue|
      {
        assert q0[k..][1..] == q0[k + 1..];
        var stopped := WorkOne(raises);
        if stopped {
          assert k == n;
          break;
        }
        assert q0[..k + 1] == q0[..k] + [q0[k]];
        DispatchesSnoc(q0[..k], q0[k], raises);
        k := k + 1;
      }
    }

    /** One round of the worker: the front item is taken and marked done; an
        event is dispatched first, the sentinel stops the worker. */
    method WorkOne(raises: SlackEvent -> bool) returns (stopped: bool)
      requires queue != [] && unfinished > 0
      modifies this
      ensures stopped <==> old(queue)[0] == Stop
      ensures queue == old(queue)[1..] && unfinished == old(unfinished) - 1 && actions == old(actions)
      ensures handled == old(handled) + (if stopped then [] else [Dispatch(old(queue)[0], raises)])
    {
      var item := Get();
      stopped := item.Stop?;
      if !stopped {
        handled := handled + [Dispatch(item, raises)];
      }
      TaskDone();
    }

    /** `__aexit__`: closes the socket handler, queues the sentinel, waits for
        the queue to be drained, then flushes the tracker if there is one.
        Every event queued before it is dispatched and the unfinished count
        comes back to zero. */
    method Shutdown(raises: SlackEvent -> bool)
      requires Stop !in queue && unfinished == |queue|
      modifies this
      ensures actions == old(actions) + [CloseHandler, SentinelQueued, QueueJoined] + (if hasTracker then [FlushTracker] else [])
      ensures queue == [] && unfinished == 0
      ensures handled == old(handled) + Dispatches(old(queue), raises)
    {
      actions := actions + [CloseHandler];
      ghost var pending := queue;
      Put(Stop);
      actions := actions + [SentinelQueued];
      FirstStopAfter(pending);
      assert queue[..|pending|] == pending;
      EventWorker(raises);
      actions := actions + [QueueJoined];
      if hasTracker {
        actions := actions + [FlushTracker];
      }
    }

    /** The webhook handlers `_handle_message`, `_handle_assistant_message`,
        `_handle_app_mention` and `_handle_reaction_added`: each enqueues the
        event its filter admits, then sets the thinking status (assistant) or
        reaction (message, mention), then acknowledges. */
    method HandleWebhook(kind: HandlerKind, data: EventData) returns (r: Result<(), SlackError>)
      modifies this
      ensures Registered(assistant, kind) ==>
              var eff := HandlerEffect(cfg, kind, data);
              && queue == old(queue) + eff.0 && unfinished == old(unfinished) + |eff.0|
              && actions == old(actions) + eff.1 && r == eff.2
      ensures !Registered(assistant, kind) ==>
              queue == old(queue) && unfinished == old(unfinished) && actions == old(actions) && r == Ok(())
      ensures handled == old(handled)
    {
      if !Registered(assistant, kind) {
        return Ok(());
      }
      var admitted := Enqueued(kind, data);
      if admitted.Err? {
        return Err(admitted.error);
      }
      if admitted.value.Some? {
        var event := admitted.value.value;
        Put(Queued(event));
        if kind == AssistantHandler {
          var status := GetMessage(cfg, AssistantThinkingKey);
          if status.Err? {
            return Err(ConfigLookup(status.error));
          }
          actions := actions + [SetStatus(status.value)];
        } else if kind != ReactionHandler {
          var emoji := GetEmoji(cfg, ThinkingEmojiKey);
          if emoji.Err? {
            return Err(ConfigLookup(emoji.error));
          }
          actions := actions + [AddReaction(event, emoji.value)];
        }
      }
      actions := actions + [Ack];
      r := Ok(());
    }

    /** The thinking reaction comes off. */
    method TakeOffReaction(event: SlackEvent) returns (r: Result<(), SlackError>)
      modifies this
      ensures GetEmoji(cfg, ThinkingEmojiKey).Ok? ==>
                r.Ok? && actions == old(actions) + [RemoveReaction(event, GetEmoji(cfg, ThinkingEmojiKey).value)]
      ensures GetEmoji(cfg, ThinkingEmojiKey).Err? ==>
                r == Err(ConfigLookup(GetEmoji(cfg, ThinkingEmojiKey).error)) && actions == old(actions)
      ensures queue == old(queue) && unfinished == old(unfinished) && handled == old(handled)
    {
      var emoji := GetEmoji(cfg, ThinkingEmojiKey);
      if emoji.Err? {
        return Err(ConfigLookup(emoji.error));
      }
      actions := actions + [RemoveReaction(event, emoji.value)];
      r := Ok(());
    }

    /** Runs the agent on the event's text, parses its result and posts it with
        `reply_markdown`; the thinking reaction comes off before or after the
        parse, or not at all. */
    method RunAgent(ev: SlackEvent, transcript: seq<AgentParser.Message>, iterated: seq<AgentParser.Item>,
                    inReplies: bool, removal: RemovalPoint, clean: string -> string)
        returns (r: Result<(), BotError>)
      modifies this
      ensures queue == old(queue) && unfinished == old(unfinished) && handled == old(handled)
      ensures old(actions) <= actions
      ensures ev.data.text.None? ==> r == Err(SlackFailure(MissingKey("text"))) && actions == old(actions)
      ensures ev.data.text.Some? && AgentParser.ParseSpec(cfg, transcript, iterated).Err? ==>
                r.Err? && actions == old(actions) + [AgentInvoked(ev.data.text.value)] + Removal(cfg, ev, removal == BeforeParse)
      ensures r.Ok? ==>
                && ev.data.text.Some? && |actions| > 0 && actions[|actions| - 1].PostReply?
                && AgentReply(cfg, actions[|actions| - 1].post, transcript, iterated, ev, inReplies)
                && actions == old(actions) + [AgentInvoked(ev.data.text.value)] + Removal(cfg, ev, removal != NoRemoval)
                                           + [actions[|actions| - 1]]
    {
      if ev.data.text.None? {
        return Err(SlackFailure(MissingKey("text")));
      }
      ghost var invoked := old(actions) + [AgentInvoked(ev.data.text.value)];
      actions := actions + [AgentInvoked(ev.data.text.value)];
      if removal == BeforeParse {
        var removed := TakeOffReaction(ev);
        if removed.Err? {
          return Err(SlackFailure(removed.error));
        }
      }
      assert actions == invoked + Removal(cfg, ev, removal == BeforeParse);
      var parsed := AgentParser.ParseAgentResult(cfg, transcript, iterated);
      if parsed.Err? {
        return Err(ParseFailure(parsed.error));
      }
      if removal == AfterParse {
        var removed := TakeOffReaction(ev);
        if removed.Err? {
          return Err(SlackFailure(removed.error));
        }
      }
      assert actions == invoked + Removal(cfg, ev, removal != NoRemoval);
      var posted := PostAnswer(ev, parsed.value.0, parsed.value.1, inReplies, clean);
      if posted.Err? {
        return Err(SlackFailure(posted.error));
      }
      r := Ok(());
    }

    /** Posts an answer and its references with `reply_markdown`. */
    method PostAnswer(ev: SlackEvent, markdown: string, references: seq<AgentParser.Reference>,
                      inReplies: bool, clean: string -> string) returns (r: Result<(), SlackError>)
      modifies this
      ensures queue == old(queue) && unfinished == old(unfinished) && handled == old(handled)
      ensures r.Err? <==> ReplyMarkdownFailure(cfg, ev, markdown, inReplies).Some?
      ensures r.Err? ==> actions == old(actions)
      ensures r.Ok? ==> |actions| > 0 && actions == old(actions) + [actions[|actions| - 1]]
                        && actions[|actions| - 1].PostReply? && AnswerPost(actions[|actions| - 1].post, markdown, ev, inReplies)
    {
      var post := ReplyMarkdown(cfg, ev, markdown, references, inReplies, clean);
      if post.Err? {
        return Err(post.error);
      }
      actions := actions + [PostReply(post.value)];
      r := Ok(());
    }

    /** `_process_message_event`. `sessionId` is what the session lookup
        stores in the event, `answer` the new-conversation check's answer,
        `transcript` and `iterated` the agent's result. Outside assistant
        mode the check runs first, and a "yes" clears the session and posts
        the new-conversation notice instead of running the agent; otherwise
        the reaction comes off before the answer is parsed. In assistant mode
        the agent runs at once and the reply goes in the thread. */
    method ProcessMessageEvent(event: SlackEvent, sessionId: Option<string>, answer: string,
                               transcript: seq<AgentParser.Message>, iterated: seq<AgentParser.Item>, clean: string -> string)
        returns (r: Result<(), BotError>)
      modifies this
      ensures queue == old(queue) && unfinished == old(unfinished) && handled == old(handled)
      ensures old(actions) <= actions
      ensures var ev := event.(sessionId := sessionId);
              CreateRunnableConfig(env, ev).Err? ==> r == Err(SlackFailure(CreateRunnableConfig(env, ev).error)) && actions == old(actions)
      ensures !assistant && SaysYes(answer) ==> forall a :: a in actions[|old(actions)|..] ==> !a.AgentInvoked?
      ensures var ev := event.(sessionId := sessionId);
              r.Ok? && !assistant && SaysYes(answer) ==>
                && CreateRunnableConfig(env, ev).Ok? && ev.data.text.Some?
                && |actions| > 0 && actions[|actions| - 1].PostReply? && NoticeReply(cfg, actions[|actions| - 1].post, ev)
                && actions == old(actions) + [RunConfigured(CreateRunnableConfig(env, ev).value)]
                                           + [ChainInvoked(ev.data.text.value)] + Removal(cfg, ev, true)
                                           + [actions[|actions| - 1]]
      ensures var ev := event.(sessionId := sessionId);
              r.Ok? && !(!assistant && SaysYes(answer)) ==>
                && CreateRunnableConfig(env, ev).Ok? && ev.data.text.Some?
                && |actions| > 0 && actions[|actions| - 1].PostReply?
                && AgentReply(cfg, actions[|actions| - 1].post, transcript, iterated, ev, assistant)
                && actions == old(actions) + [RunConfigured(CreateRunnableConfig(env, ev).value)]
                                           + (if assistant then [] else [ChainInvoked(ev.data.text.value)])
                                           + [AgentInvoked(ev.data.text.value)] + Removal(cfg, ev, !assistant)
                                           + [actions[|actions| - 1]]
    {
      var ev := event.(sessionId := sessionId);
      var config := CreateRunnableConfig(env, ev);
      if config.Err? {
        return Err(SlackFailure(config.error));
      }
      actions := actions + [RunConfigured(config.value)];
      if assistant {
        r := RunAgent(ev, transcript, iterated, true, NoRemoval, clean);
      } else {
        r := CheckedRun(ev, answer, transcript, iterated, clean);
      }
    }

    /** The message path outside assistant mode: the new-conversation check
        is asked about the text; a "yes" posts the notice in place of the
        agent's answer, anything else runs the agent with the reaction taken
        off before the parse and the reply outside the thread. */
    method CheckedRun(ev: SlackEvent, answer: string,
                      transcript: seq<AgentParser.Message>, iterated: seq<AgentParser.Item>, clean: string -> string)
        returns (r: Result<(), BotError>)
      modifies this
      ensures queue == old(queue) && unfinished == old(unfinished) && handled == old(handled)
      ensures old(actions) <= actions
      ensures ev.data.text.None? ==> r == Err(SlackFailure(MissingKey("text"))) && actions == old(actions)
      ensures SaysYes(answer) ==> forall a :: a in actions[|old(actions)|..] ==> !a.AgentInvoked?
      ensures r.Ok? && SaysYes(answer) ==>
                && ev.data.text.Some?
                && |actions| > 0 && actions[|actions| - 1].PostReply? && NoticeReply(cfg, actions[|actions| - 1].post, ev)
                && actions == old(actions) + [ChainInvoked(ev.data.text.value)] + Removal(cfg, ev, true) + [actions[|actions| - 1]]
      ensures r.Ok? && !SaysYes(answer) ==>
                && ev.data.text.Some?
                && |actions| > 0 && actions[|actions| - 1].PostReply?
                && AgentReply(cfg, actions[|actions| - 1].post, transcript, iterated, ev, false)
                && actions == old(actions) + [ChainInvoked(ev.data.text.value)] + [AgentInvoked(ev.data.text.value)]
                                           + Removal(cfg, ev, true) + [actions[|actions| - 1]]
    {
      if ev.data.text.None? {
        return Err(SlackFailure(MissingKey("text")));
      }
      actions := actions + [ChainInvoked(ev.data.text.value)];
      if SaysYes(answer) {
        r := NewConversationNotice(ev);
        return;
      }
      r := RunAgent(ev, transcript, iterated, false, BeforeParse, clean);
    }

    /** The "yes" branch: the reaction comes off, the session is dropped and
        the new-conversation notice is posted with the plain `reply_blocks`. */
    method NewConversationNotice(ev: SlackEvent) returns (r: Result<(), BotError>)
      modifies this
      ensures queue == old(queue) && unfinished == old(unfinished) && handled == old(handled)
      ensures old(actions) <= actions
      ensures forall a :: a in actions[|old(actions)|..] ==> !a.AgentInvoked?
      ensures r.Ok? ==> |actions| > 0 && actions[|actions| - 1].PostReply? && NoticeReply(cfg, actions[|actions| - 1].post, ev)
                        && GetEmoji(cfg, ThinkingEmojiKey).Ok?
                        && actions == old(actions) + Removal(cfg, ev, true) + [actions[|actions| - 1]]
    {
      var removed := TakeOffReaction(ev);
      if removed.Err? {
        return Err(SlackFailure(removed.error));
      }
      var cleared := ev.(sessionId := None);
      var title := GetMessage(cfg, NewConversationTitleKey);
      if title.Err? {
        return Err(SlackFailure(ConfigLookup(title.error)));
      }
      var message := GetMessage(cfg, NewConversationMessageKey);
      if message.Err? {
        return Err(SlackFailure(ConfigLookup(message.error)));
      }
      var post := ReplyBlocks(cleared, title.value, [PlainContext(message.value)], false);
      if post.Err? {
        return Err(SlackFailure(post.error));
      }
      assert ReplySessionId(cleared) == ReplyMessageId(cleared) == ReplyMessageId(ev);
      actions := actions + [PostReply(post.value)];
      assert actions[|old(actions)|..] == [RemoveReaction(ev, GetEmoji(cfg, ThinkingEmojiKey).value), PostReply(post.value)];
      r := Ok(());
    }

    /** `_process_app_mention_event`: the agent always runs, the answer is
        parsed before the thinking reaction comes off, and the reply goes in
        the thread. */
    method ProcessAppMentionEvent(event: SlackEvent, sessionId: Option<string>,
                                  transcript: seq<AgentParser.Message>, iterated: seq<AgentParser.Item>, clean: string -> string)
        returns (r: Result<(), BotError>)
      modifies this
      ensures queue == old(queue) && unfinished == old(unfinished) && handled == old(handled)
      ensures var ev := event.(sessionId := sessionId);
              CreateRunnableConfig(env, ev).Err? ==> r == Err(SlackFailure(CreateRunnableConfig(env, ev).error)) && actions == old(actions)
      ensures var ev := event.(sessionId := sessionId);
              CreateRunnableConfig(env, ev).Ok? && ev.data.text.Some? && AgentParser.ParseSpec(cfg, transcript, iterated).Err? ==>
                r.Err? && actions == old(actions) + [RunConfigured(CreateRunnableConfig(env, ev).value), AgentInvoked(ev.data.text.value)]
      ensures var ev := event.(sessionId := sessionId);
              r.Ok? ==>
                && CreateRunnableConfig(env, ev).Ok? && ev.data.text.Some?
                && |actions| > 0 && actions[|actions| - 1].PostReply?
                && AgentReply(cfg, actions[|actions| - 1].post, transcript, iterated, ev, true)
                && actions == old(actions) + [RunConfigured(CreateRunnableConfig(env, ev).value)]
                                           + [AgentInvoked(ev.data.text.value)] + Removal(cfg, ev, true)
                                           + [actions[|actions| - 1]]
    {
      var ev := event.(sessionId := sessionId);
      var config := CreateRunnableConfig(env, ev);
      if config.Err? {
        return Err(SlackFailure(config.error));
      }
      actions := actions + [RunConfigured(config.value)];
      r := RunAgent(ev, transcript, iterated, true, AfterParse, clean);
    }
    /** `_process_reaction_added_event`: without a tracker nothing happens;
        otherwise, among the replies of the reacted thread, only the first
        whose `ts` is the reacted item's is looked at, and feedback is
        recorded when it carries the reply metadata. */
    method ProcessReactionAddedEvent(event: SlackEvent, replies: seq<SlackMessage>) returns (r: Result<(), SlackError>)
      modifies this
      ensures queue == old(queue) && unfinished == old(unfinished) && handled == old(handled)
      ensures !hasTracker ==> r.Ok? && actions == old(actions)
      ensures hasTracker && event.data.itemTs.None? ==> r == Err(MissingKey("item.ts")) && actions == old(actions)
      ensures hasTracker && event.data.itemTs.Some? ==>
                r.Ok? && actions == old(actions) + match FirstWithTs(replies, event.data.itemTs.value)
                                                  case None => []
                                                  case Some(k) => FeedbackOn(event, replies[k])
    {
      if !hasTracker {
        return Ok(());
      }
      if event.data.itemTs.None? {
        return Err(MissingKey("item.ts"));
      }
      var ts := event.data.itemTs.value;
      var i := 0;
      while i < |replies|
        invariant i <= |replies|
        invariant forall k :: 0 <= k < i ==> replies[k].ts != ts
        invariant actions == old(actions)
      {
        if replies[i].ts == ts {
          actions := actions + FeedbackOn(event, replies[i]);
          break;
        }
        i := i + 1;
      }
      r := Ok(());
    }
  }
}
