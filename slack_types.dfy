/** The Slack values both bot generations pass around: events received from
    Slack, messages and pages read back from the Web API, and the message a
    reply posts. Dictionaries that the code reads key by key become records
    whose optional fields say whether the key is present. */
module SlackTypes {
  import opened Common
  import opened MessageConfig

  datatype EventType = MessageEvent | AppMention | ReactionAdded

  /** `SlackEventType(...).value`. */
  function EventTypeValue(t: EventType): (v: string)
    ensures v != ""
  {
    match t
    case MessageEvent => "message"
    case AppMention => "app_mention"
    case ReactionAdded => "reaction_added"
  }

  /** The keys of an incoming event's payload (`body["event"]`) that the bots
      read; `None` is an absent key. `itemChannel` and `itemTs` are the fields
      of the reaction's `item`. */
  datatype EventData = EventData(
    subtype: Option<string>,
    text: Option<string>,
    user: Option<string>,
    channel: Option<string>,
    clientMsgId: Option<string>,
    ts: Option<string>,
    threadTs: Option<string>,
    edited: bool,
    itemChannel: Option<string>,
    itemTs: Option<string>,
    reaction: Option<string>)

  /** `SlackEvent`: the queued event with its payload. */
  datatype SlackEvent = SlackEvent(
    eventType: EventType,
    data: EventData,
    user: string,
    channel: string,
    messageId: Option<string>,
    sessionId: Option<string>)

  /** The keys of a message read back from the Web API that the code reads.
      `replySessionId`, `replyMessageId` and `replyMessage` are the fields of
      `metadata.event_payload`, absent when any step of that path is. */
  datatype SlackMessage = SlackMessage(
    msgType: string,
    subtype: Option<string>,
    user: Option<string>,
    username: Option<string>,
    ts: string,
    text: Option<string>,
    clientMsgId: Option<string>,
    replySessionId: Option<string>,
    replyMessageId: Option<string>,
    replyMessage: Option<string>,
    attachments: seq<map<string, string>>)

  /** One page of a paginated Web API answer. */
  datatype Page = Page(messages: seq<SlackMessage>, hasMore: bool)

  /** The exceptions the modelled code lets escape: a `KeyError` on a missing
      key, a failed configuration lookup (`ValueError`), a pydantic
      `ValidationError` for a missing required model field. */
  datatype SlackError =
    | MissingKey(key: string)
    | ConfigLookup(error: ConfigError)
    | ValidationError(field: string)

  /** A required key: its value, or the `KeyError` for it. */
  function Require(v: Option<string>, key: string): (r: Result<string, SlackError>)
    ensures v.Some? <==> r.Ok?
    ensures r.Ok? ==> r.value == v.value
    ensures r.Err? ==> r.error == MissingKey(key)
  {
    match v
    case Some(x) => Ok(x)
    case None => Err(MissingKey(key))
  }

  /** The blocks a bot reply is made of. */
  datatype Block =
    | MarkdownBlock(text: string)
    /** A context block holding one `plain_text` element with emoji on. */
    | PlainContext(text: string)
    /** A context block holding one `mrkdwn` element. */
    | MrkdwnContext(text: string)

  /** The `metadata` attached to a posted reply. `replyMessage` is only set by
      the older asynchronous client. */
  datatype ReplyMetadata = ReplyMetadata(
    eventType: string,
    replyMessage: Option<string>,
    replyMessageId: string,
    replySessionId: string)

  /** The arguments of one `chat_postMessage` call that the bots vary: the
      channel, the thread, the plain-text fallback, the blocks and the
      metadata. */
  datatype Post = Post(channel: string, threadTs: Option<string>, text: string, blocks: seq<Block>, metadata: ReplyMetadata)
}
