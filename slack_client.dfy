/** The older Slack client: the replies read caps its page size and stops as
    soon as it holds `limit` messages without cutting the result back, the
    session-id lookup reads 30 replies or one page of 30 messages, and
    `reply_markdown` never truncates and titles each reference by its name.
    Its retry predicate, thread-URL parser, history read and `reply_blocks`
    are those of the current client (`SlackBotClient`). */
module SlackClient {
  import opened Common
  import opened MessageConfig
  import opened SlackTypes
  import opened SlackBotClient
  import AgentParser

  /** `SlackMessageReference`: a named group of artifacts. */
  datatype LegacyReference = LegacyReference(name: string, iconEmoji: string, artifacts: seq<AgentParser.ReferenceArtifact>)

  /** The default `limit` of the replies read. */
  const DefaultRepliesLimit := 150

  /** The largest page size the replies read asks for. */
  const MaxRepliesPageSize := 1000

  /** `page_limit`: the limit, capped at 1000. */
  function RepliesPageSize(limit: int): (size: int)
    ensures size <= MaxRepliesPageSize
    ensures size == limit || (limit > MaxRepliesPageSize && size == MaxRepliesPageSize)
  {
    if limit > MaxRepliesPageSize then MaxRepliesPageSize else limit
  }

  /** The messages of every page up to page `j` included. */
  function Through(api: (int, nat) -> Page, size: int, j: nat): seq<SlackMessage> {
    Messages(api, size, j + 1)
  }

  /** The read stops after page `n`: it then holds `limit` messages, or the
      page has nothing after it. */
  predicate StopsAt(api: (int, nat) -> Page, size: int, limit: int, n: nat) {
    |Through(api, size, n)| >= limit || !api(size, n).hasMore
  }

  /** `n` is the first page after which the read stops. */
  ghost predicate IsStopPage(api: (int, nat) -> Page, size: int, limit: int, n: nat) {
    StopsAt(api, size, limit, n) && forall k :: 0 <= k < n ==> !StopsAt(api, size, limit, k)
  }

  /** Some page at or before a stopping page is the first one. */
  lemma {:induction false} FirstStopExists(api: (int, nat) -> Page, size: int, limit: int, n: nat)
    requires StopsAt(api, size, limit, n)
    ensures exists m: nat :: m <= n && IsStopPage(api, size, limit, m)
    decreases n
  {
    if forall k :: 0 <= k < n ==> !StopsAt(api, size, limit, k) {
      assert IsStopPage(api, size, limit, n);
    } else {
      var k :| 0 <= k < n && StopsAt(api, size, limit, k);
      FirstStopExists(api, size, limit, k);
    }
  }

  /** The page the read ends on. */
  ghost function StopPage(api: (int, nat) -> Page, size: int, limit: int): (n: nat)
    requires exists n :: StopsAt(api, size, limit, n)
    ensures IsStopPage(api, size, limit, n)
  {
    var n :| StopsAt(api, size, limit, n);
    FirstStopExists(api, size, limit, n);
    var m :| IsStopPage(api, size, limit, m);
    m
  }

  /** The messages the replies read returns when it has reached page `k`:
      it reads page after page and stops after the first page that brings the
      count to `limit` or that has no more after it. */
  function RepliesFrom(api: (int, nat) -> Page, size: int, limit: int, k: nat): seq<SlackMessage>
    requires exists n :: StopsAt(api, size, limit, n)
    requires k <= StopPage(api, size, limit)
    decreases StopPage(api, size, limit) - k
  {
    if |Through(api, size, k)| >= limit || !api(size, k).hasMore then Through(api, size, k)
    else RepliesFrom(api, size, limit, k + 1)
  }

  /** The read stops at page `j`: every page up to `j`, no more, and `j` is
      the first page at which `limit` messages are held or that has no more
      after it. The result can hold more than `limit` messages. */
  lemma {:induction false} RepliesStopAtLimit(api: (int, nat) -> Page, size: int, limit: int, k: nat)
    requires exists n :: StopsAt(api, size, limit, n)
    requires k <= StopPage(api, size, limit)
    ensures exists j: nat :: k <= j
              && RepliesFrom(api, size, limit, k) == Through(api, size, j)
              && (!api(size, j).hasMore || |Through(api, size, j)| >= limit)
              && forall i :: k <= i < j ==> |Through(api, size, i)| < limit && api(size, i).hasMore
    decreases StopPage(api, size, limit) - k
  {
    if |Through(api, size, k)| >= limit || !api(size, k).hasMore {
    } else {
      RepliesStopAtLimit(api, size, limit, k + 1);
      var j: nat :| k + 1 <= j
              && RepliesFrom(api, size, limit, k + 1) == Through(api, size, j)
              && (!api(size, j).hasMore || |Through(api, size, j)| >= limit)
              && forall i :: k + 1 <= i < j ==> |Through(api, size, i)| < limit && api(size, i).hasMore;
      assert RepliesFrom(api, size, limit, k) == Through(api, size, j);
    }
  }

  /** The messages of the first `a` pages begin the messages of the first `b`. */
  lemma {:induction false} MessagesPrefix(api: (int, nat) -> Page, size: int, a: nat, b: nat)
    requires a <= b
    ensures Messages(api, size, a) <= Messages(api, size, b)
    decreases b
  {
    if a < b {
      MessagesPrefix(api, size, a, b - 1);
    }
  }

  /** On a thread whose pages end, the older read is a prefix of every reply
      the current client reads, and it holds all of them or at least
      `limit`: it never cuts below what `[:limit]` keeps. */
  lemma RepliesWithinAll(api: (int, nat) -> Page, size: int, limit: int)
    requires exists n :: IsLastPage(api, size, n)
    ensures exists n :: StopsAt(api, size, limit, n)
    ensures var r := RepliesFrom(api, size, limit, 0);
            var all := Messages(api, size, LastPage(api, size) + 1);
            r <= all && (r == all || |r| >= limit)
  {
    var last := LastPage(api, size);
    assert StopsAt(api, size, limit, last);
    RepliesStopAtLimit(api, size, limit, 0);
    var j: nat :| RepliesFrom(api, size, limit, 0) == Through(api, size, j)
              && (!api(size, j).hasMore || |Through(api, size, j)| >= limit)
              && forall i :: 0 <= i < j ==> |Through(api, size, i)| < limit && api(size, i).hasMore;
    if j > last {
      assert false;
    }
    MessagesPrefix(api, size, j + 1, last + 1);
    if |Through(api, size, j)| < limit {
      assert j == last;
    }
  }

  /** `fetch_conversations_replies` of the older client. */
  method FetchConversationsReplies(replies: (int, nat) -> Page, limit: int) returns (r: seq<SlackMessage>)
    requires exists n :: StopsAt(replies, RepliesPageSize(limit), limit, n)
    ensures r == RepliesFrom(replies, RepliesPageSize(limit), limit, 0)
  {
    var size := RepliesPageSize(limit);
    ghost var last := StopPage(replies, size, limit);
    r := [];
    var k := 0;
    while true
      invariant k <= last
      invariant r == Messages(replies, size, k)
      invariant RepliesFrom(replies, size, limit, 0) == RepliesFrom(replies, size, limit, k)
      decreases last - k
    {
      var response := replies(size, k);
      r := r + response.messages;
      if |r| >= limit {
        break;
      }
      if !response.hasMore {
        break;
      }
      k := k + 1;
    }
  }

  /** The `limit` of the replies read behind the session id. */
  const SessionRepliesLimit := 30

  /** `find_session_id` of the older client: the same choice over 30 replies
      or one history page of 30 messages. */
  method FindSessionId(event: SlackEvent, inReplies: bool, replies: (int, nat) -> Page, history: (int, nat) -> Page)
      returns (r: Result<string, SlackError>)
    requires inReplies && event.data.threadTs.Some? ==>
               exists n :: StopsAt(replies, RepliesPageSize(SessionRepliesLimit), SessionRepliesLimit, n)
    ensures inReplies && event.data.threadTs.Some? ==>
              r == SessionIdSpec(event, inReplies, RepliesFrom(replies, RepliesPageSize(SessionRepliesLimit), SessionRepliesLimit, 0), [])
    ensures !(inReplies && event.data.threadTs.Some?) ==>
              r == SessionIdSpec(event, inReplies, [], history(SessionHistorySize, 0).messages)
  {
    var found: Result<string, SlackError>;
    if inReplies && event.data.threadTs.Some? {
      var fetched := FetchConversationsReplies(replies, SessionRepliesLimit);
      var id := "";
      if |fetched| > 0 {
        id := FirstClientMsgIdLoop(fetched);
      }
      found := Ok(id);
    } else {
      var pages := FetchConversationsHistory(history, Some(1), SessionHistorySize);
      found := HistoryScanLoop(pages[0].messages);
    }
    match found
    case Err(e) => r := Err(e);
    case Ok(id) =>
      if id == "" {
        r := Require(event.data.clientMsgId, "client_msg_id");
      } else {
        r := Ok(id);
      }
  }

  /** The text of a reference's context block in the older client. */
  function LegacyReferenceText(ref: LegacyReference): string {
    ref.iconEmoji + " *" + ref.name + "*\n" + ArtifactLinks(ref.artifacts)
  }

  /** What makes the older `reply_markdown` fail, in evaluation order. */
  function LegacyReplyFailure(cfg: MessageTables, event: SlackEvent, inReplies: bool): Option<SlackError> {
    if GetMessage(cfg, DisclaimerKey).Err? then Some(ConfigLookup(GetMessage(cfg, DisclaimerKey).error))
    else PostFailure(event, inReplies)
  }

  /** `event.data.get("text", "")`. */
  function TextOrEmpty(event: SlackEvent): string {
    match event.data.text case Some(t) => t case None => ""
  }

  /** `reply_markdown` of the older client, synchronous or asynchronous: the
      whole markdown, one context block per reference in order, then the
      disclaimer; only the asynchronous one records the event's text in the
      metadata. */
  method ReplyMarkdown(cfg: MessageTables, event: SlackEvent, markdown: string, references: seq<LegacyReference>,
                       inReplies: bool, clean: string -> string, isAsync: bool)
      returns (r: Result<Post, SlackError>)
    ensures r.Err? <==> LegacyReplyFailure(cfg, event, inReplies).Some?
    ensures r.Err? ==> r.error == LegacyReplyFailure(cfg, event, inReplies).value
    ensures r.Ok? ==>
              var b := r.value.blocks;
              && |b| == |references| + 2
              && b[0] == MarkdownBlock(markdown)
              && (forall k :: 0 <= k < |references| ==> b[1 + k] == MrkdwnContext(LegacyReferenceText(references[k])))
              && b[|b| - 1] == MrkdwnContext(GetMessage(cfg, DisclaimerKey).value)
    ensures r.Ok? ==>
              && r.value.channel == event.channel && r.value.text == clean(markdown)
              && r.value.threadTs == ThreadOf(event, inReplies)
              && ReplyMessageId(event).Ok?
              && r.value.metadata == Metadata(event, if isAsync then Some(TextOrEmpty(event)) else None)
  {
    var blocks := [MarkdownBlock(markdown)];
    var k := 0;
    while k < |references|
      invariant k <= |references|
      invariant |blocks| == 1 + k && blocks[0] == MarkdownBlock(markdown)
      invariant forall j :: 0 <= j < k ==> blocks[1 + j] == MrkdwnContext(LegacyReferenceText(references[j]))
    {
      blocks := blocks + [MrkdwnContext(LegacyReferenceText(references[k]))];
      k := k + 1;
    }
    var disclaimer := GetMessage(cfg, DisclaimerKey);
    if disclaimer.Err? {
      return Err(ConfigLookup(disclaimer.error));
    }
    blocks := blocks + [MrkdwnContext(disclaimer.value)];
    var replyMessage := if isAsync then Some(TextOrEmpty(event)) else None;
    r := Posted(event, inReplies, clean(markdown), blocks, replyMessage);
  }
}
