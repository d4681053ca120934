/** The Slack Web API client of the current bot: the retry predicate, the
    Slack URL parsers, the two paginated reads, the session-id choice and the
    construction of posted replies. Each Web API call is a function argument:
    `api(size, k)` is the page that the k-th call of a read returns when it asks
    for `size` messages per page. */
module SlackBotClient {
  import opened Common
  import opened MessageConfig
  import opened SlackTypes
  import AgentParser

  // ---------------------------------------------------------------------
  // Retries

  /** The `giveup` predicate of the retried replies read: every Web API error
      except HTTP 429 (rate limited) ends the retries. */
  function IsNotRetryable(status: int): (r: bool)
    ensures !r <==> status == 429
  {
    status != 429
  }

  // ---------------------------------------------------------------------
  // Slack URLs

  const ArchivesMarker := "/archives/"

  /** `s` holds `lit` at position `i`. */
  predicate HasAt(s: string, i: nat, lit: string) {
    i + |lit| <= |s| && s[i..i + |lit|] == lit
  }

  /** The length of the run of characters other than '/' starting at `i`:
      what a greedy `[^/]*` consumes there. */
  function NonSlashRun(s: string, i: nat): (n: nat)
    requires i <= |s|
    ensures i + n <= |s|
    ensures forall k :: i <= k < i + n ==> s[k] != '/'
    ensures i + n == |s| || s[i + n] == '/'
    decreases |s| - i
  {
    if i < |s| && s[i] != '/' then 1 + NonSlashRun(s, i + 1) else 0
  }

  /** The run is determined by where the first '/' (or the end) is. */
  lemma {:induction false} NonSlashRunIs(s: string, i: nat, n: nat)
    requires i + n <= |s|
    requires forall k :: i <= k < i + n ==> s[k] != '/'
    requires i + n == |s| || s[i + n] == '/'
    ensures NonSlashRun(s, i) == n
    decreases n
  {
    if n > 0 {
      NonSlashRunIs(s, i + 1, n - 1);
    }
  }

  /** The match of `/archives/([^/]+)` that starts at position `i`, as its
      group: one or more characters other than '/', taken greedily, right
      after the marker. */
  function ChannelAt(s: string, i: nat): (r: Option<string>)
    ensures r.Some? <==> HasAt(s, i, ArchivesMarker) && i + |ArchivesMarker| < |s| && s[i + |ArchivesMarker|] != '/'
    ensures r.Some? ==>
              var c := i + |ArchivesMarker|;
              && c + |r.value| <= |s| && r.value == s[c..c + |r.value|]
              && '/' !in r.value
              && (c + |r.value| == |s| || s[c + |r.value|] == '/')
  {
    if HasAt(s, i, ArchivesMarker) then
      var c := i + |ArchivesMarker|;
      var n := NonSlashRun(s, c);
      if n > 0 then Some(s[c..c + n]) else None
    else None
  }

  /** `re.search`: the leftmost position from `i` on where the channel pattern
      matches, with its group. */
  function SearchChannel(s: string, i: nat): (r: Option<(nat, string)>)
    requires i <= |s|
    ensures r.Some? ==> i <= r.value.0 <= |s| && ChannelAt(s, r.value.0) == Some(r.value.1)
                        && forall j :: i <= j < r.value.0 ==> ChannelAt(s, j).None?
    ensures r.None? ==> forall j :: i <= j ==> ChannelAt(s, j).None?
    decreases |s| - i
  {
    match ChannelAt(s, i)
    case Some(c) => Some((i, c))
    case None => if i == |s| then None else SearchChannel(s, i + 1)
  }

  datatype UrlError = InvalidThreadUrl(url: string)

  /** `get_channel_url_info` on the URL's path: the group of the leftmost
      match of `/archives/([^/]+)`, or a `ValueError`. */
  function ChannelUrlInfo(path: string): (r: Result<string, UrlError>)
    ensures r.Ok? <==> exists i: nat :: ChannelAt(path, i).Some?
    ensures r.Ok? ==> exists i: nat :: ChannelAt(path, i) == Some(r.value) && forall j :: 0 <= j < i ==> ChannelAt(path, j).None?
    ensures r.Err? ==> r.error == InvalidThreadUrl(path)
  {
    match SearchChannel(path, 0)
    case Some((_, c)) => Ok(c)
    case None => Err(InvalidThreadUrl(path))
  }

  /** The channel pattern matches at the start of `/archives/<channel>...`. */
  lemma ChannelAtStart(channel: string, rest: string)
    requires channel != [] && '/' !in channel
    requires rest == [] || rest[0] == '/'
    ensures ChannelAt(ArchivesMarker + channel + rest, 0) == Some(channel)
  {
    var s := ArchivesMarker + channel + rest;
    var c := |ArchivesMarker|;
    assert s[..c] == ArchivesMarker;
    assert forall k :: c <= k < c + |channel| ==> s[k] == channel[k - c];
    if rest != [] {
      assert s[c + |channel|] == rest[0];
    }
    NonSlashRunIs(s, c, |channel|);
    assert s[c..c + |channel|] == channel;
  }

  /** A path `/archives/<channel>` gives back `<channel>`, whatever follows it
      after a '/'. */
  lemma ChannelUrlRoundTrip(channel: string, rest: string)
    requires channel != [] && '/' !in channel
    requires rest == [] || rest[0] == '/'
    ensures ChannelUrlInfo(ArchivesMarker + channel + rest) == Ok(channel)
  {
    ChannelAtStart(channel, rest);
  }

  /** The decimal value of a string of ASCII digits: Python's `int`. */
  function DecimalValue(d: string): nat
    requires forall k :: 0 <= k < |d| ==> IsDigit(d[k])
  {
    if d == [] then 0
    else
      var last := d[|d| - 1];
      assert IsDigit(last);
      10 * DecimalValue(d[..|d| - 1]) + (last as int - '0' as int)
  }

  /** The canonical decimal digits of `n`: `str(n)`. */
  function DecimalDigits(n: nat): (d: string)
    ensures |d| > 0 && forall k :: 0 <= k < |d| ==> IsDigit(d[k])
  {
    (if n < 10 then [] else DecimalDigits(n / 10)) + [('0' as int + n % 10) as char]
  }

  lemma {:induction false} DecimalRoundTrip(n: nat)
    ensures DecimalValue(DecimalDigits(n)) == n
  {
    var d := DecimalDigits(n);
    if n >= 10 {
      assert d[..|d| - 1] == DecimalDigits(n / 10);
      DecimalRoundTrip(n / 10);
    } else {
      assert d[..|d| - 1] == [];
    }
  }

  /** The match of `/archives/([^/]+)/p(\d+)` that starts at position `i`: the
      channel group and the integer value of the digit group. A greedy
      `[^/]+` can only be followed by '/', so the channel is the whole run of
      characters other than '/'; `\d+` takes every digit that follows. */
  function ThreadAt(s: string, i: nat): (r: Option<(string, nat)>)
    ensures r.Some? ==> ChannelAt(s, i) == Some(r.value.0)
    ensures r.Some? ==> HasAt(s, i + |ArchivesMarker| + |r.value.0|, "/p")
  {
    match ChannelAt(s, i)
    case None => None
    case Some(channel) =>
      var p := i + |ArchivesMarker| + |channel|;
      if !HasAt(s, p, "/p") then None
      else
        var d := DigitRun(s[p + 2..]);
        if d == [] then None else Some((channel, DecimalValue(d)))
  }

  function SearchThread(s: string, i: nat): (r: Option<(nat, (string, nat))>)
    requires i <= |s|
    ensures r.Some? ==> i <= r.value.0 <= |s| && ThreadAt(s, r.value.0) == Some(r.value.1)
                        && forall j :: i <= j < r.value.0 ==> ThreadAt(s, j).None?
    ensures r.None? ==> forall j :: i <= j ==> ThreadAt(s, j).None?
    decreases |s| - i
  {
    match ThreadAt(s, i)
    case Some(t) => Some((i, t))
    case None =>
      if i == |s| then ThreadAtPastEnd(s, i); None
      else
        var r := SearchThread(s, i + 1);
        if r.Some? then NoThreadBetween(s, i, r.value.0); r
        else NoThreadFrom(s, i); r
  }

  /** No match at `i` and none in `(i, k)` is none in `[i, k)`. */
  lemma NoThreadBetween(s: string, i: nat, k: nat)
    requires ThreadAt(s, i).None? && forall j :: i + 1 <= j < k ==> ThreadAt(s, j).None?
    ensures forall j :: i <= j < k ==> ThreadAt(s, j).None?
  {
  }

  /** No match at `i` and none past it is none from `i` on. */
  lemma NoThreadFrom(s: string, i: nat)
    requires ThreadAt(s, i).None? && forall j :: i + 1 <= j ==> ThreadAt(s, j).None?
    ensures forall j :: i <= j ==> ThreadAt(s, j).None?
  {
  }

  /** No match starts at or past the end. */
  lemma ThreadAtPastEnd(s: string, i: nat)
    requires |s| <= i
    ensures forall j :: i <= j ==> ThreadAt(s, j).None?
  {
    forall j | i <= j
      ensures ThreadAt(s, j).None?
    {
      assert !HasAt(s, j, ArchivesMarker);
    }
  }

  /** `get_thread_url_info` up to the final division: the channel and the
      integer before it is divided by 1000000, from the leftmost match of
      `/archives/([^/]+)/p(\d+)`, or a `ValueError`. */
  function ThreadUrlInfo(path: string): (r: Result<(string, nat), UrlError>)
    ensures r.Ok? <==> exists i: nat :: ThreadAt(path, i).Some?
    ensures r.Ok? ==> exists i: nat :: ThreadAt(path, i) == Some(r.value) && forall j :: 0 <= j < i ==> ThreadAt(path, j).None?
    ensures r.Err? ==> r.error == InvalidThreadUrl(path)
  {
    match SearchThread(path, 0)
    case Some((_, t)) => Ok(t)
    case None => Err(InvalidThreadUrl(path))
  }

  lemma {:induction false} DigitRunOfDigits(d: string, rest: string)
    requires forall k :: 0 <= k < |d| ==> IsDigit(d[k])
    requires rest == [] || !IsDigit(rest[0])
    ensures DigitRun(d + rest) == d
  {
    if d != [] {
      assert (d + rest)[1..] == d[1..] + rest;
      DigitRunOfDigits(d[1..], rest);
    } else {
      assert d + rest == rest;
    }
  }

  lemma ThreadAtFromParts(s: string, i: nat, channel: string, digits: string)
    requires ChannelAt(s, i) == Some(channel)
    requires HasAt(s, i + |ArchivesMarker| + |channel|, "/p")
    requires digits != [] && DigitRun(s[i + |ArchivesMarker| + |channel| + 2..]) == digits
    ensures ThreadAt(s, i) == Some((channel, DecimalValue(digits)))
  {
  }

  /** A path `/archives/<channel>/p<digits of n>` gives back the channel and
      `n`. */
  lemma ThreadUrlRoundTrip(channel: string, n: nat, rest: string)
    requires channel != [] && '/' !in channel
    requires rest == [] || !IsDigit(rest[0])
    ensures ThreadUrlInfo(ArchivesMarker + channel + "/p" + DecimalDigits(n) + rest) == Ok((channel, n))
  {
    var digits := DecimalDigits(n);
    var pre := ArchivesMarker + channel;
    var tail := "/p" + digits + rest;
    ChannelAtStart(channel, tail);
    ThreadTailFacts(pre, digits, rest);
    DigitRunOfDigits(digits, rest);
    ThreadAtFromParts(pre + tail, 0, channel, digits);
    DecimalRoundTrip(n);
  }

  lemma ThreadTailFacts(pre: string, digits: string, rest: string)
    ensures pre + ("/p" + digits + rest) == pre + "/p" + digits + rest
    ensures HasAt(pre + ("/p" + digits + rest), |pre|, "/p")
    ensures (pre + ("/p" + digits + rest))[|pre| + 2..] == digits + rest
  {
    var s := pre + ("/p" + digits + rest);
    assert s[|pre|..|pre| + 2] == "/p";
  }

  // ---------------------------------------------------------------------
  // Paginated reads

  /** The messages of the first `n` pages, in order. */
  function Messages(api: (int, nat) -> Page, size: int, n: nat): seq<SlackMessage> {
    if n == 0 then [] else Messages(api, size, n - 1) + api(size, n - 1).messages
  }

  /** `n` is the first page whose `has_more` is false. */
  ghost predicate IsLastPage(api: (int, nat) -> Page, size: int, n: nat) {
    !api(size, n).hasMore && forall k :: 0 <= k < n ==> api(size, k).hasMore
  }

  ghost function LastPage(api: (int, nat) -> Page, size: int): (n: nat)
    requires exists n :: IsLastPage(api, size, n)
    ensures IsLastPage(api, size, n)
  {
    var n :| IsLastPage(api, size, n); n
  }

  function Max(a: int, b: int): int {
    if a < b then b else a
  }

  /** `fetch_conversations_history`: the first page, then further pages while
      fewer than `limit` pages have been counted and the last one fetched has
      more; no limit means one page. */
  method FetchConversationsHistory(history: (int, nat) -> Page, limit: Option<int>, size: int) returns (pages: seq<Page>)
    ensures 1 <= |pages|
    ensures forall k :: 0 <= k < |pages| ==> pages[k] == history(size, k)
    ensures limit.None? ==> |pages| == 1
    ensures limit.Some? ==> |pages| <= Max(1, limit.value)
    ensures forall k :: 0 <= k < |pages| - 1 ==> pages[k].hasMore
    ensures limit.Some? && |pages| < limit.value ==> !pages[|pages| - 1].hasMore
  {
    pages := [history(size, 0)];
    var count := 1;
    while limit.Some? && count < limit.value
      invariant count == |pages| >= 1
      invariant limit.None? ==> |pages| == 1
      invariant forall k :: 0 <= k < |pages| ==> pages[k] == history(size, k)
      invariant forall k :: 0 <= k < |pages| - 1 ==> pages[k].hasMore
      invariant limit.Some? ==> |pages| <= Max(1, limit.value)
      decreases if limit.Some? then limit.value - count else 0
    {
      count := count + 1;
      if !pages[|pages| - 1].hasMore {
        break;
      }
      pages := pages + [history(size, |pages|)];
    }
  }

  /** The page size the current client asks the replies API for. */
  const RepliesPageSize := 200

  /** `fetch_conversations_replies`: every page up to the first without
      `has_more`, concatenated in order, then cut to `limit` as `[:limit]`
      does. */
  method FetchConversationsReplies(replies: (int, nat) -> Page, limit: Option<int>) returns (r: seq<SlackMessage>)
    requires exists n :: IsLastPage(replies, RepliesPageSize, n)
    ensures var all := Messages(replies, RepliesPageSize, LastPage(replies, RepliesPageSize) + 1);
            r == if limit.Some? then PySlicePrefix(all, limit.value) else all
  {
    ghost var last := LastPage(replies, RepliesPageSize);
    r := [];
    var k := 0;
    while true
      invariant k <= last
      invariant r == Messages(replies, RepliesPageSize, k)
      decreases last - k
    {
      var page := replies(RepliesPageSize, k);
      r := r + page.messages;
      if !page.hasMore {
        assert k == last;
        break;
      }
      k := k + 1;
    }
    if limit.Some? {
      r := PySlicePrefix(r, limit.value);
    }
  }

  // ---------------------------------------------------------------------
  // The session id

  /** The replies branch: the `client_msg_id` of the first reply that has one. */
  function FirstClientMsgId(replies: seq<SlackMessage>): (r: Option<string>)
    ensures r.Some? <==> exists i :: 0 <= i < |replies| && replies[i].clientMsgId.Some?
    ensures r.Some? ==> exists i :: 0 <= i < |replies| && replies[i].clientMsgId == r
                                    && forall j :: 0 <= j < i ==> replies[j].clientMsgId.None?
  {
    if replies == [] then None
    else if replies[0].clientMsgId.Some? then replies[0].clientMsgId
    else
      var r := FirstClientMsgId(replies[1..]);
      assert forall i :: 1 <= i < |replies| ==> replies[i] == replies[1..][i - 1];
      r
  }

  /** The history branch's loop from message `i` on with `cur` found so far:
      messages with a subtype or blank text are skipped (a missing text is a
      `KeyError`), those without the metadata path are passed over, the first
      id found is kept and a differing one ends the scan. */
  function HistoryScanFrom(msgs: seq<SlackMessage>, i: nat, cur: string): Result<string, SlackError>
    decreases |msgs| - i
  {
    if i >= |msgs| then Ok(cur)
    else
      var m := msgs[i];
      if m.subtype.Some? then HistoryScanFrom(msgs, i + 1, cur)
      else match m.text
        case None => Err(MissingKey("text"))
        case Some(t) =>
          if Strip(t) == "" then HistoryScanFrom(msgs, i + 1, cur)
          else match m.replySessionId
            case None => HistoryScanFrom(msgs, i + 1, cur)
            case Some(id) =>
              if cur == "" then HistoryScanFrom(msgs, i + 1, id)
              else if cur != id then Ok(cur)
              else HistoryScanFrom(msgs, i + 1, cur)
  }

  /** A message the history branch reads an id from. */
  predicate Eligible(m: SlackMessage) {
    m.subtype.None? && m.text.Some? && Strip(m.text.value) != "" && m.replySessionId.Some?
  }

  /** The reference reading of the history branch: the first non-empty
      `reply_session_id` of an eligible message, or "". */
  function FirstSessionId(msgs: seq<SlackMessage>): (r: string)
    ensures r != "" ==> exists i :: 0 <= i < |msgs| && Eligible(msgs[i]) && msgs[i].replySessionId.value == r
  {
    if msgs == [] then ""
    else if Eligible(msgs[0]) && msgs[0].replySessionId.value != "" then msgs[0].replySessionId.value
    else
      var r := FirstSessionId(msgs[1..]);
      assert forall i :: 1 <= i < |msgs| ==> msgs[i] == msgs[1..][i - 1];
      r
  }

  /** Once an id is found, the scan returns it: a differing later id only
      stops the scan. Before that it returns the first id found. */
  lemma {:induction false} HistoryScanFindsFirst(msgs: seq<SlackMessage>, i: nat, cur: string)
    requires i <= |msgs|
    ensures HistoryScanFrom(msgs, i, cur).Ok? ==>
              HistoryScanFrom(msgs, i, cur).value == (if cur != "" then cur else FirstSessionId(msgs[i..]))
    decreases |msgs| - i
  {
    if i < |msgs| {
      var m := msgs[i];
      assert msgs[i..][0] == m && msgs[i..][1..] == msgs[i + 1..];
      HistoryScanFindsFirst(msgs, i + 1, cur);
      if m.subtype.None? && m.text.Some? && Strip(m.text.value) != "" && m.replySessionId.Some? && cur == "" {
        HistoryScanFindsFirst(msgs, i + 1, m.replySessionId.value);
      }
    } else {
      assert msgs[i..] == [];
    }
  }

  /** The history branch only fails on a message with no subtype and no text. */
  lemma {:induction false} HistoryScanOkWithTexts(msgs: seq<SlackMessage>, i: nat, cur: string)
    requires forall k :: 0 <= k < |msgs| ==> msgs[k].subtype.Some? || msgs[k].text.Some?
    ensures HistoryScanFrom(msgs, i, cur).Ok?
    decreases |msgs| - i
  {
    if i < |msgs| {
      HistoryScanOkWithTexts(msgs, i + 1, cur);
      if msgs[i].replySessionId.Some? {
        HistoryScanOkWithTexts(msgs, i + 1, msgs[i].replySessionId.value);
      }
    }
  }

  /** `find_session_id` over what it fetched: `replies` are the thread's
      replies, `recent` the messages of the one history page it reads. The
      replies branch is taken only when asked for and the event has a
      `thread_ts`; when neither branch finds an id the event's own
      `client_msg_id` is used, a `KeyError` if it has none. */
  function SessionIdSpec(event: SlackEvent, inReplies: bool, replies: seq<SlackMessage>, recent: seq<SlackMessage>): (r: Result<string, SlackError>)
    ensures inReplies && event.data.threadTs.Some? && FirstClientMsgId(replies).Some? && FirstClientMsgId(replies).value != ""
            ==> r == Ok(FirstClientMsgId(replies).value)
    ensures !(inReplies && event.data.threadTs.Some?) && HistoryScanFrom(recent, 0, "").Err?
            ==> r == HistoryScanFrom(recent, 0, "")
    ensures !(inReplies && event.data.threadTs.Some?) && HistoryScanFrom(recent, 0, "").Ok? && FirstSessionId(recent) != ""
            ==> r == Ok(FirstSessionId(recent))
    ensures r.Ok? ==> r.value != "" || event.data.clientMsgId == Some("")
  {
    var found :=
      if inReplies && event.data.threadTs.Some? then
        Ok(match FirstClientMsgId(replies) case Some(id) => id case None => "")
      else
        HistoryScanFrom(recent, 0, "");
    HistoryScanFindsFirst(recent, 0, "");
    assert recent[0..] == recent;
    match found
    case Err(e) => Err(e)
    case Ok(id) => if id == "" then Require(event.data.clientMsgId, "client_msg_id") else Ok(id)
  }

  /** When no branch finds an id, the event's own `client_msg_id` is the
      session id. */
  lemma SessionIdFallsBack(event: SlackEvent, inReplies: bool, replies: seq<SlackMessage>, recent: seq<SlackMessage>)
    requires inReplies && event.data.threadTs.Some? ==> FirstClientMsgId(replies).None?
    requires !(inReplies && event.data.threadTs.Some?) ==> HistoryScanFrom(recent, 0, "") == Ok("")
    ensures SessionIdSpec(event, inReplies, replies, recent) == Require(event.data.clientMsgId, "client_msg_id")
  {
  }

  /** The replies branch's loop. */
  method FirstClientMsgIdLoop(replies: seq<SlackMessage>) returns (id: string)
    ensures id == match FirstClientMsgId(replies) case Some(x) => x case None => ""
  {
    id := "";
    var i := 0;
    while i < |replies|
      invariant i <= |replies|
      invariant FirstClientMsgId(replies) == FirstClientMsgId(replies[i..])
    {
      assert replies[i..][1..] == replies[i + 1..];
      if replies[i].clientMsgId.Some? {
        id := replies[i].clientMsgId.value;
        return;
      }
      i := i + 1;
    }
    assert replies[i..] == [];
  }

  /** The history branch's loop. */
  method HistoryScanLoop(recent: seq<SlackMessage>) returns (r: Result<string, SlackError>)
    ensures r == HistoryScanFrom(recent, 0, "")
  {
    var sid := "";
    var i := 0;
    while i < |recent|
      invariant i <= |recent|
      invariant HistoryScanFrom(recent, 0, "") == HistoryScanFrom(recent, i, sid)
    {
      var m := recent[i];
      if m.subtype.Some? {
        i := i + 1;
        continue;
      }
      if m.text.None? {
        return Err(MissingKey("text"));
      }
      if Strip(m.text.value) == "" {
        i := i + 1;
        continue;
      }
      if m.replySessionId.Some? {
        var current := m.replySessionId.value;
        if sid == "" {
          sid := current;
        } else if sid != current {
          break;
        }
      }
      i := i + 1;
    }
    return Ok(sid);
  }

  /** `find_session_id`: reads the replies or the first history page, then
      chooses. `replies` and `history` are the two Web API reads for the
      event's channel and thread. */
  method FindSessionId(event: SlackEvent, inReplies: bool, replies: (int, nat) -> Page, history: (int, nat) -> Page)
      returns (r: Result<string, SlackError>)
    requires inReplies && event.data.threadTs.Some? ==> exists n :: IsLastPage(replies, RepliesPageSize, n)
    ensures inReplies && event.data.threadTs.Some? ==>
              r == SessionIdSpec(event, inReplies, Messages(replies, RepliesPageSize, LastPage(replies, RepliesPageSize) + 1), [])
    ensures !(inReplies && event.data.threadTs.Some?) ==>
              r == SessionIdSpec(event, inReplies, [], history(SessionHistorySize, 0).messages)
  {
    var found: Result<string, SlackError>;
    if inReplies && event.data.threadTs.Some? {
      var fetched := FetchConversationsReplies(replies, None);
      var id := FirstClientMsgIdLoop(fetched);
      found := Ok(id);
    } else {
      var pages := FetchConversationsHistory(history, Some(1), SessionHistorySize);
      found := HistoryScanLoop(pages[0].messages);
    }
    match found
    case Err(e) => r := Err(e);
    case Ok(id) =>
      if id == "" {
        r := Require(event.data.clientMsgId, "client_msg_id");
      } else {
        r := Ok(id);
      }
  }

  /** The page size of the history read behind the session id. */
  const SessionHistorySize := 30

  // ---------------------------------------------------------------------
  // Replies

  const MaxMarkdown := 10000
  const TooLongWarningKey := "ai_reply_too_long_warning_message"
  const DisclaimerKey := "content_disclaimer_message"

  /** Python truthiness of an optional string. */
  predicate Truthy(o: Option<string>) {
    o.Some? && o.value != ""
  }

  /** `event.message_id or event.data["client_msg_id"]`. */
  function ReplyMessageId(event: SlackEvent): (r: Result<string, SlackError>)
    ensures Truthy(event.messageId) ==> r == Ok(event.messageId.value)
    ensures !Truthy(event.messageId) ==> r == Require(event.data.clientMsgId, "client_msg_id")
  {
    if Truthy(event.messageId) then Ok(event.messageId.value) else Require(event.data.clientMsgId, "client_msg_id")
  }

  /** `event.session_id or event.message_id or event.data["client_msg_id"]`. */
  function ReplySessionId(event: SlackEvent): (r: Result<string, SlackError>)
    ensures Truthy(OrElse(event.sessionId, event.messageId)) ==> r == Ok(OrElse(event.sessionId, event.messageId).value)
    ensures !Truthy(OrElse(event.sessionId, event.messageId)) ==> r == Require(event.data.clientMsgId, "client_msg_id")
    ensures ReplyMessageId(event).Ok? ==> r.Ok?
  {
    if Truthy(event.sessionId) then Ok(event.sessionId.value) else ReplyMessageId(event)
  }

  /** What makes posting fail once the blocks are built: the `ts` of a
      threaded reply, then the message id, each a `KeyError` when missing. */
  function PostFailure(event: SlackEvent, inReplies: bool): Option<SlackError> {
    if inReplies && event.data.ts.None? then Some(MissingKey("ts"))
    else if ReplyMessageId(event).Err? then Some(ReplyMessageId(event).error)
    else None
  }

  /** The metadata of a reply; `replyMessage` is `None` except for the older
      asynchronous client. */
  function Metadata(event: SlackEvent, replyMessage: Option<string>): ReplyMetadata
    requires ReplyMessageId(event).Ok?
  {
    ReplyMetadata("reply_" + EventTypeValue(event.eventType), replyMessage,
                  ReplyMessageId(event).value, ReplySessionId(event).value)
  }

  /** The `thread_ts` of a reply: the event's `ts` when it goes in the thread. */
  function ThreadOf(event: SlackEvent, inReplies: bool): Option<string> {
    if inReplies then event.data.ts else None
  }

  /** `"\n".join(f"<{link}|{title}>" ...)` over a reference's artifacts. */
  function ArtifactLinks(arts: seq<AgentParser.ReferenceArtifact>): string {
    Join("\n", seq(|arts|, k requires 0 <= k < |arts| => "<" + arts[k].link + "|" + arts[k].title + ">"))
  }

  /** The text of a reference's context block. */
  function ReferenceText(ref: AgentParser.Reference): string {
    ref.iconEmoji + " *" + ref.title + "*\n`#" + ref.source + "`\n" + ArtifactLinks(ref.artifacts)
  }

  /** What makes `reply_markdown` fail, in evaluation order. */
  function ReplyMarkdownFailure(cfg: MessageTables, event: SlackEvent, markdown: string, inReplies: bool): Option<SlackError> {
    if |markdown| > MaxMarkdown && GetMessage(cfg, TooLongWarningKey).Err? then Some(ConfigLookup(GetMessage(cfg, TooLongWarningKey).error))
    else if GetMessage(cfg, DisclaimerKey).Err? then Some(ConfigLookup(GetMessage(cfg, DisclaimerKey).error))
    else PostFailure(event, inReplies)
  }

  /** `reply_markdown`: the posted blocks are the markdown cut to 10000
      characters, a warning exactly when it was longer, one context block per
      reference in order, and the disclaimer last; the metadata carries the
      first truthy of the session id, the message id and the event's
      `client_msg_id`. `clean` stands for the markdown clean-up of the
      plain-text fallback. */
  method ReplyMarkdown(cfg: MessageTables, event: SlackEvent, markdown: string, references: seq<AgentParser.Reference>,
                       inReplies: bool, clean: string -> string)
      returns (r: Result<Post, SlackError>)
    ensures r.Err? <==> ReplyMarkdownFailure(cfg, event, markdown, inReplies).Some?
    ensures r.Err? ==> r.error == ReplyMarkdownFailure(cfg, event, markdown, inReplies).value
    ensures r.Ok? ==>
              var b := r.value.blocks;
              var w := if |markdown| > MaxMarkdown then 1 else 0;
              && |b| == w + |references| + 2
              && b[0] == MarkdownBlock(PySlicePrefix(markdown, MaxMarkdown))
              && |b[0].text| <= MaxMarkdown
              && (w == 1 ==> b[1] == PlainContext(GetMessage(cfg, TooLongWarningKey).value))
              && (forall k :: 0 <= k < |references| ==> b[1 + w + k] == MrkdwnContext(ReferenceText(references[k])))
              && b[|b| - 1] == MrkdwnContext(GetMessage(cfg, DisclaimerKey).value)
    ensures r.Ok? ==>
              && r.value.channel == event.channel && r.value.text == clean(markdown)
              && r.value.threadTs == ThreadOf(event, inReplies)
              && ReplyMessageId(event).Ok? && r.value.metadata == Metadata(event, None)
  {
    var blocks := [MarkdownBlock(markdown)];
    if |markdown| > MaxMarkdown {
      blocks := [MarkdownBlock(markdown[..MaxMarkdown])];
      var warning := GetMessage(cfg, TooLongWarningKey);
      if warning.Err? {
        return Err(ConfigLookup(warning.error));
      }
      blocks := blocks + [PlainContext(warning.value)];
    }
    var refs := ReferenceBlocks(references);
    var disclaimer := GetMessage(cfg, DisclaimerKey);
    if disclaimer.Err? {
      return Err(ConfigLookup(disclaimer.error));
    }
    blocks := blocks + refs + [MrkdwnContext(disclaimer.value)];
    r := Posted(event, inReplies, clean(markdown), blocks, None);
  }

  /** One mrkdwn context block per reference, in order. */
  method ReferenceBlocks(references: seq<AgentParser.Reference>) returns (blocks: seq<Block>)
    ensures |blocks| == |references|
    ensures forall k :: 0 <= k < |references| ==> blocks[k] == MrkdwnContext(ReferenceText(references[k]))
  {
    blocks := [];
    for k := 0 to |references|
      invariant |blocks| == k
      invariant forall j :: 0 <= j < k ==> blocks[j] == MrkdwnContext(ReferenceText(references[j]))
    {
      blocks := blocks + [MrkdwnContext(ReferenceText(references[k]))];
    }
  }

  /** `chat_postMessage` with the given text and blocks. */
  method Posted(event: SlackEvent, inReplies: bool, text: string, blocks: seq<Block>, replyMessage: Option<string>)
      returns (r: Result<Post, SlackError>)
    ensures r.Err? <==> PostFailure(event, inReplies).Some?
    ensures r.Err? ==> r.error == PostFailure(event, inReplies).value
    ensures r.Ok? ==> ReplyMessageId(event).Ok?
                      && r.value == Post(event.channel, ThreadOf(event, inReplies), text, blocks, Metadata(event, replyMessage))
  {
    if inReplies && event.data.ts.None? {
      return Err(MissingKey("ts"));
    }
    var messageId := ReplyMessageId(event);
    if messageId.Err? {
      return Err(messageId.error);
    }
    r := Ok(Post(event.channel, ThreadOf(event, inReplies), text, blocks, Metadata(event, replyMessage)));
  }

  /** `reply_blocks`: the given text and blocks, with the same thread and
      metadata rules as `reply_markdown`. */
  method ReplyBlocks(event: SlackEvent, text: string, blocks: seq<Block>, inReplies: bool) returns (r: Result<Post, SlackError>)
    ensures r.Err? <==> PostFailure(event, inReplies).Some?
    ensures r.Err? ==> r.error == PostFailure(event, inReplies).value
    ensures r.Ok? ==> ReplyMessageId(event).Ok?
                      && r.value == Post(event.channel, ThreadOf(event, inReplies), text, blocks, Metadata(event, None))
                      && r.value.metadata.replySessionId == ReplySessionId(event).value
  {
    r := Posted(event, inReplies, text, blocks, None);
  }
}
