/** The Slack-conversation tool of the agent: the title filter shared with the
    tool helpers, and the text it builds from the replies of a thread. The
    tool passes two arguments to the client's one-argument static
    `get_thread_url_info`, which raises `TypeError` before any reply is read;
    the tool here starts from the replies as if that call had succeeded, and
    the title model is a parameter. */
module SlackConversation {
  import opened Common
  import opened SlackTypes

  // ---------------------------------------------------------------------
  // Titles

  /** The characters a title may not hold. */
  const Forbidden := "|&/<>\"'\\\n"

  /** `clean_title`: the title without its forbidden characters. */
  function CleanTitle(title: string): (r: string)
    ensures forall c :: c in r ==> c !in Forbidden
    ensures forall c :: c !in Forbidden ==> multiset(r)[c] == multiset(title)[c]
    ensures |r| <= |title|
  {
    if title == [] then []
    else
      assert title == [title[0]] + title[1..];
      (if title[0] in Forbidden then [] else [title[0]]) + CleanTitle(title[1..])
  }

  /** `a` is `b` with some characters left out, the rest in order. */
  predicate IsSubsequence(a: string, b: string)
    decreases |b|
  {
    a == [] || (b != [] && if a[0] == b[0] then IsSubsequence(a[1..], b[1..]) else IsSubsequence(a, b[1..]))
  }

  /** The cleaned title keeps the remaining characters in their order. */
  lemma {:induction false} CleanTitleSubsequence(title: string)
    ensures IsSubsequence(CleanTitle(title), title)
  {
    if title != [] {
      CleanTitleSubsequence(title[1..]);
      var r := CleanTitle(title);
      if title[0] !in Forbidden {
        assert r[0] == title[0] && r[1..] == CleanTitle(title[1..]);
      } else {
        assert r == CleanTitle(title[1..]);
        if r != [] {
          assert r[0] in r;
        }
      }
    }
  }

  /** A title with no forbidden character comes back unchanged. */
  lemma {:induction false} CleanTitleKeepsClean(title: string)
    requires forall c :: c in title ==> c !in Forbidden
    ensures CleanTitle(title) == title
  {
    if title != [] {
      assert title[0] in title;
      assert forall c :: c in title[1..] ==> c in title;
      CleanTitleKeepsClean(title[1..]);
    }
  }

  /** Cleaning twice is cleaning once. */
  lemma CleanTitleIdempotent(title: string)
    ensures CleanTitle(CleanTitle(title)) == CleanTitle(title)
  {
    CleanTitleKeepsClean(CleanTitle(title));
  }

  // ---------------------------------------------------------------------
  // Reply text

  /** The attachment fields that are shown, in the order they are shown. */
  const AttachmentKeys := ["service_name", "title", "title_link", "text"]

  /** What starts each attachment line of a bot's post. */
  const BotQuote := "> "

  const AttachmentsHeading := "\n\nAttachments:\n"

  const ReplySeparator := "\n\n---\n\n"

  /** One attachment line. */
  function AttachmentLine(prefix: string, key: string, value: string): string {
    prefix + key + ": " + value + "\n"
  }

  /** The lines of the keys the attachment has, in the order of `keys`. */
  function AttachmentLines(prefix: string, att: map<string, string>, keys: seq<string>): string
    decreases |keys|
  {
    if keys == [] then ""
    else (if keys[0] in att then AttachmentLine(prefix, keys[0], att[keys[0]]) else "")
         + AttachmentLines(prefix, att, keys[1..])
  }

  /** The lines of a key list split in two are the lines of the first part
      followed by those of the second. */
  lemma {:induction false} AttachmentLinesInKeyOrder(prefix: string, att: map<string, string>, a: seq<string>, b: seq<string>)
    ensures AttachmentLines(prefix, att, a + b) == AttachmentLines(prefix, att, a) + AttachmentLines(prefix, att, b)
    decreases |a|
  {
    if a == [] {
      assert a + b == b;
    } else {
      assert (a + b)[1..] == a[1..] + b;
      AttachmentLinesInKeyOrder(prefix, att, a[1..], b);
    }
  }

  /** Only the listed keys matter: two attachments that agree on them give the
      same lines. */
  lemma {:induction false} AttachmentLinesOnlyKeys(prefix: string, att1: map<string, string>, att2: map<string, string>, keys: seq<string>)
    requires forall k :: k in keys ==> (k in att1 <==> k in att2) && (k in att1 ==> att1[k] == att2[k])
    ensures AttachmentLines(prefix, att1, keys) == AttachmentLines(prefix, att2, keys)
    decreases |keys|
  {
    if keys != [] {
      assert keys[0] in keys;
      assert forall k :: k in keys[1..] ==> k in keys;
      AttachmentLinesOnlyKeys(prefix, att1, att2, keys[1..]);
    }
  }

  /** The lines are empty iff the attachment has none of the keys, and
      otherwise start with the prefix. */
  lemma {:induction false} AttachmentLinesQuoted(prefix: string, att: map<string, string>, keys: seq<string>)
    ensures AttachmentLines(prefix, att, keys) == "" <==> forall k :: k in keys ==> k !in att
    ensures AttachmentLines(prefix, att, keys) != "" ==> prefix <= AttachmentLines(prefix, att, keys)
    decreases |keys|
  {
    if keys != [] {
      AttachmentLinesQuoted(prefix, att, keys[1..]);
      assert forall k :: k in keys <==> k == keys[0] || k in keys[1..];
      var rest := AttachmentLines(prefix, att, keys[1..]);
      if keys[0] in att {
        var line := AttachmentLine(prefix, keys[0], att[keys[0]]);
        assert AttachmentLines(prefix, att, keys) == line + rest;
        assert |line| > 0;
        assert (line + rest)[..|prefix|] == prefix;
      } else {
        assert AttachmentLines(prefix, att, keys) == rest;
      }
    }
  }

  /** The stripped text of each attachment, in order. */
  function AttachmentTexts(prefix: string, atts: seq<map<string, string>>): (r: seq<string>)
    ensures |r| == |atts|
  {
    seq(|atts|, k requires 0 <= k < |atts| => Strip(AttachmentLines(prefix, atts[k], AttachmentKeys)))
  }

  /** The attachment section of a reply: present iff the reply has an
      attachment. */
  function AttachmentsSection(prefix: string, atts: seq<map<string, string>>): (r: string)
    ensures r == "" <==> atts == []
    ensures atts != [] ==> AttachmentsHeading <= r
  {
    if atts == [] then ""
    else AttachmentsHeading + Join("\n\n", AttachmentTexts(prefix, atts))
  }

  const MessageType := "message"

  /** A reply the tool renders: one of type `"message"`. */
  predicate IsMessageReply(reply: SlackMessage) {
    reply.msgType == MessageType
  }

  predicate IsBotMessage(reply: SlackMessage) {
    reply.subtype == Some("bot_message")
  }

  /** The text of one reply of type `"message"`: a bot's post with its
      author, or a user's message with the user mentioned, then the
      attachment section; a missing author, user or text raises. */
  function ReplyBody(reply: SlackMessage): Result<string, SlackError>
  {
    if IsBotMessage(reply) then
      if reply.username.None? then Err(MissingKey("username"))
      else if reply.text.None? then Err(MissingKey("text"))
      else Ok(Strip("\nPost Author:\n" + reply.username.value + "\n\nPost:\n" + reply.text.value + "\n")
              + AttachmentsSection(BotQuote, reply.attachments))
    else
      if reply.user.None? then Err(MissingKey("user"))
      else if reply.text.None? then Err(MissingKey("text"))
      else Ok(Strip("\nUser:\n<@" + reply.user.value + ">\n\nMessage:\n" + reply.text.value + "\n")
              + AttachmentsSection("", reply.attachments))
  }

  /** Dropping trailing whitespace after a part that ends in a
      non-whitespace character leaves that part alone. */
  lemma {:induction false} TrimEndAfter(a: string, x: string)
    requires a != [] && !IsSpace(a[|a| - 1])
    ensures TrimEnd(a + x) == a + TrimEnd(x)
    decreases |x|
  {
    if x == [] {
      assert a + x == a;
    } else if IsSpace(x[|x| - 1]) {
      assert (a + x)[..|a + x| - 1] == a + x[..|x| - 1];
      TrimEndAfter(a, x[..|x| - 1]);
    }
  }

  /** The stripped heading of a reply: the leading newline goes, and so does
      the trailing whitespace of the text, but the heading stays whole. */
  lemma HeadingStrip(a: string, t: string)
    requires a != [] && !IsSpace(a[0]) && !IsSpace(a[|a| - 1])
    ensures Strip("\n" + a + "\n" + t + "\n") == a + TrimEnd("\n" + t)
  {
    var s := "\n" + a + "\n" + t + "\n";
    var x := "\n" + t + "\n";
    assert s == "\n" + (a + x);
    assert s[1..] == a + x;
    assert TrimStart(s) == TrimStart(a + x);
    assert TrimStart(a + x) == a + x;
    TrimEndAfter(a, x);
    assert x[..|x| - 1] == "\n" + t;
  }

  /** A heading framed by fixed text starts and ends with that text's
      characters. */
  lemma FramedHeading(pre: string, mid: string, post: string)
    requires pre != [] && post != []
    ensures var a := pre + mid + post;
            a != [] && a[0] == pre[0] && a[|a| - 1] == post[|post| - 1]
  {
  }

  /** A bot's post reads `Post Author:`, the author, `Post:` and the text
      without its trailing whitespace, then its attachment section with
      quoted lines. */
  lemma BotPostShape(reply: SlackMessage)
    requires IsBotMessage(reply) && reply.username.Some? && reply.text.Some?
    ensures ReplyBody(reply) == Ok("Post Author:\n" + reply.username.value + "\n\nPost:" + TrimEnd("\n" + reply.text.value)
                                   + AttachmentsSection(BotQuote, reply.attachments))
  {
    var a := "Post Author:\n" + reply.username.value + "\n\nPost:";
    FramedHeading("Post Author:\n", reply.username.value, "\n\nPost:");
    HeadingStrip(a, reply.text.value);
    assert "\nPost Author:\n" + reply.username.value + "\n\nPost:\n" + reply.text.value + "\n"
        == "\n" + a + "\n" + reply.text.value + "\n";
  }

  /** A user's message reads `User:`, the user's mention, `Message:` and the
      text without its trailing whitespace, then its attachment section with
      unquoted lines. */
  lemma UserMessageShape(reply: SlackMessage)
    requires !IsBotMessage(reply) && reply.user.Some? && reply.text.Some?
    ensures ReplyBody(reply) == Ok("User:\n<@" + reply.user.value + ">\n\nMessage:" + TrimEnd("\n" + reply.text.value)
                                   + AttachmentsSection("", reply.attachments))
  {
    var a := "User:\n<@" + reply.user.value + ">\n\nMessage:";
    FramedHeading("User:\n<@", reply.user.value, ">\n\nMessage:");
    HeadingStrip(a, reply.text.value);
    assert "\nUser:\n<@" + reply.user.value + ">\n\nMessage:\n" + reply.text.value + "\n"
        == "\n" + a + "\n" + reply.text.value + "\n";
  }

  /** The texts of the replies, in order: replies of another type than
      `"message"` are skipped, and the first reply that raises ends it. */
  function Contents(replies: seq<SlackMessage>): Result<seq<string>, SlackError>
    decreases |replies|
  {
    if replies == [] then Ok([])
    else match Contents(replies[..|replies| - 1])
      case Err(e) => Err(e)
      case Ok(cs) =>
        var last := replies[|replies| - 1];
        if !IsMessageReply(last) then Ok(cs)
        else match ReplyBody(last)
          case Err(e) => Err(e)
          case Ok(b) => Ok(cs + [b])
  }

  /** The replies of type `"message"`, in order. */
  function MessageReplies(replies: seq<SlackMessage>): (r: seq<SlackMessage>)
    ensures |r| <= |replies|
  {
    if replies == [] then []
    else (if IsMessageReply(replies[0]) then [replies[0]] else []) + MessageReplies(replies[1..])
  }

  lemma {:induction false} MessageRepliesSnoc(replies: seq<SlackMessage>, x: SlackMessage)
    ensures MessageReplies(replies + [x]) == MessageReplies(replies) + (if IsMessageReply(x) then [x] else [])
    decreases |replies|
  {
    var s := replies + [x];
    if replies == [] {
      assert s[1..] == [];
    } else {
      var tail := replies[1..];
      assert s[0] == replies[0];
      assert s[1..] == tail + [x];
      MessageRepliesSnoc(tail, x);
    }
  }

  /** The texts are exactly those of the `"message"` replies, one each and in
      order, and reading them fails iff one of those replies raises. */
  lemma {:induction false} ContentsOfMessageReplies(replies: seq<SlackMessage>)
    ensures Contents(replies).Ok? <==> forall m :: m in MessageReplies(replies) ==> ReplyBody(m).Ok?
    ensures Contents(replies).Ok? ==>
              && |Contents(replies).value| == |MessageReplies(replies)|
              && forall k :: 0 <= k < |MessageReplies(replies)| ==>
                   Contents(replies).value[k] == ReplyBody(MessageReplies(replies)[k]).value
    decreases |replies|
  {
    if replies != [] {
      var init := replies[..|replies| - 1];
      var last := replies[|replies| - 1];
      assert replies == init + [last];
      ContentsOfMessageReplies(init);
      MessageRepliesSnoc(init, last);
      var ms := MessageReplies(init);
      assert forall m :: m in MessageReplies(replies) <==> m in ms || (IsMessageReply(last) && m == last);
    }
  }

  /** `types.Artifact`. */
  datatype Artifact = Artifact(title: string, link: string, content: Option<string>)

  /** What the tool returns: the reply texts joined by a rule, and one
      artifact linking the thread, titled by the title model. */
  function ConversationSpec(replies: seq<SlackMessage>, url: string, makeTitle: string -> string): Result<(string, seq<Artifact>), SlackError>
  {
    match Contents(replies)
    case Err(e) => Err(e)
    case Ok(cs) =>
      var content := Join(ReplySeparator, cs);
      Ok((content, [Artifact(CleanTitle(makeTitle(content)), url, Some(content))]))
  }

  /** The first key's line, then the rest. */
  lemma AttachmentLinesStep(prefix: string, att: map<string, string>, keys: seq<string>, k: nat)
    requires k < |keys|
    ensures AttachmentLines(prefix, att, keys[k..])
            == (if keys[k] in att then AttachmentLine(prefix, keys[k], att[keys[k]]) else "") + AttachmentLines(prefix, att, keys[k + 1..])
  {
    assert keys[k..][1..] == keys[k + 1..];
  }

  /** The key loop: the line of each key the attachment has, in key order. */
  method KeyLines(prefix: string, attachment: map<string, string>, keys: seq<string>) returns (lines: string)
    ensures lines == AttachmentLines(prefix, attachment, keys)
  {
    lines := "";
    for k := 0 to |keys|
      invariant AttachmentLines(prefix, attachment, keys) == lines + AttachmentLines(prefix, attachment, keys[k..])
    {
      var key := keys[k];
      AttachmentLinesStep(prefix, attachment, keys, k);
      var rest := AttachmentLines(prefix, attachment, keys[k + 1..]);
      if key in attachment {
        var line := AttachmentLine(prefix, key, attachment[key]);
        assert lines + (line + rest) == (lines + line) + rest;
        lines := lines + line;
      } else {
        assert lines + ("" + rest) == lines + rest;
      }
    }
    assert keys[|keys|..] == [];
    assert lines + "" == lines;
  }

  /** The text of one attachment: its lines over the shown keys, stripped. */
  method FormatAttachment(prefix: string, attachment: map<string, string>) returns (text: string)
    ensures text == Strip(AttachmentLines(prefix, attachment, AttachmentKeys))
  {
    var lines := KeyLines(prefix, attachment, AttachmentKeys);
    text := Strip(lines);
  }

  /** The attachment loop. */
  method FormatAttachments(prefix: string, atts: seq<map<string, string>>) returns (texts: seq<string>)
    ensures texts == AttachmentTexts(prefix, atts)
  {
    texts := [];
    for i := 0 to |atts|
      invariant |texts| == i
      invariant forall j :: 0 <= j < i ==> texts[j] == Strip(AttachmentLines(prefix, atts[j], AttachmentKeys))
    {
      var text := FormatAttachment(prefix, atts[i]);
      texts := texts + [text];
    }
  }

  /** Once a reply raises, the replies after it change nothing. */
  lemma {:induction false} ContentsErrPersists(replies: seq<SlackMessage>, i: nat)
    requires i <= |replies| && Contents(replies[..i]).Err?
    ensures Contents(replies) == Contents(replies[..i])
    decreases |replies| - i
  {
    if i < |replies| {
      assert replies[..i + 1][..i] == replies[..i];
      ContentsErrPersists(replies, i + 1);
    } else {
      assert replies[..i] == replies;
    }
  }

  /** The text of one `"message"` reply, built as the loop body builds it. */
  method FormatReply(reply: SlackMessage) returns (r: Result<string, SlackError>)
    ensures r == ReplyBody(reply)
  {
    var content: string;
    var prefix: string;
    if IsBotMessage(reply) {
      if reply.username.None? {
        return Err(MissingKey("username"));
      }
      if reply.text.None? {
        return Err(MissingKey("text"));
      }
      content := Strip("\nPost Author:\n" + reply.username.value + "\n\nPost:\n" + reply.text.value + "\n");
      prefix := BotQuote;
    } else {
      if reply.user.None? {
        return Err(MissingKey("user"));
      }
      if reply.text.None? {
        return Err(MissingKey("text"));
      }
      content := Strip("\nUser:\n<@" + reply.user.value + ">\n\nMessage:\n" + reply.text.value + "\n");
      prefix := "";
    }
    var attachmentTexts := FormatAttachments(prefix, reply.attachments);
    var section := "";
    if |attachmentTexts| > 0 {
      section := AttachmentsHeading + Join("\n\n", attachmentTexts);
    }
    assert section == AttachmentsSection(prefix, reply.attachments);
    r := Ok(content + section);
  }

  /** `get_slack_conversation_replies` from the replies read on: one text per
      `"message"` reply, joined by a rule, and exactly one artifact whose link
      is the thread URL and whose title holds no forbidden character. */
  method GetSlackConversationReplies(replies: seq<SlackMessage>, url: string, makeTitle: string -> string)
      returns (r: Result<(string, seq<Artifact>), SlackError>)
    ensures r == ConversationSpec(replies, url, makeTitle)
    ensures r.Ok? ==> |r.value.1| == 1 && r.value.1[0].link == url && r.value.1[0].content == Some(r.value.0)
                      && forall c :: c in r.value.1[0].title ==> c !in Forbidden
  {
    var contents: seq<string> := [];
    for i := 0 to |replies|
      invariant Contents(replies[..i]) == Ok(contents)
    {
      var reply := replies[i];
      assert replies[..i + 1][..i] == replies[..i] && replies[..i + 1][i] == reply;
      if !IsMessageReply(reply) {
        continue;
      }
      var content := FormatReply(reply);
      if content.Err? {
        ContentsErrPersists(replies, i + 1);
        return Err(content.error);
      }
      contents := contents + [content.value];
    }
    assert replies[..|replies|] == replies;
    var joined := Join(ReplySeparator, contents);
    r := Ok((joined, [Artifact(CleanTitle(makeTitle(joined)), url, Some(joined))]));
  }
}
