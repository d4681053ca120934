/** The older Slack bot: its own agent-result parser, which makes at most one
    reference from the most recent tool message of a configured tool within
    the last two assistant turns, and its webhook handlers. Its worker and
    shutdown follow the same queue discipline as `SlackBot.SlackBot`. */
module SlackLegacyBot {
  import opened Common
  import opened SlackTypes
  import opened AgentParser
  import opened SlackClient
  import SlackBot

  /** The `resources` section of the older configuration that the parser reads:
      the title given to every reference and the icon of each tool that gets
      one. */
  datatype Resources = Resources(toolReferenceMessage: string, artifactIconEmoji: map<string, string>)

  // ---------------------------------------------------------------------
  // Reply text

  /** The older reply text: the last message's string stripped, or, in the
      list branch, the non-blank strings of the iterated sequence joined by
      newlines (`"..."` when there are none) and stripped; other items are
      logged and dropped. */
  function LegacyContent(content: Content, iterated: seq<Item>): (r: string)
    ensures content.ListContent? ==> r != ""
  {
    match content
    case TextContent(t) => Strip(t)
    case ListContent(_) =>
      var texts := NonBlankTexts(iterated);
      var joined := Join("\n", if texts == [] then [Placeholder] else texts);
      NonBlankStripsNonEmptyJoin(iterated);
      Strip(joined)
  }

  /** The first part of the join is not blank, so neither is the stripped join. */
  lemma NonBlankStripsNonEmptyJoin(iterated: seq<Item>)
    ensures var texts := NonBlankTexts(iterated);
            Strip(Join("\n", if texts == [] then [Placeholder] else texts)) != ""
  {
    var texts := NonBlankTexts(iterated);
    if texts == [] {
      StripUnchanged(Placeholder);
      JoinedTextNonEmpty([Placeholder]);
    } else {
      NonBlankTextsAreNonBlank(iterated);
      JoinedTextNonEmpty(texts);
    }
  }

  /** The list branch's loop. */
  method LegacyReplyText(content: Content, iterated: seq<Item>) returns (text: string)
    ensures text == LegacyContent(content, iterated)
  {
    match content {
      case TextContent(t) =>
        text := Strip(t);
      case ListContent(_) =>
        var texts: seq<string> := [];
        for j := 0 to |iterated|
          invariant NonBlankTexts(iterated) == texts + NonBlankTexts(iterated[j..])
        {
          assert iterated[j..][1..] == iterated[j + 1..];
          match iterated[j] {
            case TextItem(s) =>
              if Strip(s) != "" {
                texts := texts + [s];
              }
            case OtherItem =>
          }
        }
        assert iterated[|iterated|..] == [];
        assert texts + [] == texts;
        if |texts| == 0 {
          texts := [Placeholder];
        }
        text := Strip(Join("\n", texts));
    }
  }

  // ---------------------------------------------------------------------
  // The reference scan

  /** A tool message that gets a reference: its artifact is a non-empty list
      and its tool has a configured icon. */
  predicate Qualifies(res: Resources, m: Message) {
    && m.role.Tool?
    && m.role.artifact.ArtifactList?
    && |m.role.artifact.items| > 0
    && m.role.name in res.artifactIconEmoji
  }

  /** Reading an artifact's fields raises: the title is missing, or the title
      is a string and the link is missing. */
  predicate RaisesOnRead(a: RawArtifact) {
    a.title.MissingField? || (a.title.StrField? && a.link.MissingField?)
  }

  /** The artifact comprehension: artifacts whose title and link are both
      strings, in order, unstripped and without content; a title that is not
      a string skips the artifact without its link being read. */
  function StringArtifacts(arts: seq<RawArtifact>): (r: Result<seq<ReferenceArtifact>, ParseError>)
    ensures r.Ok? <==> forall a :: a in arts ==> !RaisesOnRead(a)
    ensures r.Err? ==> r.error == MissingArtifactKey("title") || r.error == MissingArtifactKey("link")
    ensures r.Ok? ==> |r.value| <= |arts|
    ensures r.Ok? ==> forall x :: x in r.value ==>
              x.content.None? && RawArtifact(StrField(x.title), StrField(x.link)) in arts
  {
    if arts == [] then Ok([])
    else
      var a := arts[0];
      assert a in arts;
      assert forall b :: b in arts <==> b == a || b in arts[1..];
      match a.title
      case MissingField => Err(MissingArtifactKey("title"))
      case NonStrField => StringArtifacts(arts[1..])
      case StrField(t) =>
        match a.link
        case MissingField => Err(MissingArtifactKey("link"))
        case NonStrField => StringArtifacts(arts[1..])
        case StrField(l) =>
          match StringArtifacts(arts[1..])
          case Err(e) => Err(e)
          case Ok(rest) => Ok([ReferenceArtifact(t, l, None)] + rest)
  }

  /** Every artifact whose title and link are strings is kept, as often as it
      occurs: the comprehension neither de-duplicates nor strips. */
  lemma {:induction false} StringArtifactsKeepsAll(arts: seq<RawArtifact>)
    requires StringArtifacts(arts).Ok?
    ensures forall t, l :: multiset(StringArtifacts(arts).value)[ReferenceArtifact(t, l, None)]
                          == multiset(arts)[RawArtifact(StrField(t), StrField(l))]
  {
    if arts != [] {
      assert arts == [arts[0]] + arts[1..];
      StringArtifactsKeepsAll(arts[1..]);
    }
  }

  /** The comprehension works artifact by artifact: on a concatenation it
      keeps the first part's pairs, then the second's, in input order. */
  lemma {:induction false} StringArtifactsAppend(xs: seq<RawArtifact>, ys: seq<RawArtifact>)
    ensures StringArtifacts(xs + ys).Ok? <==> StringArtifacts(xs).Ok? && StringArtifacts(ys).Ok?
    ensures StringArtifacts(xs).Ok? && StringArtifacts(ys).Ok? ==>
              StringArtifacts(xs + ys) == Ok(StringArtifacts(xs).value + StringArtifacts(ys).value)
  {
    if xs == [] {
      assert xs + ys == ys;
      assert StringArtifacts(xs) == Ok([]);
      if StringArtifacts(ys).Ok? {
        assert [] + StringArtifacts(ys).value == StringArtifacts(ys).value;
      }
    } else {
      assert (xs + ys)[0] == xs[0];
      assert (xs + ys)[1..] == xs[1..] + ys;
      StringArtifactsAppend(xs[1..], ys);
      var a := xs[0];
      if a.title.StrField? && a.link.StrField? && StringArtifacts(xs).Ok? && StringArtifacts(ys).Ok? {
        var x := ReferenceArtifact(a.title.value, a.link.value, None);
        var u, v := StringArtifacts(xs[1..]).value, StringArtifacts(ys).value;
        assert StringArtifacts(xs).value == [x] + u;
        assert StringArtifacts(xs + ys).value == [x] + (u + v);
        assert [x] + (u + v) == ([x] + u) + v;
      }
    }
  }

  /** The reference made from a qualifying tool message: it holds exactly the
      message's string artifacts, and fails exactly when reading them does. */
  function Referenced(res: Resources, m: Message): (r: Result<seq<LegacyReference>, ParseError>)
    requires Qualifies(res, m)
    ensures r.Ok? <==> StringArtifacts(m.role.artifact.items).Ok?
    ensures r.Err? ==> r.error == StringArtifacts(m.role.artifact.items).error
    ensures r.Ok? ==> |r.value| == 1 && r.value[0].name == res.toolReferenceMessage
                      && r.value[0].iconEmoji == res.artifactIconEmoji[m.role.name]
                      && r.value[0].artifacts == StringArtifacts(m.role.artifact.items).value
  {
    match StringArtifacts(m.role.artifact.items)
    case Err(e) => Err(e)
    case Ok(arts) => Ok([LegacyReference(res.toolReferenceMessage, res.artifactIconEmoji[m.role.name], arts)])
  }

  /** The number of assistant messages at position `j` or later. */
  function AiFrom(ms: seq<Message>, j: nat): nat
    decreases |ms| - j
  {
    if j >= |ms| then 0 else (if ms[j].role.Ai? then 1 else 0) + AiFrom(ms, j + 1)
  }

  /** The reverse scan with `i` messages still to visit (it visits `ms[i - 1]`
      next) and `foundAi` set once an assistant message has been passed: a
      second assistant message ends it, the first qualifying tool message
      gives the only reference and ends it. */
  function ScanFrom(res: Resources, ms: seq<Message>, i: nat, foundAi: bool): (r: Result<seq<LegacyReference>, ParseError>)
    requires i <= |ms|
    ensures r.Ok? ==> |r.value| <= 1
    decreases i
  {
    if i == 0 then Ok([])
    else
      var m := ms[i - 1];
      if m.role.Ai? then (if foundAi then Ok([]) else ScanFrom(res, ms, i - 1, true))
      else if !Qualifies(res, m) then ScanFrom(res, ms, i - 1, foundAi)
      else Referenced(res, m)
  }

  lemma {:induction false} AiFromMonotone(ms: seq<Message>, j: nat, k: nat)
    requires j <= k
    ensures AiFrom(ms, j) >= AiFrom(ms, k)
    decreases k - j
  {
    if j < k {
      AiFromMonotone(ms, j + 1, k);
    }
  }

  /** The scan window: the scan sees a message iff fewer than two assistant
      messages follow it. It finds nothing iff no qualifying tool message lies
      in the window, and otherwise its result is made from the latest
      qualifying message. */
  lemma {:induction false} ScanWindow(res: Resources, ms: seq<Message>, i: nat, foundAi: bool)
    requires i <= |ms| && AiFrom(ms, i) <= 1 && (foundAi <==> AiFrom(ms, i) == 1)
    ensures ScanFrom(res, ms, i, foundAi) == Ok([]) <==>
              forall j :: 0 <= j < i && Qualifies(res, ms[j]) ==> AiFrom(ms, j + 1) >= 2
    ensures forall j :: 0 <= j < i && Qualifies(res, ms[j]) && AiFrom(ms, j + 1) <= 1
                        && (forall k :: j < k < i ==> !Qualifies(res, ms[k])) ==>
              ScanFrom(res, ms, i, foundAi) == Referenced(res, ms[j])
    decreases i
  {
    if i > 0 {
      var m := ms[i - 1];
      if m.role.Ai? {
        if foundAi {
          forall t | 1 <= t < i
            ensures AiFrom(ms, t) >= 2
          {
            AiFromMonotone(ms, t, i - 1);
          }
        } else {
          ScanWindow(res, ms, i - 1, true);
        }
      } else if !Qualifies(res, m) {
        ScanWindow(res, ms, i - 1, foundAi);
      } else {
        assert AiFrom(ms, i - 1) == AiFrom(ms, i);
      }
    }
  }

  /** The older parser's result: the reply text and at most one reference;
      an empty transcript raises. */
  function LegacyParseSpec(res: Resources, ms: seq<Message>, iterated: seq<Item>): (r: Result<(string, seq<LegacyReference>), ParseError>)
  {
    if ms == [] then Err(EmptyTranscript)
    else match ScanFrom(res, ms, |ms|, false)
      case Err(e) => Err(e)
      case Ok(refs) => Ok((LegacyContent(ms[|ms| - 1].content, iterated), refs))
  }

  /** The whole-transcript view of the scan: at most one reference; none iff
      no qualifying tool message is followed by fewer than two assistant
      messages; otherwise made from the latest such message. */
  lemma LegacyReferences(res: Resources, ms: seq<Message>, iterated: seq<Item>)
    requires ms != []
    ensures LegacyParseSpec(res, ms, iterated).Ok? ==> |LegacyParseSpec(res, ms, iterated).value.1| <= 1
    ensures LegacyParseSpec(res, ms, iterated) == Ok((LegacyContent(ms[|ms| - 1].content, iterated), [])) <==>
              forall j :: 0 <= j < |ms| && Qualifies(res, ms[j]) ==> AiFrom(ms, j + 1) >= 2
    ensures forall j :: 0 <= j < |ms| && Qualifies(res, ms[j]) && AiFrom(ms, j + 1) <= 1
                        && (forall k :: j < k < |ms| ==> !Qualifies(res, ms[k])) ==>
              ScanFrom(res, ms, |ms|, false) == Referenced(res, ms[j])
  {
    ScanWindow(res, ms, |ms|, false);
  }

  /** `parse_agent_result` of the older bot. */
  method LegacyParseAgentResult(res: Resources, ms: seq<Message>, iterated: seq<Item>)
      returns (r: Result<(string, seq<LegacyReference>), ParseError>)
    ensures r == LegacyParseSpec(res, ms, iterated)
  {
    if |ms| == 0 {
      return Err(EmptyTranscript);
    }
    var content := LegacyReplyText(ms[|ms| - 1].content, iterated);
    var foundAi := false;
    var i: nat := |ms|;
    while i > 0
      invariant i <= |ms|
      invariant ScanFrom(res, ms, |ms|, false) == ScanFrom(res, ms, i, foundAi)
    {
      var m := ms[i - 1];
      if m.role.Ai? {
        if foundAi {
          break;
        }
        foundAi := true;
      } else if Qualifies(res, m) {
        var arts := StringArtifacts(m.role.artifact.items);
        if arts.Err? {
          return Err(arts.error);
        }
        return Ok((content, [LegacyReference(res.toolReferenceMessage, res.artifactIconEmoji[m.role.name], arts.value)]));
      }
      i := i - 1;
    }
    r := Ok((content, []));
  }

  // ---------------------------------------------------------------------
  // Webhook handlers

  /** What the older webhook handlers do with an event: the same filters as
      the current bot, then `body["event"]["client_msg_id"]` is read (message
      and mention), then `SlackEvent` is built without its required `user`
      and `channel`, which raises a validation error. `Ok(None)` is a filtered
      event, acknowledged and not queued. */
  function LegacyEnqueued(kind: SlackBot.HandlerKind, data: EventData): (r: Result<Option<SlackEvent>, SlackError>)
    ensures r.Ok? ==> r.value.None?
    ensures r.Ok? <==> match kind
                       case ReactionHandler => false
                       case AppMentionHandler => data.edited
                       case _ => data.subtype.Some? || (data.text.Some? && Strip(data.text.value) == "")
  {
    match kind
    case ReactionHandler => Err(ValidationError("user"))
    case AppMentionHandler =>
      if data.edited then Ok(None)
      else if data.clientMsgId.None? then Err(MissingKey("client_msg_id"))
      else Err(ValidationError("user"))
    case _ =>
      if data.subtype.Some? then Ok(None)
      else if data.text.None? then Err(MissingKey("text"))
      else if Strip(data.text.value) == "" then Ok(None)
      else if data.clientMsgId.None? then Err(MissingKey("client_msg_id"))
      else Err(ValidationError("user"))
  }

  /** Every event the current handlers queue makes the older handler raise a
      validation error instead: the older bot never queues an event. */
  lemma LegacyHandlersDropAdmittedEvents(kind: SlackBot.HandlerKind, data: EventData)
    requires SlackBot.Enqueued(kind, data).Ok? && SlackBot.Enqueued(kind, data).value.Some?
    ensures LegacyEnqueued(kind, data) == Err(ValidationError("user"))
  {
    var admitted := SlackBot.Enqueued(kind, data);
    match kind
    case ReactionHandler =>
    case AppMentionHandler =>
      assert !data.edited && data.clientMsgId.Some?;
    case _ =>
      assert data.subtype.None? && data.text.Some? && Strip(data.text.value) != "" && data.clientMsgId.Some?;
  }
}
