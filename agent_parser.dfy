/** The agent-result parser: turns the agent's transcript into the reply text
    and the list of citation references shown under the reply. */
module AgentParser {
  import opened Common
  import opened MessageConfig

  /** An element of a list-valued message content, or of whatever else the
      parser iterates in its place: a string or anything else. */
  datatype Item = TextItem(text: string) | OtherItem

  datatype Content = TextContent(text: string) | ListContent(items: seq<Item>)

  /** A dictionary entry of a tool artifact: a string, a value of another type,
      or no entry at all (reading it raises `KeyError`). */
  datatype Field = StrField(value: string) | NonStrField | MissingField

  datatype RawArtifact = RawArtifact(title: Field, link: Field)

  /** The `artifact` attribute of a tool message: a list of artifact
      dictionaries, or anything that is not a list. */
  datatype ArtifactPayload = ArtifactList(items: seq<RawArtifact>) | NotAList

  datatype Role = Human | Ai | Tool(name: string, artifact: ArtifactPayload) | OtherRole

  datatype Message = Message(role: Role, content: Content)

  datatype ReferenceArtifact = ReferenceArtifact(title: string, link: string, content: Option<string>)

  datatype Reference = Reference(title: string, source: string, iconEmoji: string, artifacts: seq<ReferenceArtifact>)

  datatype ParseError =
    | EmptyTranscript            // `result["messages"][-1]` on an empty list
    | UnknownResultItem          // a non-string item in the list branch
    | MissingArtifactKey(key: string)
    | ConfigLookup(error: ConfigError)

  const ArtifactTitleKey := "tool_artifact_title"
  const IconSuffix := "_tool_artifact_icon"
  const Placeholder := "..."

  // ---------------------------------------------------------------------
  // Reply text

  /** The text-item loop from position `i` on, `acc` holding the items kept so
      far: blank strings are skipped and the first non-string raises. */
  function KeptFrom(items: seq<Item>, i: nat, acc: seq<string>): Result<seq<string>, ParseError>
    requires i <= |items|
    decreases |items| - i
  {
    if i == |items| then Ok(acc)
    else match items[i]
      case OtherItem => Err(UnknownResultItem)
      case TextItem(s) => KeptFrom(items, i + 1, if Strip(s) == "" then acc else acc + [s])
  }

  /** The reply text made from the last message's content; a list content is
      replaced by the text items of `iterated`, the sequence the loop walks. */
  function ContentSpec(content: Content, iterated: seq<Item>): Result<string, ParseError>
  {
    match content
    case TextContent(t) => Ok(Strip(t))
    case ListContent(_) =>
      match KeptFrom(iterated, 0, [])
      case Err(e) => Err(e)
      case Ok(kept) => Ok(Strip(Join("\n", if kept == [] then [Placeholder] else kept)))
  }

  /** Reference definitions for the text-item loop: the non-blank strings in
      order, and whether a non-string occurs. */
  function NonBlankTexts(items: seq<Item>): seq<string>
  {
    if items == [] then []
    else match items[0]
      case OtherItem => NonBlankTexts(items[1..])
      case TextItem(s) => (if Strip(s) == "" then [] else [s]) + NonBlankTexts(items[1..])
  }

  predicate HasNonText(items: seq<Item>) {
    exists k :: 0 <= k < |items| && items[k].OtherItem?
  }

  /** The loop keeps exactly the non-blank strings, in order, and raises iff a
      non-string occurs. */
  lemma {:induction false} KeptFromIsFilter(items: seq<Item>, i: nat, acc: seq<string>)
    requires i <= |items|
    ensures HasNonText(items[i..]) ==> KeptFrom(items, i, acc) == Err(UnknownResultItem)
    ensures !HasNonText(items[i..]) ==> KeptFrom(items, i, acc) == Ok(acc + NonBlankTexts(items[i..]))
    decreases |items| - i
  {
    if i < |items| {
      var s := items[i..];
      var rest := items[i + 1..];
      assert s == [items[i]] + rest;
      match items[i]
      case OtherItem =>
        assert s[0].OtherItem?;
      case TextItem(t) =>
        var acc' := if Strip(t) == "" then acc else acc + [t];
        KeptFromIsFilter(items, i + 1, acc');
        assert HasNonText(s) <==> HasNonText(rest) by {
          if HasNonText(s) {
            var k :| 0 <= k < |s| && s[k].OtherItem?;
            assert rest[k - 1] == s[k];
          }
          if HasNonText(rest) {
            var k :| 0 <= k < |rest| && rest[k].OtherItem?;
            assert s[k + 1] == rest[k];
          }
        }
        assert NonBlankTexts(s) == (if Strip(t) == "" then [] else [t]) + NonBlankTexts(rest);
        assert acc' + NonBlankTexts(rest) == acc + NonBlankTexts(s);
    } else {
      assert items[i..] == [];
      assert acc + [] == acc;
    }
  }

  // ---------------------------------------------------------------------
  // Artifacts and their de-duplication key

  /** The de-duplication key `"{name}: [{title}]({link})"` of stripped parts. */
  function Key(name: string, title: string, link: string): string {
    Strip(name) + ": [" + Strip(title) + "](" + Strip(link) + ")"
  }

  datatype Collected = Collected(seen: set<string>, kept: seq<ReferenceArtifact>)

  /** The artifact loop of one tool message from position `j` on: the title is
      read first, and a title that is not a string skips the artifact without
      reading its link; a key already seen skips it; otherwise the key is
      recorded and the stripped title and link are kept. */
  function CollectFrom(name: string, arts: seq<RawArtifact>, j: nat, seen: set<string>, kept: seq<ReferenceArtifact>): Result<Collected, ParseError>
    requires j <= |arts|
    decreases |arts| - j
  {
    if j == |arts| then Ok(Collected(seen, kept))
    else match arts[j].title
      case MissingField => Err(MissingArtifactKey("title"))
      case NonStrField => CollectFrom(name, arts, j + 1, seen, kept)
      case StrField(t) =>
        match arts[j].link
        case MissingField => Err(MissingArtifactKey("link"))
        case NonStrField => CollectFrom(name, arts, j + 1, seen, kept)
        case StrField(l) =>
          var k := Key(name, t, l);
          if k in seen then CollectFrom(name, arts, j + 1, seen, kept)
          else CollectFrom(name, arts, j + 1, seen + {k}, kept + [ReferenceArtifact(Strip(t), Strip(l), None)])
  }

  // ---------------------------------------------------------------------
  // The reverse scan

  /** A tool's references, in the order the scan added them. */
  datatype Group = Group(name: string, refs: seq<Reference>)

  /** The scan's state: the per-tool groups in order of first appearance, the
      keys seen, and every reference built so far, newest message first
      (empty ones included; this last part only serves the proofs). */
  datatype ScanState = ScanState(groups: seq<Group>, seen: set<string>, made: seq<Reference>)

  function Names(groups: seq<Group>): (r: seq<string>)
    ensures |r| == |groups| && forall k :: 0 <= k < |groups| ==> r[k] == groups[k].name
  {
    seq(|groups|, k requires 0 <= k < |groups| => groups[k].name)
  }

  /** The groups with an empty one for `name` added at the end when there is
      none yet. */
  function WithGroup(groups: seq<Group>, name: string): seq<Group>
  {
    if name in Names(groups) then groups else groups + [Group(name, [])]
  }

  /** Appends `ref` to the first group named `name`. */
  function AddRef(groups: seq<Group>, name: string, ref: Reference): seq<Group>
  {
    if groups == [] then []
    else if groups[0].name == name then [Group(name, groups[0].refs + [ref])] + groups[1..]
    else [groups[0]] + AddRef(groups[1..], name, ref)
  }

  /** The groups' references concatenated in group order. */
  function Flatten(groups: seq<Group>): seq<Reference>
  {
    if groups == [] then [] else groups[0].refs + Flatten(groups[1..])
  }

  /** A tool message that the scan acts on: its artifact is a non-empty list. */
  predicate Touches(m: Message) {
    m.role.Tool? && m.role.artifact.ArtifactList? && |m.role.artifact.items| > 0
  }

  /** One tool message with a non-empty artifact list: its group is created if
      new, the reference's title and icon are looked up, its artifacts
      collected, and the reference joins its group only when it kept one. */
  function Step(cfg: MessageTables, name: string, arts: seq<RawArtifact>, st: ScanState): Result<ScanState, ParseError>
  {
    var groups := WithGroup(st.groups, name);
    match GetMessage(cfg, ArtifactTitleKey)
    case Err(e) => Err(ConfigLookup(e))
    case Ok(title) =>
      match GetEmoji(cfg, name + IconSuffix)
      case Err(e) => Err(ConfigLookup(e))
      case Ok(icon) =>
        match CollectFrom(name, arts, 0, st.seen, [])
        case Err(e) => Err(e)
        case Ok(c) =>
          var ref := Reference(title, name, icon, c.kept);
          Ok(ScanState(if |c.kept| > 0 then AddRef(groups, name, ref) else groups, c.seen, st.made + [ref]))
  }

  /** The scan over `ms[..i]` from its last message backwards, stopping at a
      human message. */
  function ScanFrom(cfg: MessageTables, ms: seq<Message>, i: nat, st: ScanState): Result<ScanState, ParseError>
    requires i <= |ms|
    decreases i
  {
    if i == 0 || ms[i - 1].role.Human? then Ok(st)
    else if Touches(ms[i - 1]) then
      match Step(cfg, ms[i - 1].role.name, ms[i - 1].role.artifact.items, st)
      case Err(e) => Err(e)
      case Ok(next) => ScanFrom(cfg, ms, i - 1, next)
    else ScanFrom(cfg, ms, i - 1, st)
  }

  function Reverse<T>(s: seq<T>): (r: seq<T>)
    ensures |r| == |s|
    ensures forall k :: 0 <= k < |s| ==> r[k] == s[|s| - 1 - k]
  {
    if s == [] then [] else [s[|s| - 1]] + Reverse(s[..|s| - 1])
  }

  const InitialScan := ScanState([], {}, [])

  /** The groups left by the whole scan. */
  function ScanGroups(cfg: MessageTables, ms: seq<Message>): Result<seq<Group>, ParseError>
  {
    match ScanFrom(cfg, ms, |ms|, InitialScan)
    case Err(e) => Err(e)
    case Ok(st) => Ok(st.groups)
  }

  /** The references: the groups flattened, then reversed. */
  function ReferencesSpec(cfg: MessageTables, ms: seq<Message>): Result<seq<Reference>, ParseError>
  {
    match ScanGroups(cfg, ms)
    case Err(e) => Err(e)
    case Ok(groups) => Ok(Reverse(Flatten(groups)))
  }

  /** `parse_agent_result` as a function of the transcript and of the sequence
      its text-item loop iterates. */
  function ParseSpec(cfg: MessageTables, ms: seq<Message>, iterated: seq<Item>): Result<(string, seq<Reference>), ParseError>
  {
    if ms == [] then Err(EmptyTranscript)
    else
      match ContentSpec(ms[|ms| - 1].content, iterated)
      case Err(e) => Err(e)
      case Ok(text) =>
        match ReferencesSpec(cfg, ms)
        case Err(e) => Err(e)
        case Ok(refs) => Ok((text, refs))
  }

  lemma {:induction false} FlattenSnoc(groups: seq<Group>, g: Group)
    ensures Flatten(groups + [g]) == Flatten(groups) + g.refs
  {
    if groups != [] {
      assert (groups + [g])[1..] == groups[1..] + [g];
      FlattenSnoc(groups[1..], g);
    }
  }

  /** The reply-text part of `parse_agent_result`. */
  method ReplyText(content: Content, iterated: seq<Item>) returns (r: Result<string, ParseError>)
    ensures r == ContentSpec(content, iterated)
  {
    var text: string;
    match content {
      case TextContent(t) =>
        text := t;
      case ListContent(_) =>
        var textItem: seq<string> := [];
        for i := 0 to |iterated|
          invariant KeptFrom(iterated, 0, []) == KeptFrom(iterated, i, textItem)
        {
          match iterated[i] {
            case OtherItem =>
              return Err(UnknownResultItem);
            case TextItem(s) =>
              if Strip(s) != "" {
                textItem := textItem + [s];
              }
          }
        }
        if |textItem| <= 0 {
          textItem := textItem + [Placeholder];
        }
        text := Join("\n", textItem);
    }
    r := Ok(Strip(text));
  }

  /** The artifact loop of one tool message, against the keys seen so far. */
  /** `x` is the stripped title and link of the string pair `a`. */
  predicate StrippedPair(a: RawArtifact, x: ReferenceArtifact) {
    a.title.StrField? && a.link.StrField?
    && x == ReferenceArtifact(Strip(a.title.value), Strip(a.link.value), None)
  }

  /** The artifact loop only appends: the artifacts it keeps from position `j`
      on follow what was kept before, and `idx` gives, in increasing order,
      the input positions of the string pairs they are stripped from. */
  lemma {:induction false} CollectInOrder(name: string, arts: seq<RawArtifact>, j: nat, seen: set<string>, kept: seq<ReferenceArtifact>)
      returns (idx: seq<nat>)
    requires j <= |arts|
    requires CollectFrom(name, arts, j, seen, kept).Ok?
    ensures var out := CollectFrom(name, arts, j, seen, kept).value.kept;
            && |kept| <= |out| && out[..|kept|] == kept
            && |idx| == |out| - |kept|
            && (forall p :: 0 <= p < |idx| ==> j <= idx[p] < |arts| && StrippedPair(arts[idx[p]], out[|kept| + p]))
            && (forall p, q :: 0 <= p < q < |idx| ==> idx[p] < idx[q])
    decreases |arts| - j
  {
    if j == |arts| {
      idx := [];
      return;
    }
    var a := arts[j];
    if a.title.StrField? && a.link.StrField? && Key(name, a.title.value, a.link.value) !in seen {
      var x := ReferenceArtifact(Strip(a.title.value), Strip(a.link.value), None);
      var seen' := seen + {Key(name, a.title.value, a.link.value)};
      assert CollectFrom(name, arts, j, seen, kept) == CollectFrom(name, arts, j + 1, seen', kept + [x]);
      var rest := CollectInOrder(name, arts, j + 1, seen', kept + [x]);
      idx := IndexKept(arts, j, kept, x, CollectFrom(name, arts, j, seen, kept).value.kept, rest);
    } else {
      assert CollectFrom(name, arts, j, seen, kept) == CollectFrom(name, arts, j + 1, seen, kept);
      idx := CollectInOrder(name, arts, j + 1, seen, kept);
    }
  }

  /** One kept artifact `x` from position `j`, followed by artifacts kept from
      later positions `rest`: the positions `[j] + rest` account for all of
      them after `kept`. */
  lemma IndexKept(arts: seq<RawArtifact>, j: nat, kept: seq<ReferenceArtifact>, x: ReferenceArtifact,
                  out: seq<ReferenceArtifact>, rest: seq<nat>) returns (idx: seq<nat>)
    requires j < |arts| && StrippedPair(arts[j], x)
    requires |kept| + 1 <= |out| && out[..|kept| + 1] == kept + [x]
    requires |rest| == |out| - (|kept| + 1)
    requires forall p :: 0 <= p < |rest| ==> j + 1 <= rest[p] < |arts| && StrippedPair(arts[rest[p]], out[|kept| + 1 + p])
    requires forall p, q :: 0 <= p < q < |rest| ==> rest[p] < rest[q]
    ensures idx == [j] + rest
    ensures out[..|kept|] == kept && |idx| == |out| - |kept|
    ensures forall p :: 0 <= p < |idx| ==> j <= idx[p] < |arts| && StrippedPair(arts[idx[p]], out[|kept| + p])
    ensures forall p, q :: 0 <= p < q < |idx| ==> idx[p] < idx[q]
  {
    idx := [j] + rest;
    assert out[..|kept|] == (kept + [x])[..|kept|];
    assert out[|kept|] == (kept + [x])[|kept|];
    forall p | 1 <= p < |idx|
      ensures j <= idx[p] < |arts| && StrippedPair(arts[idx[p]], out[|kept| + p])
    {
      assert idx[p] == rest[p - 1];
    }
  }

  method CollectArtifacts(name: string, arts: seq<RawArtifact>, seen0: set<string>) returns (r: Result<Collected, ParseError>)
    ensures r == CollectFrom(name, arts, 0, seen0, [])
  {
    var seen := seen0;
    var kept: seq<ReferenceArtifact> := [];
    for j := 0 to |arts|
      invariant CollectFrom(name, arts, 0, seen0, []) == CollectFrom(name, arts, j, seen, kept)
    {
      var a := arts[j];
      if a.title.MissingField? {
        return Err(MissingArtifactKey("title"));
      }
      if a.title.StrField? {
        if a.link.MissingField? {
          return Err(MissingArtifactKey("link"));
        }
        if a.link.StrField? {
          var key := Key(name, a.title.value, a.link.value);
          if key !in seen {
            seen := seen + {key};
            kept := kept + [ReferenceArtifact(Strip(a.title.value), Strip(a.link.value), None)];
          }
        }
      }
    }
    r := Ok(Collected(seen, kept));
  }

  /** The scan's work on one tool message that carries artifacts: its tool
      gets a group if it has none, the localized title and the tool's icon
      are looked up, the artifacts are collected, and the reference is added
      to the tool's group when it kept any. */
  method ScanStep(cfg: MessageTables, name: string, arts: seq<RawArtifact>, groups: seq<Group>, seen: set<string>,
                  ghost made: seq<Reference>)
      returns (r: Result<(seq<Group>, set<string>, Reference), ParseError>)
    ensures Step(cfg, name, arts, ScanState(groups, seen, made)) ==
              match r
              case Err(e) => Err(e)
              case Ok(v) => Ok(ScanState(v.0, v.1, made + [v.2]))
  {
    var grown := groups;
    if name !in Names(groups) {
      grown := groups + [Group(name, [])];
    }
    var title := GetMessage(cfg, ArtifactTitleKey);
    if title.Err? {
      return Err(ConfigLookup(title.error));
    }
    var icon := GetEmoji(cfg, name + IconSuffix);
    if icon.Err? {
      return Err(ConfigLookup(icon.error));
    }
    var c := CollectArtifacts(name, arts, seen);
    if c.Err? {
      return Err(c.error);
    }
    var ref := Reference(title.value, name, icon.value, c.value.kept);
    if |c.value.kept| > 0 {
      grown := AddRef(grown, name, ref);
    }
    r := Ok((grown, c.value.seen, ref));
  }

  /** The reverse scan over the transcript, down to the most recent human
      message, growing the per-tool groups and the set of keys seen. */
  method ScanTranscript(cfg: MessageTables, ms: seq<Message>) returns (r: Result<seq<Group>, ParseError>)
    ensures r == ScanGroups(cfg, ms)
  {
    var groups: seq<Group> := [];
    var seen: set<string> := {};
    ghost var made: seq<Reference> := [];
    var i := |ms|;
    while i > 0 && !ms[i - 1].role.Human?
      invariant 0 <= i <= |ms|
      invariant ScanFrom(cfg, ms, |ms|, InitialScan) == ScanFrom(cfg, ms, i, ScanState(groups, seen, made))
      decreases i
    {
      var m := ms[i - 1];
      if Touches(m) {
        var step := ScanStep(cfg, m.role.name, m.role.artifact.items, groups, seen, made);
        if step.Err? {
          return Err(step.error);
        }
        groups, seen := step.value.0, step.value.1;
        made := made + [step.value.2];
      }
      i := i - 1;
    }
    r := Ok(groups);
  }

  /** The groups' reference lists concatenated in group order. */
  method FlattenGroups(groups: seq<Group>) returns (flat: seq<Reference>)
    ensures flat == Flatten(groups)
  {
    flat := [];
    for g := 0 to |groups|
      invariant flat == Flatten(groups[..g])
    {
      FlattenSnoc(groups[..g], groups[g]);
      assert groups[..g + 1] == groups[..g] + [groups[g]];
      flat := flat + groups[g].refs;
    }
    assert groups[..|groups|] == groups;
  }

  /** `list.reverse()`: reverses the array in place. */
  method ReverseInPlace<T>(a: array<T>)
    modifies a
    ensures a[..] == Reverse(old(a[..]))
  {
    ghost var s := a[..];
    var n := a.Length;
    for k := 0 to n / 2
      invariant forall x :: 0 <= x < k ==> a[x] == s[n - 1 - x]
      invariant forall x :: n - k <= x < n ==> a[x] == s[n - 1 - x]
      invariant forall x :: k <= x < n - k ==> a[x] == s[x]
    {
      var front, back := a[k], a[n - 1 - k];
      a[k] := back;
      a[n - 1 - k] := front;
    }
  }

  /** `parse_agent_result(config, result)`, where `ms` is `result["messages"]`
      and `iterated` is what the list branch's loop walks (the keys of
      `result`, as written). */
  method ParseAgentResult(cfg: MessageTables, ms: seq<Message>, iterated: seq<Item>) returns (r: Result<(string, seq<Reference>), ParseError>)
    ensures r == ParseSpec(cfg, ms, iterated)
  {
    if |ms| == 0 {
      return Err(EmptyTranscript);
    }
    var text := ReplyText(ms[|ms| - 1].content, iterated);
    if text.Err? {
      return Err(text.error);
    }
    var groups := ScanTranscript(cfg, ms);
    if groups.Err? {
      return Err(groups.error);
    }
    var flat := FlattenGroups(groups.value);
    var refs := new Reference[|flat|](k requires 0 <= k < |flat| => flat[k]);
    assert refs[..] == flat;
    ReverseInPlace(refs);
    assert ReferencesSpec(cfg, ms) == Ok(refs[..]);
    r := Ok((text.value, refs[..]));
  }

  // ---------------------------------------------------------------------
  // Properties of the reply text

  lemma {:induction false} NonBlankTextsAreNonBlank(items: seq<Item>)
    ensures forall k :: 0 <= k < |NonBlankTexts(items)| ==> Strip(NonBlankTexts(items)[k]) != ""
  {
    if items != [] {
      NonBlankTextsAreNonBlank(items[1..]);
    }
  }

  /** A string content is returned stripped, and the call then fails only
      where the reference scan fails. */
  lemma TextContentStripped(cfg: MessageTables, ms: seq<Message>, iterated: seq<Item>)
    requires |ms| > 0 && ms[|ms| - 1].content.TextContent?
    ensures ParseSpec(cfg, ms, iterated).Ok? <==> ReferencesSpec(cfg, ms).Ok?
    ensures ParseSpec(cfg, ms, iterated).Ok? ==> ParseSpec(cfg, ms, iterated).value.0 == Strip(ms[|ms| - 1].content.text)
  {
  }

  /** A joined list whose first part is not blank strips to a non-empty
      string. */
  lemma JoinedTextNonEmpty(parts: seq<string>)
    requires |parts| > 0 && Strip(parts[0]) != ""
    ensures Strip(Join("\n", parts)) != ""
  {
    StripEmptyIffBlank(parts[0]);
    JoinKeepsNonBlankHead("\n", parts);
    NonBlankStripsNonEmpty(Join("\n", parts));
  }

  /** In the list branch, any non-string item raises; otherwise the text is the
      non-blank strings joined by newlines, or the placeholder when there are
      none, and it is never empty. */
  lemma ListContentReply(items: seq<Item>, iterated: seq<Item>)
    ensures HasNonText(iterated) ==> ContentSpec(ListContent(items), iterated) == Err(UnknownResultItem)
    ensures !HasNonText(iterated) ==>
              var texts := NonBlankTexts(iterated);
              && ContentSpec(ListContent(items), iterated) == Ok(Strip(Join("\n", if texts == [] then [Placeholder] else texts)))
              && ContentSpec(ListContent(items), iterated).value != ""
  {
    KeptFromIsFilter(iterated, 0, []);
    assert iterated[0..] == iterated;
    var texts := NonBlankTexts(iterated);
    if !HasNonText(iterated) {
      assert [] + texts == texts;
      if texts == [] {
        StripUnchanged(Placeholder);
        JoinedTextNonEmpty([Placeholder]);
      } else {
        NonBlankTextsAreNonBlank(iterated);
        JoinedTextNonEmpty(texts);
      }
    }
  }

  /** The reply text as evidently intended: the list branch walks the content's
      own items. */
  function IntendedContent(content: Content): Result<string, ParseError>
  {
    ContentSpec(content, if content.ListContent? then content.items else [])
  }

  /** As written, the list branch replies with the keys of the result mapping:
      a result whose only key is `key` (in practice "messages") and whose last
      content is the list `[text]` yields the reply `key`, where the intended
      reading yields `text`. */
  lemma ListBranchRepliesWithResultKeys(key: string, text: string)
    requires Trimmed(key) && Trimmed(text)
    ensures ContentSpec(ListContent([TextItem(text)]), [TextItem(key)]) == Ok(key)
    ensures IntendedContent(ListContent([TextItem(text)])) == Ok(text)
  {
    SingleWordReply(key);
    SingleWordReply(text);
    ListContentReply([TextItem(text)], [TextItem(key)]);
    ListContentReply([TextItem(text)], [TextItem(text)]);
  }

  lemma SingleWordReply(w: string)
    requires Trimmed(w)
    ensures !HasNonText([TextItem(w)]) && NonBlankTexts([TextItem(w)]) == [w]
    ensures Strip(Join("\n", [w])) == w
  {
    StripUnchanged(w);
    assert NonBlankTexts([TextItem(w)]) == [w] + NonBlankTexts([]);
  }

  /** The intended reply never contains an item that is not in the content: it
      is the content's non-blank strings joined, or the placeholder, and never
      empty. */
  lemma IntendedContentFromItems(items: seq<Item>)
    ensures HasNonText(items) ==> IntendedContent(ListContent(items)) == Err(UnknownResultItem)
    ensures !HasNonText(items) ==>
              var texts := NonBlankTexts(items);
              && IntendedContent(ListContent(items)) == Ok(Strip(Join("\n", if texts == [] then [Placeholder] else texts)))
              && IntendedContent(ListContent(items)).value != ""
  {
    ListContentReply(items, items);
  }

  // ---------------------------------------------------------------------
  // The scan window

  /** The messages the scan acts on, oldest first: the tool messages with a
      non-empty artifact list that come after the most recent human message. */
  function Contributing(ms: seq<Message>): (c: seq<Message>)
    ensures forall k :: 0 <= k < |c| ==> Touches(c[k])
  {
    if ms == [] || ms[|ms| - 1].role.Human? then []
    else if Touches(ms[|ms| - 1]) then Contributing(ms[..|ms| - 1]) + [ms[|ms| - 1]]
    else Contributing(ms[..|ms| - 1])
  }

  /** Everything up to the most recent human message is outside the window. */
  lemma {:induction false} ContributingAfterHuman(a: seq<Message>, h: Message, b: seq<Message>)
    requires h.role.Human?
    ensures Contributing(a + [h] + b) == Contributing(b)
    decreases |b|
  {
    var ms := a + [h] + b;
    if b == [] {
      assert ms[|ms| - 1] == h;
    } else {
      assert ms[..|ms| - 1] == a + [h] + b[..|b| - 1];
      assert ms[|ms| - 1] == b[|b| - 1];
      ContributingAfterHuman(a, h, b[..|b| - 1]);
    }
  }

  /** The scan of `ms[..i]` reads nothing beyond position `i`. */
  lemma {:induction false} ScanReadsPrefix(cfg: MessageTables, ms: seq<Message>, n: nat, i: nat, st: ScanState)
    requires i <= n <= |ms|
    ensures ScanFrom(cfg, ms, i, st) == ScanFrom(cfg, ms[..n], i, st)
    decreases i
  {
    if i > 0 && !ms[i - 1].role.Human? {
      assert ms[..n][i - 1] == ms[i - 1];
      if Touches(ms[i - 1]) {
        match Step(cfg, ms[i - 1].role.name, ms[i - 1].role.artifact.items, st)
        case Err(_) =>
        case Ok(next) => ScanReadsPrefix(cfg, ms, n, i - 1, next);
      } else {
        ScanReadsPrefix(cfg, ms, n, i - 1, st);
      }
    }
  }

  lemma {:induction false} ScanIsScanOfWindow(cfg: MessageTables, ms: seq<Message>, st: ScanState)
    ensures ScanFrom(cfg, ms, |ms|, st) == ScanFrom(cfg, Contributing(ms), |Contributing(ms)|, st)
    decreases |ms|
  {
    if ms != [] && !ms[|ms| - 1].role.Human? {
      var n := |ms| - 1;
      var last := ms[n];
      var init := Contributing(ms[..n]);
      if Touches(last) {
        var c := init + [last];
        assert c[..|init|] == init;
        match Step(cfg, last.role.name, last.role.artifact.items, st)
        case Err(_) =>
        case Ok(next) =>
          ScanReadsPrefix(cfg, ms, n, n, next);
          ScanIsScanOfWindow(cfg, ms[..n], next);
          ScanReadsPrefix(cfg, c, |init|, |init|, next);
      } else {
        ScanReadsPrefix(cfg, ms, n, n, st);
        ScanIsScanOfWindow(cfg, ms[..n], st);
      }
    }
  }

  /** The references depend only on the window: the messages outside it, and
      the messages in it that are not tool messages with a non-empty artifact
      list, change nothing. */
  lemma ReferencesFromWindow(cfg: MessageTables, ms: seq<Message>)
    ensures ReferencesSpec(cfg, ms) == ReferencesSpec(cfg, Contributing(ms))
  {
    ScanIsScanOfWindow(cfg, ms, InitialScan);
  }

  // ---------------------------------------------------------------------
  // Keys carried and kept

  /** The key of a raw artifact whose title and link are strings. */
  function ArtifactKey(name: string, a: RawArtifact): set<string> {
    if a.title.StrField? && a.link.StrField? then {Key(name, a.title.value, a.link.value)} else {}
  }

  /** The keys carried by a list of raw artifacts. */
  function CarriedKeys(name: string, arts: seq<RawArtifact>): set<string>
  {
    if arts == [] then {} else CarriedKeys(name, arts[..|arts| - 1]) + ArtifactKey(name, arts[|arts| - 1])
  }

  function Carried(m: Message): set<string> {
    if Touches(m) then CarriedKeys(m.role.name, m.role.artifact.items) else {}
  }

  /** The keys carried by the messages `c[x..]`. */
  function CarriedFrom(c: seq<Message>, x: nat): set<string>
    decreases |c| - x
  {
    if x >= |c| then {} else Carried(c[x]) + CarriedFrom(c, x + 1)
  }

  /** The keys of kept artifacts, in order. */
  function ArtKeys(name: string, arts: seq<ReferenceArtifact>): seq<string> {
    seq(|arts|, k requires 0 <= k < |arts| => Key(name, arts[k].title, arts[k].link))
  }

  function KeySet(name: string, arts: seq<ReferenceArtifact>): set<string> {
    set k | k in ArtKeys(name, arts)
  }

  /** Every key of a list of references, reference by reference. */
  function AllKeys(refs: seq<Reference>): seq<string> {
    if refs == [] then [] else ArtKeys(refs[0].source, refs[0].artifacts) + AllKeys(refs[1..])
  }

  /** Kept artifacts hold stripped titles and links and no content. */
  predicate Clean(arts: seq<ReferenceArtifact>) {
    forall k :: 0 <= k < |arts| ==> arts[k].content == None && Strip(arts[k].title) == arts[k].title && Strip(arts[k].link) == arts[k].link
  }

  lemma KeyOfStripped(name: string, t: string, l: string)
    ensures Key(name, Strip(t), Strip(l)) == Key(name, t, l)
  {
    StripIdempotent(t);
    StripIdempotent(l);
  }

  lemma CarriedKeysSnoc(name: string, arts: seq<RawArtifact>, j: nat)
    requires j < |arts|
    ensures CarriedKeys(name, arts[..j + 1]) == CarriedKeys(name, arts[..j]) + ArtifactKey(name, arts[j])
  {
    assert arts[..j + 1][..j] == arts[..j];
  }

  lemma ArtKeysSnoc(name: string, kept: seq<ReferenceArtifact>, ra: ReferenceArtifact)
    ensures ArtKeys(name, kept + [ra]) == ArtKeys(name, kept) + [Key(name, ra.title, ra.link)]
  {
  }

  lemma NoDuplicatesSnoc<T>(s: seq<T>, x: T)
    requires NoDuplicates(s) && x !in s
    ensures NoDuplicates(s + [x])
  {
  }

  lemma SetOfSnoc<T>(s: seq<T>, x: T)
    ensures (set y | y in s + [x]) == (set y | y in s) + {x}
  {
  }

  lemma CleanSnoc(kept: seq<ReferenceArtifact>, t: string, l: string)
    requires Clean(kept)
    ensures Clean(kept + [ReferenceArtifact(Strip(t), Strip(l), None)])
  {
    StripIdempotent(t);
    StripIdempotent(l);
  }

  /** Keeping one more artifact whose key is new keeps the kept list clean and
      free of repeated keys, and adds its key. */
  lemma KeepOne(name: string, kept: seq<ReferenceArtifact>, t: string, l: string)
    requires Clean(kept) && NoDuplicates(ArtKeys(name, kept))
    requires Key(name, t, l) !in KeySet(name, kept)
    ensures var kept' := kept + [ReferenceArtifact(Strip(t), Strip(l), None)];
            && Clean(kept') && NoDuplicates(ArtKeys(name, kept'))
            && KeySet(name, kept') == KeySet(name, kept) + {Key(name, t, l)}
  {
    var ra := ReferenceArtifact(Strip(t), Strip(l), None);
    var k := Key(name, t, l);
    KeyOfStripped(name, t, l);
    ArtKeysSnoc(name, kept, ra);
    NoDuplicatesSnoc(ArtKeys(name, kept), k);
    SetOfSnoc(ArtKeys(name, kept), k);
    CleanSnoc(kept, t, l);
  }

  /** What holds of the artifact loop after `arts[..j]`. */
  ghost predicate CollectInv(name: string, arts: seq<RawArtifact>, j: nat, seen0: set<string>, seen: set<string>, kept: seq<ReferenceArtifact>)
    requires j <= |arts|
  {
    && seen == seen0 + CarriedKeys(name, arts[..j])
    && Clean(kept) && NoDuplicates(ArtKeys(name, kept))
    && KeySet(name, kept) == CarriedKeys(name, arts[..j]) - seen0
  }

  /** An artifact whose key, if any, was already seen leaves the loop's facts
      as they were. */
  lemma CollectSkip(name: string, arts: seq<RawArtifact>, j: nat, seen0: set<string>, seen: set<string>, kept: seq<ReferenceArtifact>)
    requires j < |arts| && CollectInv(name, arts, j, seen0, seen, kept)
    requires ArtifactKey(name, arts[j]) <= seen
    ensures CollectInv(name, arts, j + 1, seen0, seen, kept)
  {
    CarriedKeysSnoc(name, arts, j);
  }

  /** An artifact with a new key is kept, stripped, and its key is seen. */
  lemma CollectKeep(name: string, arts: seq<RawArtifact>, j: nat, seen0: set<string>, seen: set<string>, kept: seq<ReferenceArtifact>,
                    t: string, l: string)
    requires j < |arts| && CollectInv(name, arts, j, seen0, seen, kept)
    requires arts[j].title == StrField(t) && arts[j].link == StrField(l) && Key(name, t, l) !in seen
    ensures CollectInv(name, arts, j + 1, seen0, seen + {Key(name, t, l)}, kept + [ReferenceArtifact(Strip(t), Strip(l), None)])
  {
    CarriedKeysSnoc(name, arts, j);
    assert ArtifactKey(name, arts[j]) == {Key(name, t, l)};
    KeepOne(name, kept, t, l);
  }

  /** The artifact loop keeps, once each and stripped, exactly the carried keys
      that were not seen before, and adds every carried key to the seen set. */
  lemma {:induction false} CollectFacts(name: string, arts: seq<RawArtifact>, j: nat, seen0: set<string>, seen: set<string>, kept: seq<ReferenceArtifact>)
    requires j <= |arts| && CollectInv(name, arts, j, seen0, seen, kept)
    ensures CollectFrom(name, arts, j, seen, kept).Ok? ==>
              var c := CollectFrom(name, arts, j, seen, kept).value;
              CollectInv(name, arts, |arts|, seen0, c.seen, c.kept)
    decreases |arts| - j
  {
    if j < |arts| {
      var a := arts[j];
      if a.title.StrField? && a.link.StrField? && Key(name, a.title.value, a.link.value) !in seen {
        var t, l := a.title.value, a.link.value;
        CollectKeep(name, arts, j, seen0, seen, kept, t, l);
        CollectFacts(name, arts, j + 1, seen0, seen + {Key(name, t, l)}, kept + [ReferenceArtifact(Strip(t), Strip(l), None)]);
      } else if !a.title.MissingField? && !(a.title.StrField? && a.link.MissingField?) {
        CollectSkip(name, arts, j, seen0, seen, kept);
        CollectFacts(name, arts, j + 1, seen0, seen, kept);
      }
    }
  }

  // ---------------------------------------------------------------------
  // Sequence facts used by the scan proofs

  lemma {:induction false} AllKeysAppend(a: seq<Reference>, b: seq<Reference>)
    ensures AllKeys(a + b) == AllKeys(a) + AllKeys(b)
  {
    if a != [] {
      assert (a + b)[0] == a[0];
      assert (a + b)[1..] == a[1..] + b;
      AllKeysAppend(a[1..], b);
    } else {
      assert a + b == b;
    }
  }

  /** The references that kept at least one artifact, in order. */
  function NonEmpty(refs: seq<Reference>): seq<Reference>
  {
    if refs == [] then []
    else NonEmpty(refs[..|refs| - 1]) + (if |refs[|refs| - 1].artifacts| > 0 then [refs[|refs| - 1]] else [])
  }

  lemma {:induction false} NonEmptyHasArtifacts(refs: seq<Reference>)
    ensures forall r :: r in NonEmpty(refs) ==> |r.artifacts| > 0 && r in refs
  {
    if refs != [] {
      NonEmptyHasArtifacts(refs[..|refs| - 1]);
    }
  }

  lemma {:induction false} NonEmptyReverse(refs: seq<Reference>)
    ensures NonEmpty(Reverse(refs)) == Reverse(NonEmpty(refs))
    decreases |refs|
  {
    if refs != [] {
      var n := |refs| - 1;
      var last := refs[n];
      var rev := Reverse(refs);
      assert rev == [last] + Reverse(refs[..n]);
      NonEmptyFront(last, Reverse(refs[..n]));
      NonEmptyReverse(refs[..n]);
      var tail := if |last.artifacts| > 0 then [last] else [];
      ReverseAppend(NonEmpty(refs[..n]), tail);
    }
  }

  lemma {:induction false} NonEmptyFront(r: Reference, refs: seq<Reference>)
    ensures NonEmpty([r] + refs) == (if |r.artifacts| > 0 then [r] else []) + NonEmpty(refs)
    decreases |refs|
  {
    if refs != [] {
      var n := |refs| - 1;
      assert ([r] + refs)[..n + 1] == [r] + refs[..n];
      NonEmptyFront(r, refs[..n]);
    }
  }

  lemma {:induction false} ReverseAppend<T>(a: seq<T>, b: seq<T>)
    ensures Reverse(a + b) == Reverse(b) + Reverse(a)
  {
    assert |Reverse(a + b)| == |Reverse(b) + Reverse(a)|;
    forall k | 0 <= k < |a + b|
      ensures Reverse(a + b)[k] == (Reverse(b) + Reverse(a))[k]
    {
      if k < |b| {
        assert Reverse(a + b)[k] == (a + b)[|a| + |b| - 1 - k];
      }
    }
  }

  lemma {:induction false} ReverseMultiset<T>(s: seq<T>)
    ensures multiset(Reverse(s)) == multiset(s)
    decreases |s|
  {
    if s != [] {
      var n := |s| - 1;
      assert Reverse(s) == [s[n]] + Reverse(s[..n]);
      assert s == s[..n] + [s[n]];
      ReverseMultiset(s[..n]);
    }
  }

  lemma {:induction false} AllKeysReverse(refs: seq<Reference>)
    ensures multiset(AllKeys(Reverse(refs))) == multiset(AllKeys(refs))
    decreases |refs|
  {
    if refs != [] {
      var n := |refs| - 1;
      var rev := Reverse(refs);
      assert rev == [refs[n]] + Reverse(refs[..n]);
      AllKeysAppend([refs[n]], Reverse(refs[..n]));
      assert refs == refs[..n] + [refs[n]];
      AllKeysAppend(refs[..n], [refs[n]]);
      AllKeysReverse(refs[..n]);
    }
  }

  lemma {:induction false} FlattenCons(g: Group, groups: seq<Group>)
    ensures Flatten([g] + groups) == g.refs + Flatten(groups)
  {
    assert ([g] + groups)[1..] == groups;
  }

  /** Adding a reference to an existing group inserts it somewhere in the
      flattened list. */
  lemma {:induction false} AddRefInserts(groups: seq<Group>, name: string, ref: Reference) returns (p: nat)
    requires name in Names(groups)
    ensures p <= |Flatten(groups)|
    ensures Flatten(AddRef(groups, name, ref)) == Flatten(groups)[..p] + [ref] + Flatten(groups)[p..]
  {
    var g := groups[0];
    if g.name == name {
      AddRefAtFront(groups, name, ref);
      p := |g.refs|;
    } else {
      var rest := groups[1..];
      NameInRest(groups, name);
      var q := AddRefInserts(rest, name, ref);
      AddRefBehind(groups, name, ref, q);
      p := |g.refs| + q;
    }
  }

  /** The first group is the one named: the reference goes right after its
      own references. */
  lemma AddRefAtFront(groups: seq<Group>, name: string, ref: Reference)
    requires groups != [] && groups[0].name == name
    ensures var f := Flatten(groups);
            |groups[0].refs| <= |f|
            && Flatten(AddRef(groups, name, ref)) == f[..|groups[0].refs|] + [ref] + f[|groups[0].refs|..]
  {
    var g := groups[0];
    var rest := groups[1..];
    assert groups == [g] + rest;
    FlattenCons(g, rest);
    FlattenCons(Group(name, g.refs + [ref]), rest);
  }

  /** A name held by some group but not the first is held by a later one. */
  lemma NameInRest(groups: seq<Group>, name: string)
    requires name in Names(groups) && groups[0].name != name
    ensures name in Names(groups[1..])
  {
    var k :| 0 <= k < |groups| && groups[k].name == name;
    assert groups[1..][k - 1].name == name;
  }

  /** The first group is not the one named: the insertion point in the later
      groups moves back by the first group's references. */
  lemma AddRefBehind(groups: seq<Group>, name: string, ref: Reference, q: nat)
    requires groups != [] && groups[0].name != name
    requires q <= |Flatten(groups[1..])|
    requires Flatten(AddRef(groups[1..], name, ref)) == Flatten(groups[1..])[..q] + [ref] + Flatten(groups[1..])[q..]
    ensures var f := Flatten(groups);
            |groups[0].refs| + q <= |f|
            && Flatten(AddRef(groups, name, ref)) == f[..|groups[0].refs| + q] + [ref] + f[|groups[0].refs| + q..]
  {
    var g := groups[0];
    var rest := groups[1..];
    assert groups == [g] + rest;
    FlattenCons(g, rest);
    FlattenCons(g, AddRef(rest, name, ref));
    InsertBehind(g.refs, Flatten(rest), q, ref);
  }

  /** Inserting at `q` behind a prefix `a` is inserting at `|a| + q`. */
  lemma InsertBehind<T>(a: seq<T>, f: seq<T>, q: nat, x: T)
    requires q <= |f|
    ensures a + (f[..q] + [x] + f[q..]) == (a + f)[..|a| + q] + [x] + (a + f)[|a| + q..]
  {
    assert (a + f)[..|a| + q] == a + f[..q];
    assert (a + f)[|a| + q..] == f[q..];
  }

  /** Adding a reference to the last group, when no other group has its name,
      appends it to the flattened list. */
  lemma {:induction false} AddRefLast(groups: seq<Group>, name: string, ref: Reference)
    requires |groups| > 0 && groups[|groups| - 1].name == name
    requires forall k :: 0 <= k < |groups| - 1 ==> groups[k].name != name
    ensures Flatten(AddRef(groups, name, ref)) == Flatten(groups) + [ref]
  {
    var g := groups[0];
    var rest := groups[1..];
    assert groups == [g] + rest;
    FlattenCons(g, rest);
    if |groups| == 1 {
      FlattenCons(Group(name, g.refs + [ref]), rest);
    } else {
      AddRefLast(rest, name, ref);
      FlattenCons(g, AddRef(rest, name, ref));
    }
  }

  lemma {:induction false} AddRefKeepsNames(groups: seq<Group>, name: string, ref: Reference)
    ensures Names(AddRef(groups, name, ref)) == Names(groups)
  {
    AddRefNameAt(groups, name, ref);
  }

  /** Adding a reference changes no group's name or position. */
  lemma {:induction false} AddRefNameAt(groups: seq<Group>, name: string, ref: Reference)
    ensures |AddRef(groups, name, ref)| == |groups|
    ensures forall k :: 0 <= k < |groups| ==> AddRef(groups, name, ref)[k].name == groups[k].name
  {
    if groups != [] && groups[0].name != name {
      var rest := groups[1..];
      AddRefNameAt(rest, name, ref);
      var a := AddRef(groups, name, ref);
      forall k | 1 <= k < |groups|
        ensures a[k].name == groups[k].name
      {
        assert a[k] == AddRef(rest, name, ref)[k - 1] && groups[k] == rest[k - 1];
      }
    }
  }

  lemma MultisetOfDisjointSets<T>(a: set<T>, b: set<T>)
    requires a !! b
    ensures multiset(a + b) == multiset(a) + multiset(b)
  {
    assert forall x :: multiset(a + b)[x] == (multiset(a) + multiset(b))[x];
  }

  lemma {:induction false} NoDuplicatesMultiset<T>(s: seq<T>)
    requires NoDuplicates(s)
    ensures multiset(s) == multiset(set x | x in s)
  {
    if s != [] {
      var rest := s[1..];
      assert s == [s[0]] + rest;
      NoDuplicatesMultiset(rest);
      assert s[0] !in rest;
      assert (set x | x in s) == {s[0]} + (set x | x in rest);
      MultisetOfDisjointSets({s[0]}, set x | x in rest);
    }
  }

  /** A sequence with the multiset of a set holds no value twice. */
  lemma MultisetOfSetNoDuplicates<T>(s: seq<T>, a: set<T>)
    requires multiset(s) == multiset(a)
    ensures NoDuplicates(s)
  {
    forall i, j | 0 <= i < j < |s| ensures s[i] != s[j] {
      assert s == s[..j] + s[j..];
      assert multiset(s)[s[j]] == multiset(s[..j])[s[j]] + multiset(s[j..])[s[j]];
      assert s[j..][0] == s[j];
      assert s[..j][i] == s[i];
    }
  }

  // ---------------------------------------------------------------------
  // The scan over the window

  predicate AllTouch(c: seq<Message>) {
    forall k :: 0 <= k < |c| ==> Touches(c[k])
  }

  /** The reference built for the window's message `c[x]`: the configured
      title, the tool's name as source, the tool's configured icon, stripped
      artifacts without content, each key once, and exactly the keys `c[x]`
      carries that no newer message of the window carries. */
  ghost predicate MadeFor(cfg: MessageTables, c: seq<Message>, x: nat, ref: Reference)
    requires x < |c|
  {
    && GetMessage(cfg, ArtifactTitleKey) == Ok(ref.title)
    && c[x].role.Tool? && ref.source == c[x].role.name
    && GetEmoji(cfg, ref.source + IconSuffix) == Ok(ref.iconEmoji)
    && Clean(ref.artifacts)
    && NoDuplicates(ArtKeys(ref.source, ref.artifacts))
    && KeySet(ref.source, ref.artifacts) == Carried(c[x]) - CarriedFrom(c, x + 1)
  }

  /** `made[t]` is the reference built for the window's message `c[|c| - 1 - t]`. */
  ghost predicate MadeInv(cfg: MessageTables, c: seq<Message>, i: nat, made: seq<Reference>)
  {
    && |made| == |c| - i
    && (forall t :: 0 <= t < |made| ==> MadeFor(cfg, c, |c| - 1 - t, made[t]))
  }

  /** What holds after the scan has processed `c[i..]`. */
  ghost predicate ScanInv(cfg: MessageTables, c: seq<Message>, i: nat, st: ScanState)
  {
    && i <= |c|
    && st.seen == CarriedFrom(c, i)
    && MadeInv(cfg, c, i, st.made)
    && multiset(Flatten(st.groups)) == multiset(NonEmpty(st.made))
    && multiset(AllKeys(Flatten(st.groups))) == multiset(st.seen)
  }

  lemma NonEmptySnoc(made: seq<Reference>, ref: Reference)
    ensures NonEmpty(made + [ref]) == NonEmpty(made) + (if |ref.artifacts| > 0 then [ref] else [])
  {
    assert (made + [ref])[..|made|] == made;
  }

  /** Adding a reference to an existing group adds it, and its keys, to the
      flattened list's multisets. */
  lemma AddRefMultisets(groups: seq<Group>, name: string, ref: Reference)
    requires name in Names(groups)
    ensures multiset(Flatten(AddRef(groups, name, ref))) == multiset(Flatten(groups)) + multiset{ref}
    ensures multiset(AllKeys(Flatten(AddRef(groups, name, ref))))
            == multiset(AllKeys(Flatten(groups))) + multiset(ArtKeys(ref.source, ref.artifacts))
  {
    var f := Flatten(groups);
    var p := AddRefInserts(groups, name, ref);
    assert f == f[..p] + f[p..];
    AllKeysAppend(f[..p], f[p..]);
    AllKeysAppend(f[..p] + [ref], f[p..]);
    AllKeysAppend(f[..p], [ref]);
    assert AllKeys([ref]) == ArtKeys(ref.source, ref.artifacts) + AllKeys([]);
  }

  /** The keys newly kept, once each, are exactly the keys newly seen. */
  lemma SeenGrowsByKept(seen: set<string>, seen': set<string>, name: string, kept: seq<ReferenceArtifact>)
    requires seen <= seen' && NoDuplicates(ArtKeys(name, kept)) && KeySet(name, kept) == seen' - seen
    ensures multiset(seen) + multiset(ArtKeys(name, kept)) == multiset(seen')
  {
    NoDuplicatesMultiset(ArtKeys(name, kept));
    MultisetOfDisjointSets(seen, seen' - seen);
    assert seen + (seen' - seen) == seen';
  }

  /** The reference built for `c[i - 1]` by a successful step. */
  lemma StepBuilds(cfg: MessageTables, c: seq<Message>, i: nat, st: ScanState)
    requires AllTouch(c) && 0 < i <= |c| && st.seen == CarriedFrom(c, i)
    requires Step(cfg, c[i - 1].role.name, c[i - 1].role.artifact.items, st).Ok?
    ensures var next := Step(cfg, c[i - 1].role.name, c[i - 1].role.artifact.items, st).value;
            && |next.made| == |st.made| + 1 && next.made[..|st.made|] == st.made
            && MadeFor(cfg, c, i - 1, next.made[|st.made|])
            && next.seen == CarriedFrom(c, i - 1)
            && st.seen <= next.seen
            && KeySet(c[i - 1].role.name, next.made[|st.made|].artifacts) == next.seen - st.seen
  {
    var name := c[i - 1].role.name;
    var arts := c[i - 1].role.artifact.items;
    assert arts[..0] == [];
    CollectFacts(name, arts, 0, st.seen, st.seen, []);
    assert arts[..|arts|] == arts;
  }

  /** The groups after a successful step, in terms of the groups before it. */
  lemma StepGroups(cfg: MessageTables, name: string, arts: seq<RawArtifact>, st: ScanState)
    requires Step(cfg, name, arts, st).Ok?
    ensures var next := Step(cfg, name, arts, st).value;
            var ref := next.made[|next.made| - 1];
            var groups0 := WithGroup(st.groups, name);
            && next.made == st.made + [ref]
            && ref.source == name
            && Flatten(groups0) == Flatten(st.groups)
            && name in Names(groups0)
            && next.groups == if |ref.artifacts| > 0 then AddRef(groups0, name, ref) else groups0
  {
    var groups0 := WithGroup(st.groups, name);
    var title := GetMessage(cfg, ArtifactTitleKey).value;
    var icon := GetEmoji(cfg, name + IconSuffix).value;
    var col := CollectFrom(name, arts, 0, st.seen, []).value;
    var ref := Reference(title, name, icon, col.kept);
    assert Step(cfg, name, arts, st)
        == Ok(ScanState(if |col.kept| > 0 then AddRef(groups0, name, ref) else groups0, col.seen, st.made + [ref]));
    if name !in Names(st.groups) {
      FlattenSnoc(st.groups, Group(name, []));
      assert Names(groups0)[|st.groups|] == name;
    }
  }

  lemma MadeInvSnoc(cfg: MessageTables, c: seq<Message>, i: nat, made: seq<Reference>, ref: Reference)
    requires 0 < i <= |c| && MadeInv(cfg, c, i, made) && MadeFor(cfg, c, i - 1, ref)
    ensures MadeInv(cfg, c, i - 1, made + [ref])
  {
    forall t | 0 <= t < |made| + 1 ensures MadeFor(cfg, c, |c| - 1 - t, (made + [ref])[t]) {
      if t < |made| {
        assert (made + [ref])[t] == made[t];
      }
    }
  }

  /** The two multiset facts of the scan invariant survive a step. */
  lemma StepMultisets(groups: seq<Group>, groups0: seq<Group>, groups': seq<Group>, ref: Reference,
                      made: seq<Reference>, seen: set<string>, seen': set<string>)
    requires Flatten(groups0) == Flatten(groups) && ref.source in Names(groups0)
    requires groups' == if |ref.artifacts| > 0 then AddRef(groups0, ref.source, ref) else groups0
    requires multiset(Flatten(groups)) == multiset(NonEmpty(made))
    requires multiset(AllKeys(Flatten(groups))) == multiset(seen)
    requires seen <= seen' && NoDuplicates(ArtKeys(ref.source, ref.artifacts))
    requires KeySet(ref.source, ref.artifacts) == seen' - seen
    ensures multiset(Flatten(groups')) == multiset(NonEmpty(made + [ref]))
    ensures multiset(AllKeys(Flatten(groups'))) == multiset(seen')
  {
    NonEmptySnoc(made, ref);
    SeenGrowsByKept(seen, seen', ref.source, ref.artifacts);
    if |ref.artifacts| > 0 {
      AddRefMultisets(groups0, ref.source, ref);
    } else {
      assert ArtKeys(ref.source, ref.artifacts) == [];
    }
  }

  lemma StepKeepsInv(cfg: MessageTables, c: seq<Message>, i: nat, st: ScanState)
    requires AllTouch(c) && 0 < i && ScanInv(cfg, c, i, st)
    requires Step(cfg, c[i - 1].role.name, c[i - 1].role.artifact.items, st).Ok?
    ensures ScanInv(cfg, c, i - 1, Step(cfg, c[i - 1].role.name, c[i - 1].role.artifact.items, st).value)
  {
    var name := c[i - 1].role.name;
    var arts := c[i - 1].role.artifact.items;
    var next := Step(cfg, name, arts, st).value;
    StepBuilds(cfg, c, i, st);
    StepGroups(cfg, name, arts, st);
    var ref := next.made[|st.made|];
    var groups0 := WithGroup(st.groups, name);
    MadeInvSnoc(cfg, c, i, st.made, ref);
    StepMultisets(st.groups, groups0, next.groups, ref, st.made, st.seen, next.seen);
  }

  lemma {:induction false} ScanKeepsInv(cfg: MessageTables, c: seq<Message>, i: nat, st: ScanState)
    requires AllTouch(c) && ScanInv(cfg, c, i, st)
    ensures ScanFrom(cfg, c, i, st).Ok? ==> ScanInv(cfg, c, 0, ScanFrom(cfg, c, i, st).value)
    decreases i
  {
    if i > 0 {
      assert Touches(c[i - 1]) && !c[i - 1].role.Human?;
      var r := Step(cfg, c[i - 1].role.name, c[i - 1].role.artifact.items, st);
      if r.Ok? {
        StepKeepsInv(cfg, c, i, st);
        ScanKeepsInv(cfg, c, i - 1, r.value);
        assert ScanFrom(cfg, c, i, st) == ScanFrom(cfg, c, i - 1, r.value);
      }
    }
  }

  /** The scan over a window ends in the invariant's final state. */
  lemma WindowScan(cfg: MessageTables, ms: seq<Message>)
    ensures ScanFrom(cfg, ms, |ms|, InitialScan).Ok? ==>
              ScanInv(cfg, Contributing(ms), 0, ScanFrom(cfg, ms, |ms|, InitialScan).value)
  {
    var c := Contributing(ms);
    ScanIsScanOfWindow(cfg, ms, InitialScan);
    assert ScanInv(cfg, c, |c|, InitialScan);
    ScanKeepsInv(cfg, c, |c|, InitialScan);
  }

  // ---------------------------------------------------------------------
  // What the references are

  /** The references returned are, in some order, the references built for the
      window's messages, oldest first, leaving out those that kept no artifact:
      each carries the configured title and icon, its tool's name as source,
      stripped artifacts, and exactly the keys its message carries that no
      newer message of the window carries, so a repeated artifact survives only
      under the most recent tool message that carries it. */
  lemma ReferencesAreMadeForWindow(cfg: MessageTables, ms: seq<Message>)
    ensures ReferencesSpec(cfg, ms).Ok? ==>
              var c := Contributing(ms);
              exists made: seq<Reference> ::
                && |made| == |c|
                && (forall x :: 0 <= x < |c| ==> MadeFor(cfg, c, x, made[x]))
                && multiset(ReferencesSpec(cfg, ms).value) == multiset(NonEmpty(made))
  {
    if ReferencesSpec(cfg, ms).Ok? {
      var c := Contributing(ms);
      var fin := ScanFrom(cfg, ms, |ms|, InitialScan).value;
      WindowScan(cfg, ms);
      assert ReferencesSpec(cfg, ms).value == Reverse(Flatten(fin.groups));
      var made := FinalMadeOldestFirst(cfg, c, fin);
    }
  }

  /** The final scan state, read oldest message first. */
  lemma FinalMadeOldestFirst(cfg: MessageTables, c: seq<Message>, fin: ScanState) returns (made: seq<Reference>)
    requires ScanInv(cfg, c, 0, fin)
    ensures made == Reverse(fin.made) && |made| == |c|
    ensures forall x :: 0 <= x < |c| ==> MadeFor(cfg, c, x, made[x])
    ensures multiset(Reverse(Flatten(fin.groups))) == multiset(NonEmpty(made))
  {
    made := Reverse(fin.made);
    assert MadeInv(cfg, c, 0, fin.made);
    ReverseMadeInv(cfg, c, fin.made);
    ReversedMultisets(Flatten(fin.groups), fin.made);
  }

  lemma ReverseMadeInv(cfg: MessageTables, c: seq<Message>, made: seq<Reference>)
    requires MadeInv(cfg, c, 0, made)
    ensures forall x :: 0 <= x < |c| ==> MadeFor(cfg, c, x, Reverse(made)[x])
  {
    forall x | 0 <= x < |c| ensures MadeFor(cfg, c, x, Reverse(made)[x]) {
      var t := |c| - 1 - x;
      assert Reverse(made)[x] == made[t];
      assert |c| - 1 - t == x;
      assert MadeFor(cfg, c, |c| - 1 - t, made[t]);
    }
  }

  lemma ReversedMultisets(flat: seq<Reference>, made: seq<Reference>)
    requires multiset(flat) == multiset(NonEmpty(made))
    ensures multiset(Reverse(flat)) == multiset(NonEmpty(Reverse(made)))
  {
    ReverseMultiset(flat);
    NonEmptyReverse(made);
    ReverseMultiset(NonEmpty(made));
  }

  /** No returned reference is empty, and each one's source is a tool message
      of the window. */
  lemma ReferencesNonEmpty(cfg: MessageTables, ms: seq<Message>)
    ensures ReferencesSpec(cfg, ms).Ok? ==>
              forall r :: r in ReferencesSpec(cfg, ms).value ==>
                |r.artifacts| > 0 && r.source in ToolNames(Contributing(ms))
  {
    if ReferencesSpec(cfg, ms).Ok? {
      var c := Contributing(ms);
      var out := ReferencesSpec(cfg, ms).value;
      var fin := ScanFrom(cfg, ms, |ms|, InitialScan).value;
      WindowScan(cfg, ms);
      assert out == Reverse(Flatten(fin.groups));
      var made := FinalMadeOldestFirst(cfg, c, fin);
      OnlyNonEmptyMade(made, out);
      forall r | r in out ensures r.source in ToolNames(c) {
        var x :| 0 <= x < |made| && made[x] == r;
        assert MadeFor(cfg, c, x, made[x]);
        assert ToolNames(c)[x] == r.source;
      }
    }
  }

  lemma OnlyNonEmptyMade(made: seq<Reference>, out: seq<Reference>)
    requires multiset(out) == multiset(NonEmpty(made))
    ensures forall r :: r in out ==> |r.artifacts| > 0 && r in made
  {
    NonEmptyHasArtifacts(made);
    forall r | r in out ensures |r.artifacts| > 0 && r in made {
      assert r in multiset(out);
      assert r in NonEmpty(made);
    }
  }

  /** Across the whole output no two artifacts share a key, and the keys
      present are exactly those carried by the window's messages. */
  lemma ReferenceKeysUniqueAndComplete(cfg: MessageTables, ms: seq<Message>)
    ensures ReferencesSpec(cfg, ms).Ok? ==>
              && NoDuplicates(AllKeys(ReferencesSpec(cfg, ms).value))
              && forall k :: k in AllKeys(ReferencesSpec(cfg, ms).value) <==> k in CarriedFrom(Contributing(ms), 0)
  {
    if ReferencesSpec(cfg, ms).Ok? {
      var fin := ScanFrom(cfg, ms, |ms|, InitialScan).value;
      WindowScan(cfg, ms);
      AllKeysReverse(Flatten(fin.groups));
      var keys := AllKeys(ReferencesSpec(cfg, ms).value);
      MultisetOfSetNoDuplicates(keys, fin.seen);
      forall k ensures k in keys <==> k in fin.seen {
        assert k in keys <==> k in multiset(keys);
      }
    }
  }

  /** Key collisions: a title `a](b` with link `c` and a title `a` with link
      `b](c` give the same key, so the second artifact is dropped as a
      duplicate of the first although it is a different artifact. */
  lemma DistinctArtifactsCanShareKey(name: string, a: string, b: string, c: string)
    requires Trimmed(a) && Trimmed(b) && Trimmed(c)
    ensures a + "](" + b != a
    ensures Key(name, a + "](" + b, c) == Key(name, a, b + "](" + c)
  {
    var x, y := a + "](" + b, b + "](" + c;
    assert x[0] == a[0] && x[|x| - 1] == b[|b| - 1];
    assert y[0] == b[0] && y[|y| - 1] == c[|c| - 1];
    StripUnchanged(x);
    StripUnchanged(y);
    StripUnchanged(a);
    StripUnchanged(c);
    assert Strip(name) + ": [" + x + "](" + c + ")" == Strip(name) + ": [" + a + "](" + y + ")";
  }

  // ---------------------------------------------------------------------
  // Order

  function ToolNames(c: seq<Message>): seq<string>
    requires AllTouch(c)
  {
    seq(|c|, k requires 0 <= k < |c| => c[k].role.name)
  }

  /** Each tool's messages form one contiguous run. */
  predicate Contiguous(names: seq<string>) {
    forall a, b, c :: 0 <= a < b < c < |names| && names[a] == names[c] ==> names[b] == names[a]
  }

  ghost predicate ChronoInv(c: seq<Message>, i: nat, st: ScanState)
    requires AllTouch(c) && i <= |c|
  {
    && NoDuplicates(Names(st.groups))
    && (forall n :: n in Names(st.groups) <==> n in ToolNames(c)[i..])
    && (i < |c| ==> |st.groups| > 0 && st.groups[|st.groups| - 1].name == c[i].role.name)
    && Flatten(st.groups) == NonEmpty(st.made)
  }

  /** With contiguous runs, the step's tool is either new or the last group's. */
  lemma ChronoNames(c: seq<Message>, i: nat, groups: seq<Group>)
    requires AllTouch(c) && 0 < i <= |c| && Contiguous(ToolNames(c))
    requires NoDuplicates(Names(groups))
    requires forall n :: n in Names(groups) <==> n in ToolNames(c)[i..]
    requires i < |c| ==> |groups| > 0 && groups[|groups| - 1].name == c[i].role.name
    ensures var name := c[i - 1].role.name;
            var groups0 := WithGroup(groups, name);
            && NoDuplicates(Names(groups0))
            && (forall n :: n in Names(groups0) <==> n in ToolNames(c)[i - 1..])
            && |groups0| > 0 && groups0[|groups0| - 1].name == name
            && forall k :: 0 <= k < |groups0| - 1 ==> groups0[k].name != name
  {
    var names := ToolNames(c);
    var name := c[i - 1].role.name;
    var groups0 := WithGroup(groups, name);
    assert names[i - 1..] == [name] + names[i..];
    assert forall n :: n in names[i - 1..] <==> n == name || n in names[i..];
    if name in Names(groups) {
      assert groups0 == groups;
      ChronoNamesSeen(c, i, groups);
    } else {
      assert groups0 == groups + [Group(name, [])];
      ChronoNamesNew(c, i, groups);
    }
  }

  /** A tool already grouped is, by contiguity, the last group's. */
  lemma ChronoNamesSeen(c: seq<Message>, i: nat, groups: seq<Group>)
    requires AllTouch(c) && 0 < i <= |c| && Contiguous(ToolNames(c))
    requires NoDuplicates(Names(groups))
    requires forall n :: n in Names(groups) <==> n in ToolNames(c)[i..]
    requires i < |c| ==> |groups| > 0 && groups[|groups| - 1].name == c[i].role.name
    requires c[i - 1].role.name in Names(groups)
    ensures |groups| > 0 && groups[|groups| - 1].name == c[i - 1].role.name
    ensures forall k :: 0 <= k < |groups| - 1 ==> groups[k].name != c[i - 1].role.name
  {
    var names := ToolNames(c);
    var name := c[i - 1].role.name;
    assert name in names[i..];
    var q :| 0 <= q < |names[i..]| && names[i..][q] == name;
    assert names[i + q] == name;
    if q > 0 {
      assert names[i] == names[i - 1];
    }
    var ns := Names(groups);
    assert ns[|groups| - 1] == name;
  }

  /** A new tool gets a group of its own at the end. */
  lemma ChronoNamesNew(c: seq<Message>, i: nat, groups: seq<Group>)
    requires AllTouch(c) && 0 < i <= |c|
    requires NoDuplicates(Names(groups))
    requires c[i - 1].role.name !in Names(groups)
    ensures Names(groups + [Group(c[i - 1].role.name, [])]) == Names(groups) + [c[i - 1].role.name]
    ensures NoDuplicates(Names(groups + [Group(c[i - 1].role.name, [])]))
    ensures forall k :: 0 <= k < |groups| ==> groups[k].name != c[i - 1].role.name
  {
    var name := c[i - 1].role.name;
    assert Names(groups + [Group(name, [])]) == Names(groups) + [name];
    forall k | 0 <= k < |groups|
      ensures groups[k].name != name
    {
      assert Names(groups)[k] == groups[k].name;
    }
  }

  /** Adding the step's reference to the last group keeps the flattened list
      equal to the non-empty references in scan order. */
  lemma ChronoGroupsStep(groups0: seq<Group>, groups': seq<Group>, ref: Reference, made: seq<Reference>)
    requires |groups0| > 0 && groups0[|groups0| - 1].name == ref.source
    requires forall k :: 0 <= k < |groups0| - 1 ==> groups0[k].name != ref.source
    requires groups' == if |ref.artifacts| > 0 then AddRef(groups0, ref.source, ref) else groups0
    requires Flatten(groups0) == NonEmpty(made)
    ensures Names(groups') == Names(groups0)
    ensures Flatten(groups') == NonEmpty(made + [ref])
  {
    NonEmptySnoc(made, ref);
    if |ref.artifacts| > 0 {
      AddRefLast(groups0, ref.source, ref);
      AddRefKeepsNames(groups0, ref.source, ref);
    }
  }

  lemma StepKeepsChrono(cfg: MessageTables, c: seq<Message>, i: nat, st: ScanState)
    requires AllTouch(c) && 0 < i <= |c| && Contiguous(ToolNames(c)) && ChronoInv(c, i, st)
    requires Step(cfg, c[i - 1].role.name, c[i - 1].role.artifact.items, st).Ok?
    ensures ChronoInv(c, i - 1, Step(cfg, c[i - 1].role.name, c[i - 1].role.artifact.items, st).value)
  {
    var name := c[i - 1].role.name;
    var groups0 := WithGroup(st.groups, name);
    StepGroups(cfg, name, c[i - 1].role.artifact.items, st);
    ChronoNames(c, i, st.groups);
    ChronoAfterStep(c, i, groups0, st.made, Step(cfg, name, c[i - 1].role.artifact.items, st).value);
  }

  lemma ChronoAfterStep(c: seq<Message>, i: nat, groups0: seq<Group>, made: seq<Reference>, next: ScanState)
    requires AllTouch(c) && 0 < i <= |c|
    requires NoDuplicates(Names(groups0))
    requires forall n :: n in Names(groups0) <==> n in ToolNames(c)[i - 1..]
    requires |groups0| > 0 && groups0[|groups0| - 1].name == c[i - 1].role.name
    requires forall k :: 0 <= k < |groups0| - 1 ==> groups0[k].name != c[i - 1].role.name
    requires Flatten(groups0) == NonEmpty(made)
    requires |next.made| > 0
    requires var ref := next.made[|next.made| - 1];
             && next.made == made + [ref]
             && ref.source == c[i - 1].role.name
             && next.groups == if |ref.artifacts| > 0 then AddRef(groups0, ref.source, ref) else groups0
    ensures ChronoInv(c, i - 1, next)
  {
    ChronoGroupsStep(groups0, next.groups, next.made[|next.made| - 1], made);
    assert next.groups[|next.groups| - 1].name == Names(next.groups)[|next.groups| - 1];
  }

  lemma {:induction false} ScanKeepsChrono(cfg: MessageTables, c: seq<Message>, i: nat, st: ScanState)
    requires AllTouch(c) && i <= |c| && Contiguous(ToolNames(c)) && ChronoInv(c, i, st)
    ensures ScanFrom(cfg, c, i, st).Ok? ==> ChronoInv(c, 0, ScanFrom(cfg, c, i, st).value)
    decreases i
  {
    if i > 0 {
      assert Touches(c[i - 1]) && !c[i - 1].role.Human?;
      var r := Step(cfg, c[i - 1].role.name, c[i - 1].role.artifact.items, st);
      if r.Ok? {
        StepKeepsChrono(cfg, c, i, st);
        ScanKeepsChrono(cfg, c, i - 1, r.value);
        assert ScanFrom(cfg, c, i, st) == ScanFrom(cfg, c, i - 1, r.value);
      }
    }
  }

  /** When each tool's messages in the window are contiguous, the references
      come out in transcript order: exactly the non-empty references built for
      the window's messages, oldest first. */
  lemma ReferencesChronologicalWhenContiguous(cfg: MessageTables, ms: seq<Message>)
    requires Contiguous(ToolNames(Contributing(ms)))
    ensures ReferencesSpec(cfg, ms).Ok? ==>
              var c := Contributing(ms);
              exists made: seq<Reference> ::
                && |made| == |c|
                && (forall x :: 0 <= x < |c| ==> MadeFor(cfg, c, x, made[x]))
                && ReferencesSpec(cfg, ms).value == NonEmpty(made)
  {
    if ReferencesSpec(cfg, ms).Ok? {
      var c := Contributing(ms);
      var fin := ScanFrom(cfg, ms, |ms|, InitialScan).value;
      WindowScan(cfg, ms);
      WindowChrono(cfg, ms);
      assert ReferencesSpec(cfg, ms).value == Reverse(Flatten(fin.groups));
      var made := FinalMadeOldestFirst(cfg, c, fin);
      NonEmptyReverse(fin.made);
    }
  }

  /** With contiguous runs, the scan over a window ends in the order
      invariant's final state. */
  lemma WindowChrono(cfg: MessageTables, ms: seq<Message>)
    requires Contiguous(ToolNames(Contributing(ms)))
    ensures ScanFrom(cfg, ms, |ms|, InitialScan).Ok? ==>
              Flatten(ScanFrom(cfg, ms, |ms|, InitialScan).value.groups)
              == NonEmpty(ScanFrom(cfg, ms, |ms|, InitialScan).value.made)
  {
    var c := Contributing(ms);
    ScanIsScanOfWindow(cfg, ms, InitialScan);
    assert ToolNames(c)[|c|..] == [];
    ScanKeepsChrono(cfg, c, |c|, InitialScan);
  }
}
