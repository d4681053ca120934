/** The conversion of an MCP tool call's result into a tool's content and
    artifact, which the application installs in place of the adapter's own:
    text items become the content, embedded JSON text resources become the
    artifact, anything else is dropped, and an error result raises. */
module McpResult {
  import opened Common

  /** The contents of an embedded resource: text with its MIME type, or
      binary data. */
  datatype ResourceContents = TextResource(mimeType: Option<string>, text: string) | BlobResource

  /** One item of a tool call's content. `OtherContent` stands for images,
      audio and resource links. */
  datatype ToolContent = TextContent(text: string) | EmbeddedResource(resource: ResourceContents) | OtherContent

  const JsonMimeType := "application/json"

  /** An item whose text is parsed as JSON into the artifact. */
  predicate IsJsonResource(c: ToolContent) {
    c.EmbeddedResource? && c.resource.TextResource? && c.resource.mimeType == Some(JsonMimeType)
  }

  /** The content handed back: a bare string when there is exactly one text,
      a list of them otherwise. */
  datatype ToolOutput = Single(text: string) | Many(texts: seq<string>)

  /** What escapes the conversion: the JSON parser's error, or the
      `ToolException` of an error result carrying the content. */
  datatype ConvertError = JsonDecodeError(message: string) | ToolException(content: ToolOutput)

  /** The texts of the text items, in order. */
  function TextsOf(cs: seq<ToolContent>): seq<string>
  {
    if cs == [] then []
    else (if cs[0].TextContent? then [cs[0].text] else []) + TextsOf(cs[1..])
  }

  /** The texts of the JSON resources, in order. */
  function JsonTextsOf(cs: seq<ToolContent>): seq<string>
  {
    if cs == [] then []
    else (if IsJsonResource(cs[0]) then [cs[0].resource.text] else []) + JsonTextsOf(cs[1..])
  }

  /** The loop over the items, one at a time from the front: the texts and
      the parsed resources so far, or the first parse error. */
  function Partition<J>(cs: seq<ToolContent>, loads: string -> Result<J, string>): Result<(seq<string>, seq<J>), string>
    decreases |cs|
  {
    if cs == [] then Ok(([], []))
    else match Partition(cs[..|cs| - 1], loads)
      case Err(e) => Err(e)
      case Ok(p) =>
        var c := cs[|cs| - 1];
        if c.TextContent? then Ok((p.0 + [c.text], p.1))
        else if IsJsonResource(c) then
          match loads(c.resource.text)
          case Err(e) => Err(e)
          case Ok(v) => Ok((p.0, p.1 + [v]))
        else Ok(p)
  }

  /** `[c.text for c in text_contents]`, a bare string when it has one
      element. */
  function Output(texts: seq<string>): (r: ToolOutput)
    ensures |texts| == 1 <==> r.Single?
    ensures r.Single? ==> r.text == texts[0]
    ensures r.Many? ==> r.texts == texts
  {
    if |texts| == 1 then Single(texts[0]) else Many(texts)
  }

  /** `_convert_call_tool_result`. `loads` is the JSON parser. */
  function ConvertSpec<J>(cs: seq<ToolContent>, isError: bool, loads: string -> Result<J, string>): Result<(ToolOutput, Option<seq<J>>), ConvertError>
  {
    match Partition(cs, loads)
    case Err(e) => Err(JsonDecodeError(e))
    case Ok(p) =>
      if isError then Err(ToolException(Output(p.0)))
      else Ok((Output(p.0), if p.1 == [] then None else Some(p.1)))
  }

  lemma {:induction false} TextsOfSnoc(cs: seq<ToolContent>, c: ToolContent)
    ensures TextsOf(cs + [c]) == TextsOf(cs) + (if c.TextContent? then [c.text] else [])
    ensures JsonTextsOf(cs + [c]) == JsonTextsOf(cs) + (if IsJsonResource(c) then [c.resource.text] else [])
    decreases |cs|
  {
    if cs == [] {
      assert cs + [c] == [c];
      assert [c][1..] == [];
    } else {
      assert (cs + [c])[0] == cs[0];
      assert (cs + [c])[1..] == cs[1..] + [c];
      TextsOfSnoc(cs[1..], c);
    }
  }

  /** The loop keeps every text item's text in order, parses every JSON
      resource in order and drops everything else; it fails iff one of the
      JSON texts does not parse. */
  lemma {:induction false} PartitionKeepsOrder<J>(cs: seq<ToolContent>, loads: string -> Result<J, string>)
    ensures Partition(cs, loads).Ok? <==> forall t :: t in JsonTextsOf(cs) ==> loads(t).Ok?
    ensures Partition(cs, loads).Ok? ==>
              && Partition(cs, loads).value.0 == TextsOf(cs)
              && |Partition(cs, loads).value.1| == |JsonTextsOf(cs)|
              && forall k :: 0 <= k < |JsonTextsOf(cs)| ==> Partition(cs, loads).value.1[k] == loads(JsonTextsOf(cs)[k]).value
    decreases |cs|
  {
    if cs != [] {
      var init := cs[..|cs| - 1];
      var c := cs[|cs| - 1];
      assert cs == init + [c];
      PartitionKeepsOrder(init, loads);
      TextsOfSnoc(init, c);
      var js := JsonTextsOf(init);
      assert forall t :: t in JsonTextsOf(cs) <==> t in js || (IsJsonResource(c) && t == c.resource.text);
    }
  }

  /** The texts of a sequence of items split in two are those of the first
      part followed by those of the second. */
  lemma {:induction false} TextsOfAppend(a: seq<ToolContent>, b: seq<ToolContent>)
    ensures TextsOf(a + b) == TextsOf(a) + TextsOf(b)
    decreases |a|
  {
    if a == [] {
      assert a + b == b;
    } else {
      assert (a + b)[1..] == a[1..] + b;
      TextsOfAppend(a[1..], b);
    }
  }

  /** The properties the conversion promises: the content is the texts in
      order, a bare string iff there is exactly one; an error result raises
      with that content; the artifact is absent iff there is no JSON
      resource. */
  lemma ConvertOutcome<J>(cs: seq<ToolContent>, isError: bool, loads: string -> Result<J, string>)
    requires forall t :: t in JsonTextsOf(cs) ==> loads(t).Ok?
    ensures isError ==> ConvertSpec(cs, isError, loads) == Err(ToolException(Output(TextsOf(cs))))
    ensures !isError ==> ConvertSpec(cs, isError, loads).Ok?
                         && ConvertSpec(cs, isError, loads).value.0 == Output(TextsOf(cs))
                         && (ConvertSpec(cs, isError, loads).value.1.None? <==> JsonTextsOf(cs) == [])
  {
    PartitionKeepsOrder(cs, loads);
  }

  /** The conversion as the source writes it: the item loop, then the
      content, then the error check. */
  method ConvertCallToolResult<J>(cs: seq<ToolContent>, isError: bool, loads: string -> Result<J, string>)
      returns (r: Result<(ToolOutput, Option<seq<J>>), ConvertError>)
    ensures r == ConvertSpec(cs, isError, loads)
  {
    var textContents: seq<string> := [];
    var nonTextContents: seq<J> := [];
    for i := 0 to |cs|
      invariant Partition(cs[..i], loads) == Ok((textContents, nonTextContents))
    {
      var content := cs[i];
      assert cs[..i + 1][..i] == cs[..i] && cs[..i + 1][i] == content;
      if content.TextContent? {
        textContents := textContents + [content.text];
      } else if IsJsonResource(content) {
        var parsed := loads(content.resource.text);
        if parsed.Err? {
          PartitionErrPersists(cs, loads, i + 1);
          return Err(JsonDecodeError(parsed.error));
        }
        nonTextContents := nonTextContents + [parsed.value];
      }
    }
    assert cs[..|cs|] == cs;
    var toolContent: ToolOutput := Many(textContents);
    if |textContents| == 1 {
      toolContent := Single(textContents[0]);
    }
    if isError {
      return Err(ToolException(toolContent));
    }
    r := Ok((toolContent, if nonTextContents == [] then None else Some(nonTextContents)));
  }

  /** Once a JSON text fails to parse, the items after it change nothing. */
  lemma {:induction false} PartitionErrPersists<J>(cs: seq<ToolContent>, loads: string -> Result<J, string>, i: nat)
    requires i <= |cs| && Partition(cs[..i], loads).Err?
    ensures Partition(cs, loads) == Partition(cs[..i], loads)
    decreases |cs| - i
  {
    if i < |cs| {
      assert cs[..i + 1][..i] == cs[..i];
      PartitionErrPersists(cs, loads, i + 1);
    } else {
      assert cs[..i] == cs;
    }
  }
}
