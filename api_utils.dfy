/** The request side of the server (src/api/utils.py): an OpenAI-style chat
    request is flattened into the message list and the image list the
    vision model's chat template takes. Tool definitions replace the
    content of system messages with a tool catalogue, a response format
    adds a `<RESPONSE_FORMAT>` block to the final user message, image parts
    become bare placeholders whose URLs are collected on a side list, and
    the collected images are read and scaled down to a height of 720.

    `json.dumps(..., indent=4)` is the parameter `dumps4`; reading an image
    from a URL, a data URL or a path is the parameter `read`, which gives
    the image's size or None when reading failed. */
module ApiUtils {
  import opened Common
  import opened JsonModel

  // ---------------------------------------------------------------------
  // Request and result shapes
  // ---------------------------------------------------------------------

  /** One item of a list-valued message content. */
  datatype Part = ImageUrlPart(url: string) | TextPart(text: string) | OtherPart

  datatype Content = Plain(s: string) | Parts(parts: seq<Part>)

  datatype ChatMessage = ChatMessage(role: string, content: Content)

  /** A tool of the request; `definition` is `tool.function` dumped with
      `exclude_none=True`. */
  datatype Tool = Tool(definition: Json)

  /** The response format, dumped; `jsonSchema` is its "json_schema" entry. */
  datatype ResponseFormat = ResponseFormat(jsonSchema: Option<Json>)

  datatype ChatRequest = ChatRequest(
    messages: seq<ChatMessage>,
    tools: Option<seq<Tool>>,
    responseFormat: Option<ResponseFormat>,
    temperature: Option<real>,
    topP: Option<real>,
    maxTokens: Option<int>)

  /** `{"type": "image"}` and `{"type": "text", "text": ...}`. */
  datatype OutPart = ImagePlaceholder | TextOut(text: string)

  datatype OutContent = PlainOut(s: string) | PartsOut(parts: seq<OutPart>)

  /** `{"role": ..., "content": ...}` */
  datatype OutMessage = OutMessage(role: string, content: OutContent)

  datatype Size = Size(width: nat, height: nat)

  // ---------------------------------------------------------------------
  // read_image: which reader a source string goes to
  // ---------------------------------------------------------------------

  datatype Source = HttpUrl | Base64Url(payload: string) | FilePath

  const DataImagePrefix := "data:image/"
  const Base64Marker := ";base64,"

  /** `re.match(r"^data:image/.+;base64,", source)`: after the prefix, at
      least one character other than a newline, then the marker. */
  predicate IsBase64ImageUrl(source: string)
  {
    && StartsWith(source, DataImagePrefix)
    && exists j | |DataImagePrefix| < j <= |source| - |Base64Marker| ::
         OccursAt(source, Base64Marker, j) && NoChar(source[|DataImagePrefix|..j], '\n')
  }

  /** Python's `s.split(",")[1]`: the text between the first and the second
      comma (or the end); None when there is no comma. */
  function SecondField(s: string): (r: Option<string>)
    ensures r.Some? ==> NoChar(r.value, ',')
    ensures r.None? <==> NoChar(s, ',')
  {
    if |s| == 0 then None
    else if s[0] == ',' then Some(FirstField(s[1..]))
    else SecondField(s[1..])
  }

  /** The text before the first comma. */
  function FirstField(s: string): (r: string)
    ensures NoChar(r, ',') && StartsWith(s, r)
    ensures |r| < |s| ==> s[|r|] == ','
  {
    if |s| == 0 || s[0] == ',' then [] else [s[0]] + FirstField(s[1..])
  }

  /** The branch of `read_image` a source takes (src/api/utils.py:29-38):
      an http(s) URL is fetched, a base64 data URL has its second
      comma-separated field decoded, anything else is opened as a path. */
  function ClassifySource(source: string): (r: Source)
    ensures r.HttpUrl? <==> StartsWith(source, "http://") || StartsWith(source, "https://")
    ensures r.Base64Url? ==> IsBase64ImageUrl(source) && Some(r.payload) == SecondField(source)
    ensures r.FilePath? ==> !IsBase64ImageUrl(source)
  {
    if StartsWith(source, "http://") || StartsWith(source, "https://") then HttpUrl
    else if IsBase64ImageUrl(source) then
      assert !NoChar(source, ',') by {
        var j :| |DataImagePrefix| < j <= |source| - |Base64Marker| && OccursAt(source, Base64Marker, j);
        assert source[j..j + |Base64Marker|][7] == ',';
      }
      Base64Url(SecondField(source).value)
    else FilePath
  }

  // ---------------------------------------------------------------------
  // Prompts
  // ---------------------------------------------------------------------

  const ToolPreamble :=
    "You are an expert in composing functions. You are given a question and a set of possible functions. \n"
    + "Based on the question, you will need to make one or more function/tool calls to achieve the purpose. \n"
    + "If none of the function can be used, point it out. If the given question lacks the parameters required by the function,\n"
    + "also point it out. You should only return the function call in tools call sections.\n"
    + "\n"
    + "If you decide to invoke any of the function(s), you MUST put it in the format of [func_name1(params_name1=params_value1, params_name2=params_value2...), func_name2(params)]\n"
    + "\n"
    + "MAKE SURE the function call is in the correct format along with the correct/valid parameters.\n"
    + "You SHOULD NOT include any other text in the response.\n"
    + "\n"
    + "Here is a list of functions in JSON format that you can invoke.\n\n"

  /** `tools` in a boolean context: given and non-empty. */
  predicate ToolsGiven(tools: Option<seq<Tool>>)
  {
    tools.Some? && |tools.value| > 0
  }

  function Definitions(tools: seq<Tool>): (r: seq<Json>)
    ensures |r| == |tools| && forall i :: 0 <= i < |tools| ==> r[i] == tools[i].definition
  {
    seq(|tools|, i requires 0 <= i < |tools| => tools[i].definition)
  }

  /** `prep_tool_prompt`: the fixed instructions, the definitions of all
      tools as one indented JSON list, and a final newline. */
  function ToolPrompt(tools: seq<Tool>, dumps4: Json -> string): string
  {
    ToolPreamble + dumps4(JArray(Definitions(tools))) + "\n"
  }

  /** The tool prompt is the preamble, the JSON list of the definitions,
      and a newline, and the text of the definitions can be read back
      between the two. */
  lemma ToolPromptShape(tools: seq<Tool>, dumps4: Json -> string)
    ensures var r := ToolPrompt(tools, dumps4);
      && StartsWith(r, ToolPreamble) && EndsWith(r, "\n")
      && r[|ToolPreamble|..|r| - 1] == dumps4(JArray(Definitions(tools)))
  {
    var r := ToolPrompt(tools, dumps4);
    assert r[..|ToolPreamble|] == ToolPreamble;
    assert r[|ToolPreamble|..|r| - 1] == dumps4(JArray(Definitions(tools)));
  }

  const FormatOpen := "<RESPONSE_FORMAT>\n"
  const FormatClose := "</RESPONSE_FORMAT>"
  const FormatLead := "Your output should be formatted as a standard JSON instance"

  /** The rules that follow the schema in the long block. */
  const LongRules :=
    "- Always enclose the JSON output in triple backticks (```).\n"
    + "- Ensure that only valid JSON output is included, without any additional text or formatting.\n"
    + "- Use double quotes for the keys and string values.\n"
    + "- DO NOT mistake the \"properties\" and \"type\" in the schema as the actual fields in the JSON output.\n"
    + "- DO NOT include any additional text, comments, or annotations outside of the JSON object.\n"
    + "- Follow the structure and field names as specified in the schema exactly.\n"
    + "- Follow the JSON formatting conventions.\n"
    + "- DO NOT include schema definitions in the JSON output.\n"
    + "- Ensure that the JSON output strictly conforms to the schema provided without deviation.\n"
    + "- Do validate your JSON output for syntax correctness and adherence to the schema before submission.\n"
    + "- Strictly adhere to the schema provided above.\n"
    + "- Return the markdown JSON object as the output without any additional text or comments.\n"

  const ShortRules :=
    "- Always enclose the JSON output in triple backticks (```).\n"
    + "- Ensure that only valid JSON output is included, without any additional text or formatting.\n"
    + "- Use double quotes for the keys and string values.\n"
    + "- DO NOT mistake the \"properties\" and \"type\" in the schema as the actual fields in the JSON output.\n"
    + "- Follow the JSON formatting conventions.\n"

  /** The block quoting the schema, indented by `json.dumps(indent=4)`. */
  function LongBlock(schemaText: string): string
  {
    LongHead(schemaText) + FormatClose
  }

  function LongHead(schemaText: string): string
  {
    FormatOpen + FormatLead + " " + "with the following schema:\n" + "```\n" + schemaText + "\n" + "```\n" + LongRules
  }

  /** The block used without a schema. */
  function ShortBlock(): string
  {
    ShortHead() + FormatClose
  }

  function ShortHead(): string
  {
    FormatOpen + FormatLead + "." + "\n" + ShortRules
  }

  /** The schema is used when the "json_schema" entry is present and truthy. */
  predicate HasSchema(format: ResponseFormat)
  {
    format.jsonSchema.Some? && Truthy(format.jsonSchema.value)
  }

  function SchemaBlock(format: ResponseFormat, dumps4: Json -> string): string
  {
    if HasSchema(format) then LongBlock(dumps4(format.jsonSchema.value)) else ShortBlock()
  }

  /** `prep_schema_prompt`: the prompt, a blank line, and the block. */
  function PrepSchemaPrompt(prompt: string, format: ResponseFormat, dumps4: Json -> string): string
  {
    prompt + "\n\n" + SchemaBlock(format, dumps4)
  }

  /** Whatever the format, the prompt comes first, then a blank line, and
      the result ends by closing the block. */
  lemma PrepSchemaPromptShape(prompt: string, format: ResponseFormat, dumps4: Json -> string)
    ensures StartsWith(PrepSchemaPrompt(prompt, format, dumps4), prompt + "\n\n")
    ensures EndsWith(PrepSchemaPrompt(prompt, format, dumps4), FormatClose)
  {
    var block := SchemaBlock(format, dumps4);
    if HasSchema(format) {
      EndsWithAppend(LongHead(dumps4(format.jsonSchema.value)), FormatClose);
    } else {
      EndsWithAppend(ShortHead(), FormatClose);
    }
    Framed(prompt + "\n\n", block, FormatClose);
  }

  /** The two blocks never coincide, so which one a prompt ends with tells
      whether the schema was used. */
  lemma BlocksDiffer(schemaText: string)
    ensures LongBlock(schemaText) != ShortBlock()
  {
    var k := |FormatOpen + FormatLead|;
    assert LongBlock(schemaText)[k] == ' ';
    assert ShortBlock()[k] == '.';
  }

  /** The long block is used exactly when the schema is present and truthy,
      and the short one exactly when it is not. */
  lemma SchemaPromptChoice(prompt: string, format: ResponseFormat, dumps4: Json -> string)
    ensures HasSchema(format) <==>
      format.jsonSchema.Some?
      && PrepSchemaPrompt(prompt, format, dumps4) == prompt + "\n\n" + LongBlock(dumps4(format.jsonSchema.value))
    ensures !HasSchema(format) <==> PrepSchemaPrompt(prompt, format, dumps4) == prompt + "\n\n" + ShortBlock()
  {
    var head := prompt + "\n\n";
    if format.jsonSchema.Some? {
      var long := LongBlock(dumps4(format.jsonSchema.value));
      BlocksDiffer(dumps4(format.jsonSchema.value));
      assert (head + long)[|head|..] == long;
      assert (head + ShortBlock())[|head|..] == ShortBlock();
    }
  }

  // ---------------------------------------------------------------------
  // process_image
  // ---------------------------------------------------------------------

  const MaxHeight := 720

  /** `process_image` after the read: an image taller than 720 is scaled to
      height 720 and width `int(width * 720 / height)`; other images and a
      failed read pass through. Pillow refuses a zero width, and nothing
      catches that. */
  function ProcessImage(image: Option<Size>): (r: Result<Option<Size>>)
    ensures image.None? ==> r == Ok(None)
    ensures image.Some? && image.value.height <= MaxHeight ==> r == Ok(image)
    ensures image.Some? && image.value.height > MaxHeight ==>
      (r.Ok? <==> image.value.width * MaxHeight >= image.value.height)
    ensures r.Ok? && r.value.Some? ==> r.value.value.height <= MaxHeight
    ensures r.Ok? && image.Some? && image.value.height > MaxHeight ==>
      && r.value.Some? && r.value.value.height == MaxHeight
      && r.value.value.width * image.value.height <= image.value.width * MaxHeight
      < (r.value.value.width + 1) * image.value.height
  {
    match image
    case None => Ok(None)
    case Some(size) =>
      if size.height > MaxHeight then
        var w := ScaledWidth(size.width, size.height);
        if w == 0 then Raised("ValueError: height and width must be > 0")
        else Ok(Some(Size(w, MaxHeight)))
      else Ok(image)
  }

  /** `int(width * 720 / height)`: the floor of the exact quotient. */
  function ScaledWidth(width: nat, height: nat): (w: nat)
    requires height > 0
    ensures w * height <= width * MaxHeight < (w + 1) * height
    ensures w == 0 <==> width * MaxHeight < height
  {
    var n := width * MaxHeight;
    assert n == (n / height) * height + n % height;
    n / height
  }

  /** `list(executor.map(process_image, images))`: every image in order;
      the first exception in list order escapes. */
  function ProcessImagesSpec(urls: seq<string>, read: string -> Option<Size>): (r: Result<seq<Option<Size>>>)
    ensures r.Ok? ==> |r.value| == |urls|
    ensures r.Ok? ==> forall i :: 0 <= i < |urls| ==> ProcessImage(read(urls[i])) == Ok(r.value[i])
    ensures r.Raised? <==> exists i :: 0 <= i < |urls| && ProcessImage(read(urls[i])).Raised?
  {
    if |urls| == 0 then Ok([])
    else
      var front := urls[..|urls| - 1];
      assert forall i :: 0 <= i < |front| ==> front[i] == urls[i];
      match ProcessImagesSpec(front, read)
      case Raised(err) => Raised(err)
      case Ok(done) =>
        match ProcessImage(read(urls[|urls| - 1]))
        case Raised(err) => Raised(err)
        case Ok(image) => Ok(done + [image])
  }

  lemma {:induction false} RaisedPrefixPersists(urls: seq<string>, k: nat, read: string -> Option<Size>)
    requires k <= |urls| && ProcessImagesSpec(urls[..k], read).Raised?
    ensures ProcessImagesSpec(urls, read) == ProcessImagesSpec(urls[..k], read)
    decreases |urls| - k
  {
    if k < |urls| {
      var next := urls[..k + 1];
      assert next[..|next| - 1] == urls[..k];
      RaisedPrefixPersists(urls, k + 1, read);
    } else {
      assert urls[..k] == urls;
    }
  }

  method ProcessImages(urls: seq<string>, read: string -> Option<Size>) returns (r: Result<seq<Option<Size>>>)
    ensures r == ProcessImagesSpec(urls, read)
  {
    var results: seq<Option<Size>> := [];
    for i := 0 to |urls|
      invariant ProcessImagesSpec(urls[..i], read) == Ok(results)
    {
      var image := ProcessImage(read(urls[i]));
      assert urls[..i + 1][..i] == urls[..i];
      if image.Raised? {
        RaisedPrefixPersists(urls, i + 1, read);
        return Raised(image.error);
      }
      results := results + [image.value];
    }
    assert urls[..|urls|] == urls;
    return Ok(results);
  }

  // ---------------------------------------------------------------------
  // process_content_list and process_content
  // ---------------------------------------------------------------------

  /** The side list of image URLs that `parse_messages` hands to the
      content helpers, which append to it in place. */
  class ImageList {
    var urls: seq<string>

    constructor ()
      ensures urls == []
    {
      urls := [];
    }
  }

  /** The content items `process_content_list` keeps: image parts become
      placeholders, text parts are copied, anything else is dropped. */
  function ProcessedParts(parts: seq<Part>): seq<OutPart>
  {
    if |parts| == 0 then []
    else
      var last := parts[|parts| - 1];
      ProcessedParts(parts[..|parts| - 1])
        + (match last
           case ImageUrlPart(_) => [ImagePlaceholder]
           case TextPart(t) => [TextOut(t)]
           case OtherPart => [])
  }

  /** The URLs of the image parts, in order. */
  function ImageUrls(parts: seq<Part>): seq<string>
  {
    if |parts| == 0 then []
    else ImageUrls(parts[..|parts| - 1]) + (if parts[|parts| - 1].ImageUrlPart? then [parts[|parts| - 1].url] else [])
  }

  /** `process_content_list`. */
  method ProcessContentList(contentList: seq<Part>, images: ImageList) returns (content: seq<OutPart>)
    modifies images
    ensures content == ProcessedParts(contentList)
    ensures images.urls == old(images.urls) + ImageUrls(contentList)
  {
    content := [];
    for i := 0 to |contentList|
      invariant content == ProcessedParts(contentList[..i])
      invariant images.urls == old(images.urls) + ImageUrls(contentList[..i])
    {
      var item := contentList[i];
      assert contentList[..i + 1][..i] == contentList[..i];
      if item.ImageUrlPart? {
        images.urls := images.urls + [item.url];
        content := content + [ImagePlaceholder];
      } else if item.TextPart? {
        content := content + [TextOut(item.text)];
      }
    }
    assert contentList[..|contentList|] == contentList;
  }

  /** What `process_content` returns for one message: a system message
      under given tools is the tool prompt, whatever it said; the final
      user message under a response format gets the block once, glued to a
      string or as one more text part of a list. */
  function ProcessedContent(role: string, content: Content, tools: Option<seq<Tool>>,
                            format: Option<ResponseFormat>, lastUserMessage: bool,
                            dumps4: Json -> string): OutContent
  {
    var withSchema := lastUserMessage && format.Some?;
    if role == "system" && ToolsGiven(tools) then
      var prompt := ToolPrompt(tools.value, dumps4);
      PlainOut(if withSchema then PrepSchemaPrompt(prompt, format.value, dumps4) else prompt)
    else
      match content
      case Plain(s) => PlainOut(if withSchema then PrepSchemaPrompt(s, format.value, dumps4) else s)
      case Parts(parts) =>
        PartsOut(ProcessedParts(parts) + if withSchema then [TextOut(PrepSchemaPrompt("", format.value, dumps4))] else [])
  }

  /** The URLs `process_content` collects: none when the content was
      replaced by the tool prompt or is a string. */
  function ContentImages(role: string, content: Content, tools: Option<seq<Tool>>): seq<string>
  {
    if role == "system" && ToolsGiven(tools) then []
    else if content.Parts? then ImageUrls(content.parts)
    else []
  }

  /** `process_content`. */
  method ProcessContent(content: Content, message: ChatMessage, tools: Option<seq<Tool>>, images: ImageList,
                        responseFormat: Option<ResponseFormat>, lastUserMessage: bool, dumps4: Json -> string)
    returns (r: OutContent)
    modifies images
    ensures r == ProcessedContent(message.role, content, tools, responseFormat, lastUserMessage, dumps4)
    ensures images.urls == old(images.urls) + ContentImages(message.role, content, tools)
  {
    var current := content;
    if message.role == "system" && ToolsGiven(tools) {
      current := Plain(ToolPrompt(tools.value, dumps4));
    }
    if lastUserMessage && responseFormat.Some? && current.Plain? {
      current := Plain(PrepSchemaPrompt(current.s, responseFormat.value, dumps4));
    }
    if current.Parts? {
      var list := ProcessContentList(current.parts, images);
      if lastUserMessage && responseFormat.Some? {
        list := list + [TextOut(PrepSchemaPrompt("", responseFormat.value, dumps4))];
      }
      return PartsOut(list);
    }
    assert old(images.urls) + [] == old(images.urls);
    return PlainOut(current.s);
  }

  // ---------------------------------------------------------------------
  // parse_messages
  // ---------------------------------------------------------------------

  /** `last_user_message`: the final message, when its role is "user". */
  predicate LastUser(messages: seq<ChatMessage>, i: int)
    requires 0 <= i < |messages|
  {
    i == |messages| - 1 && messages[i].role == "user"
  }

  /** The messages before any is dropped: one per request message. */
  function FlattenedMessages(messages: seq<ChatMessage>, tools: Option<seq<Tool>>,
                             format: Option<ResponseFormat>, dumps4: Json -> string): (r: seq<OutMessage>)
    ensures |r| == |messages|
    ensures forall i :: 0 <= i < |messages| ==> r[i].role == messages[i].role
  {
    seq(|messages|, i requires 0 <= i < |messages| =>
      OutMessage(messages[i].role,
                 ProcessedContent(messages[i].role, messages[i].content, tools, format, LastUser(messages, i), dumps4)))
  }

  /** The image URLs collected over the messages, in order. */
  function CollectedUrls(messages: seq<ChatMessage>, tools: Option<seq<Tool>>): seq<string>
  {
    if |messages| == 0 then []
    else
      var m := messages[|messages| - 1];
      CollectedUrls(messages[..|messages| - 1], tools) + ContentImages(m.role, m.content, tools)
  }

  /** What `parse_messages` returns: the messages, with the first dropped
      when it is a system message and there are images, and the processed
      images, or None for none. */
  function ParseMessagesSpec(request: ChatRequest, dumps4: Json -> string, read: string -> Option<Size>)
    : Result<(seq<OutMessage>, Option<seq<Option<Size>>>)>
  {
    var messages := FlattenedMessages(request.messages, request.tools, request.responseFormat, dumps4);
    var urls := CollectedUrls(request.messages, request.tools);
    match ProcessImagesSpec(urls, read)
    case Raised(err) => Raised(err)
    case Ok(images) =>
      UrlsNeedMessages(request.messages, request.tools);
      Ok((if |images| > 0 && messages[0].role == "system" then messages[1..] else messages,
          if |images| == 0 then None else Some(images)))
  }

  lemma CollectedUrlsStep(messages: seq<ChatMessage>, i: nat, tools: Option<seq<Tool>>)
    requires i < |messages|
    ensures CollectedUrls(messages[..i + 1], tools)
      == CollectedUrls(messages[..i], tools) + ContentImages(messages[i].role, messages[i].content, tools)
  {
    assert messages[..i + 1][..i] == messages[..i];
  }

  lemma UrlsNeedMessages(messages: seq<ChatMessage>, tools: Option<seq<Tool>>)
    ensures |CollectedUrls(messages, tools)| > 0 ==> |messages| > 0
  {
  }

  /** `parse_messages`; the thread pool becomes an ordered sequential map. */
  method ParseMessages(request: ChatRequest, dumps4: Json -> string, read: string -> Option<Size>)
    returns (r: Result<(seq<OutMessage>, Option<seq<Option<Size>>>)>)
    ensures r == ParseMessagesSpec(request, dumps4, read)
  {
    var messages, images := FlattenMessages(request, dumps4);
    var processed := ProcessImages(images.urls, read);
    if processed.Raised? {
      return Raised(processed.error);
    }
    var imageList := processed.value;
    UrlsNeedMessages(request.messages, request.tools);
    if |imageList| > 0 && messages[0].role == "system" {
      messages := messages[1..];
    }
    return Ok((messages, if |imageList| == 0 then None else Some(imageList)));
  }

  /** The loop of `parse_messages` over the request messages: each is
      processed in order, collecting image URLs on a fresh list. */
  method FlattenMessages(request: ChatRequest, dumps4: Json -> string)
    returns (messages: seq<OutMessage>, images: ImageList)
    ensures messages == FlattenedMessages(request.messages, request.tools, request.responseFormat, dumps4)
    ensures images.urls == CollectedUrls(request.messages, request.tools)
  {
    messages := [];
    images := new ImageList();
    var responseFormat := request.responseFormat;
    var tools := request.tools;
    ghost var expected := FlattenedMessages(request.messages, tools, responseFormat, dumps4);
    var totalMessages := |request.messages|;
    for i := 0 to totalMessages
      invariant messages == expected[..i]
      invariant images.urls == CollectedUrls(request.messages[..i], tools)
    {
      var message := request.messages[i];
      var lastUserMessage := i == totalMessages - 1 && message.role == "user";
      var content := ProcessContent(message.content, message, tools, images, responseFormat, lastUserMessage, dumps4);
      CollectedUrlsStep(request.messages, i, tools);
      assert lastUserMessage == LastUser(request.messages, i);
      assert expected[i] == OutMessage(message.role, content);
      assert expected[..i + 1] == expected[..i] + [expected[i]];
      messages := messages + [OutMessage(message.role, content)];
    }
    assert request.messages[..totalMessages] == request.messages;
  }

  // ---------------------------------------------------------------------
  // Properties
  // ---------------------------------------------------------------------

  /** Processing a list piecewise processes it whole: items keep their
      order in the output and their URLs keep it on the side list. */
  lemma {:induction false} PartsAppend(a: seq<Part>, b: seq<Part>)
    ensures ProcessedParts(a + b) == ProcessedParts(a) + ProcessedParts(b)
    ensures ImageUrls(a + b) == ImageUrls(a) + ImageUrls(b)
    decreases |b|
  {
    if |b| == 0 {
      assert a + b == a;
    } else {
      var b' := b[..|b| - 1];
      assert (a + b)[..|a + b| - 1] == a + b';
      PartsAppend(a, b');
    }
  }

  /** The side list holds exactly the URLs of the image parts. */
  lemma {:induction false} ImageUrlsMembers(parts: seq<Part>, u: string)
    ensures u in ImageUrls(parts) <==> ImageUrlPart(u) in parts
    decreases |parts|
  {
    if |parts| > 0 {
      var front := parts[..|parts| - 1];
      ImageUrlsMembers(front, u);
      assert parts == front + [parts[|parts| - 1]];
    }
  }

  function Placeholders(out: seq<OutPart>): nat
  {
    if |out| == 0 then 0 else Placeholders(out[..|out| - 1]) + (if out[|out| - 1].ImagePlaceholder? then 1 else 0)
  }

  function OtherParts(parts: seq<Part>): nat
  {
    if |parts| == 0 then 0 else OtherParts(parts[..|parts| - 1]) + (if parts[|parts| - 1].OtherPart? then 1 else 0)
  }

  /** One placeholder per collected URL; every item but the unknown kinds
      survives. */
  lemma {:induction false} PlaceholdersMatchUrls(parts: seq<Part>)
    ensures Placeholders(ProcessedParts(parts)) == |ImageUrls(parts)|
    ensures |ProcessedParts(parts)| + OtherParts(parts) == |parts|
    decreases |parts|
  {
    if |parts| > 0 {
      var front := parts[..|parts| - 1];
      PlaceholdersMatchUrls(front);
      var out := ProcessedParts(parts);
      var last := parts[|parts| - 1];
      if !last.OtherPart? {
        assert out[..|out| - 1] == ProcessedParts(front);
      } else {
        assert out == ProcessedParts(front);
      }
    }
  }

  /** The output item an input item becomes when it is kept. */
  function Converted(p: Part): OutPart
    requires !p.OtherPart?
  {
    if p.ImageUrlPart? then ImagePlaceholder else TextOut(p.text)
  }

  /** Without unknown kinds, the output lines up with the input item by
      item: images become placeholders and texts are copied verbatim. */
  lemma {:induction false} ProcessedPartsPointwise(parts: seq<Part>)
    requires forall i :: 0 <= i < |parts| ==> !parts[i].OtherPart?
    ensures |ProcessedParts(parts)| == |parts|
    ensures forall i :: 0 <= i < |parts| ==> ProcessedParts(parts)[i] == Converted(parts[i])
    decreases |parts|
  {
    if |parts| > 0 {
      var front := parts[..|parts| - 1];
      ProcessedPartsPointwise(front);
      assert ProcessedParts(parts) == ProcessedParts(front) + [Converted(parts[|parts| - 1])];
    }
  }

  /** A system message under given tools becomes the tool prompt, wherever
      it stands and whatever it held; its images are not collected. */
  lemma SystemContentReplaced(messages: seq<ChatMessage>, tools: Option<seq<Tool>>,
                              format: Option<ResponseFormat>, dumps4: Json -> string, i: nat)
    requires i < |messages| && messages[i].role == "system" && ToolsGiven(tools)
    ensures FlattenedMessages(messages, tools, format, dumps4)[i].content == PlainOut(ToolPrompt(tools.value, dumps4))
    ensures ContentImages(messages[i].role, messages[i].content, tools) == []
  {
    assert "system"[0] != "user"[0];
    assert !LastUser(messages, i);
  }

  /** The final user message under a response format gets the block
      exactly once: glued to string content after a blank line, or as one
      extra text part after the processed items of list content. */
  lemma SchemaOnLastUserMessage(messages: seq<ChatMessage>, tools: Option<seq<Tool>>,
                                format: Option<ResponseFormat>, dumps4: Json -> string)
    requires |messages| > 0 && messages[|messages| - 1].role == "user" && format.Some?
    ensures var m := messages[|messages| - 1];
      var out := FlattenedMessages(messages, tools, format, dumps4)[|messages| - 1].content;
      var block := SchemaBlock(format.value, dumps4);
      && (m.content.Plain? ==> out == PlainOut(m.content.s + "\n\n" + block))
      && (m.content.Parts? ==> out == PartsOut(ProcessedParts(m.content.parts) + [TextOut("\n\n" + block)]))
  {
    var i := |messages| - 1;
    var m := messages[i];
    assert m.role != "system" by {
      assert "user"[0] != "system"[0];
    }
    assert LastUser(messages, i);
    assert FlattenedMessages(messages, tools, format, dumps4)[i].content
      == ProcessedContent(m.role, m.content, tools, format, true, dumps4);
    if m.content.Parts? {
      assert "" + "\n\n" == "\n\n";
    }
  }

  /** Every other message that keeps its content gets no block. */
  lemma NoSchemaElsewhere(messages: seq<ChatMessage>, tools: Option<seq<Tool>>,
                          format: Option<ResponseFormat>, dumps4: Json -> string, i: nat)
    requires i < |messages| && !(messages[i].role == "system" && ToolsGiven(tools))
    requires i < |messages| - 1 || messages[i].role != "user" || format.None?
    ensures var m := messages[i];
      var out := FlattenedMessages(messages, tools, format, dumps4)[i].content;
      && (m.content.Plain? ==> out == PlainOut(m.content.s))
      && (m.content.Parts? ==> out == PartsOut(ProcessedParts(m.content.parts)))
  {
    if messages[i].content.Parts? {
      assert ProcessedParts(messages[i].content.parts) + [] == ProcessedParts(messages[i].content.parts);
    }
  }

  /** The outcome of `parse_messages`: with images, a leading system message
      (and only that one) is dropped; each collected URL has its entry in
      the image list, a failed read included; no URLs gives None. */
  lemma ParseMessagesOutcome(request: ChatRequest, dumps4: Json -> string, read: string -> Option<Size>)
    requires ParseMessagesSpec(request, dumps4, read).Ok?
    ensures var (out, images) := ParseMessagesSpec(request, dumps4, read).value;
      var all := FlattenedMessages(request.messages, request.tools, request.responseFormat, dumps4);
      var urls := CollectedUrls(request.messages, request.tools);
      && (images.None? <==> urls == [])
      && (images.Some? ==> |images.value| == |urls|
                           && forall k :: 0 <= k < |urls| && read(urls[k]).None? ==> images.value[k].None?)
      && (images.Some? && request.messages[0].role == "system" ==> out == all[1..] && |out| == |request.messages| - 1)
      && (images.None? || request.messages[0].role != "system" ==> out == all)
  {
    UrlsNeedMessages(request.messages, request.tools);
  }
}
