# Chat with Llama 3.2 Vision — a Dafny model of the request and response logic

This project models the parts of the chat-with-llama-3.2-vision server, its
Streamlit helpers and its paper-ranking tool that are not model inference.
The properties of that logic are proved in Dafny.

- **Request flattening** (`src/api/utils.py`) is in `api_utils.dfy`, module `ApiUtils`. An OpenAI-style chat request becomes the message list and image list the vision model takes:
  - system messages are replaced by a tool catalogue when tools are given;
  - the final user message gains a `<RESPONSE_FORMAT>` block;
  - image parts become placeholders whose URLs are collected in order;
  - the collected images are scaled down to a height of 720;
  - the first message is dropped when it is a system message and there are images.
- **Tool-call extraction** (`src/tools/tool_utils.py`) is in `tool_utils.dfy`, module `ToolUtils`. It covers:
  - the `<function=NAME>{ARGS}` pattern, with the regex's lazy and greedy matching written out;
  - JSON objects naming a function;
  - Python lists of keyword-only calls, read from the parse tree with `ast.literal_eval`;
  - call records with `call_` ids.

  The parse-tree fragment and `literal_eval` are in `python_ast.dfy`. JSON values, with dicts that keep insertion order, are in `json_model.dfy`.
- **The LitServe handler** (`src/api/llama_vision.py`, `decode_request` lines 44-49 and `encode_response`) is in `llama_vision.dfy`, module `LlamaVision`. It covers:
  - the generation defaults and the tool flag kept in the per-request context;
  - the buffering loop that answers each streamed fragment with either a text message or a tool-call message.
- **Front-end helpers** (`src/ui/utils.py`) are in `ui_utils.dfy`, module `UiUtils`. They cover:
  - file extensions as POSIX `os.path.splitext` computes them;
  - image-type checks;
  - message content assembly;
  - the resize arithmetic of `encode_image`, and the `data:image/...;base64,` URL it builds. Base64 follows section 4 of RFC 4648 and is modelled with its decoder.
- **Paper ranking** (`src/tools/get_top_hf_papers.py`) is in `hf_papers.dfy`, module `HfPapers`. It covers:
  - projecting each response entry to a record with defaults;
  - a stable in-place sort by upvotes, highest first;
  - Python's `[:n]` slicing;
  - the final `json.dumps`.

Library calls become function-typed parameters:
- `json.loads` and `json.dumps`;
- `ast.parse`;
- reading an image, and saving one;
- `str()` of a JSON value.

An exception that escapes a Python function is the `Raised` case of `Common.Result`. An exception caught inside the source is modelled as the value the source falls back to.

Points about the code's behaviour that the model keeps:
- **Tool mode streaming.** Once the buffer looks like a call, the handler emits one tool-call message per fragment, extracting from the whole buffer so far each time.
- **Extraction failures.** A parse failure in tool mode gives a message with empty content and no calls. The text is not kept. A selected JSON object without `name` or `parameters` raises `KeyError`, which ends the stream.
- **Scaling on the server.** `process_image` scales only images taller than 720, to a height of exactly 720. A wide image that is at most 720 high keeps its width. The "longer edge at most 720" rule holds only for the front end's `encode_image`.
- **Call ids.** A call id is `call_` plus six characters, not the nine its docstring states.
- **Dropped message.** Only `messages[0]` is dropped, and only when it is a system message and there are images.
- **Tool catalogue.** It is the `json.dumps(indent=4)` of the tool definitions.

## Model

| member | source | states |
|---|---|---|
| ApiUtils.ClassifySource | src/api/utils.py:29-38 | the http branch is taken exactly for `http://`/`https://` sources; the base64 branch only for sources matching `^data:image/.+;base64,`, with the payload being the second comma-separated field; otherwise the file-path branch |
| ApiUtils.IsBase64ImageUrl | src/api/utils.py:32 | `re.match(r"^data:image/.+;base64,", source)`: after `data:image/`, at least one non-newline character and then `;base64,`; ClassifySource and DataUrlRecognised state its use |
| ApiUtils.SecondField | src/api/utils.py:34 | `split(",")[1]` fails (IndexError) exactly when there is no comma, and never contains a comma |
| ApiUtils.FirstField | src/api/utils.py:34 | the first comma-separated field is a comma-free prefix ending at the first comma |
| ApiUtils.Definitions | src/api/utils.py:49-51 | one definition per tool, in order |
| ApiUtils.ToolPrompt | src/api/utils.py:49-65 | the tool prompt; ToolPromptShape and Definitions state its shape |
| ApiUtils.ToolPromptShape | src/api/utils.py:52-65 | the tool prompt is the fixed preamble, then exactly the indented dump of all tool definitions, then a newline |
| ApiUtils.PrepSchemaPrompt | src/api/utils.py:76-116 | the prompt with its response-format block; PrepSchemaPromptShape, SchemaPromptChoice and BlocksDiffer state its shape |
| ApiUtils.PrepSchemaPromptShape | src/api/utils.py:76-116 | the result is always the prompt, a blank line and a block ending in `</RESPONSE_FORMAT>` |
| ApiUtils.SchemaPromptChoice | src/api/utils.py:82-116 | the long block with the dumped schema is used iff `json_schema` is present and truthy, the short block iff not |
| ApiUtils.BlocksDiffer | src/api/utils.py:84-115 | the long and short blocks are different texts |
| ApiUtils.ProcessImage | src/api/utils.py:119-126 | a failed read passes through; an image at most 720 high is unchanged, whatever its width; a taller one becomes height 720 and width `floor(width*720/height)`, and raises when that width is 0 |
| ApiUtils.ProcessImagesSpec | src/api/utils.py:193-194 | the mapped list has one processed image per URL, in order, and raises iff some image raises |
| ApiUtils.ScaledWidth | src/api/utils.py:125 | `int(width * 720 / height)` is the floor of the exact quotient, and 0 exactly when `width * 720 < height` |
| ApiUtils.RaisedPrefixPersists | src/api/utils.py:193-194 | the first exception in list order is the one that escapes |
| ApiUtils.ProcessImages | src/api/utils.py:193-194 | the sequential map computes the mapped list |
| ApiUtils.ImageList.constructor | src/api/utils.py:180 | the image list starts empty |
| ApiUtils.ProcessContentList | src/api/utils.py:157-172 | returns the converted parts (placeholder per image part, text copied, others dropped), and the caller's list grows by exactly the image URLs in encounter order |
| ApiUtils.ProcessContent | src/api/utils.py:129-154 | the processed content and the URLs appended are those of the message's role, content, tools and response format |
| ApiUtils.FlattenedMessages | src/api/utils.py:184-191 | one output message per input message, roles in order |
| ApiUtils.CollectedUrlsStep | src/api/utils.py:186-191 | each message appends its own image URLs after those of the earlier messages |
| ApiUtils.UrlsNeedMessages | src/api/utils.py:197 | images exist only if messages do, so `messages[0]` is defined when it is read |
| ApiUtils.ParseMessages | src/api/utils.py:175-199 | the loop, the image map and the final drop compute the specified result |
| ApiUtils.FlattenMessages | src/api/utils.py:180-191 | the loop over the messages produces one processed message per request message and collects exactly their image URLs, in order |
| ApiUtils.PartsAppend | src/api/utils.py:164-172 | converting and collecting distribute over concatenated part lists |
| ApiUtils.ImageUrlsMembers | src/api/utils.py:166-168 | a URL is collected iff an image part with that URL is in the content |
| ApiUtils.PlaceholdersMatchUrls | src/api/utils.py:164-172 | there are as many placeholders as collected URLs, and the dropped parts are exactly the other parts |
| ApiUtils.ProcessedPartsPointwise | src/api/utils.py:164-172 | without unknown parts, the output has one converted part per input part, position by position |
| ApiUtils.SystemContentReplaced | src/api/utils.py:140-141 | a system message at any position with a non-empty tools list gets exactly the tool prompt as content, and contributes no images |
| ApiUtils.SchemaOnLastUserMessage | src/api/utils.py:143-152 | on the final user message with a response format, a string gains "\n\n" + block, a list gains exactly one trailing text part "\n\n" + block |
| ApiUtils.NoSchemaElsewhere | src/api/utils.py:140-154 | every other message keeps its content, converted only |
| ApiUtils.ParseMessagesOutcome | src/api/utils.py:193-199 | images are None iff no URL was collected; otherwise one entry per URL, None where reading failed; only the first message is dropped, and only when it is a system message and there are images |
| PythonAst.LiteralEval | src/tools/tool_utils.py:101 | constants evaluate to themselves; names, calls and other nodes raise |
| PythonAst.LiteralEvalAll | src/tools/tool_utils.py:101 | evaluated displays keep one value per element |
| JsonModel.Get | src/tools/tool_utils.py:152-156 | a key lookup succeeds iff the key is present |
| JsonModel.Set | src/tools/tool_utils.py:101 | assignment sets the key, leaves every other key alone, keeps an existing key's place and appends a new one |
| ToolUtils.ArgsClose | src/tools/tool_utils.py:10-12 | the lazy `{.*?}` ends at the first `}` reachable without a newline, or fails when there is none |
| ToolUtils.SearchNameEnd | src/tools/tool_utils.py:10-12 | the backtracking search finds the last position where the name can end, or none exists |
| ToolUtils.FindNameEnd | src/tools/tool_utils.py:10-12 | the greedy `[^}]+` name ends at the last viable position |
| ToolUtils.TagGroupsShape | src/tools/tool_utils.py:10-12 | a match's name is non-empty and has no `}`, its arguments run from `{` to the first `}` with no newline, and the text starts with `<function=name>args` |
| ToolUtils.MatchTagged | src/tools/tool_utils.py:137-140 | `re.match` fails iff no name end is viable; a match has the groups' shape |
| ToolUtils.GenerateCallId | src/tools/tool_utils.py:24-33 | the id is `call_` followed by exactly six characters from `[A-Za-z0-9]`, 11 in all |
| ToolUtils.PrepareTool | src/tools/tool_utils.py:108-123 | the record has a valid id, type "function", the given name and the dumped arguments |
| ToolUtils.JsonInvocations | src/tools/tool_utils.py:150-158 | at most one call; raises (KeyError) iff the object is selected (`type` is "function" or `name` present) but lacks `name` or `parameters` |
| ToolUtils.IsJson | src/tools/tool_utils.py:15-21 | `is_json`: true iff `json.loads` succeeds and gives an object; with NonObjectJsonFallsThrough and JsonObjectSelection it decides the JSON branch |
| ToolUtils.NonObjectJsonFallsThrough | src/tools/tool_utils.py:15-21 | text that parses as JSON but not as an object does not take the JSON branch |
| ToolUtils.ParsePythonListForFunctionCalls | src/tools/tool_utils.py:77-105 | the nested loops compute the specified list of (name, arguments) pairs or raise as specified |
| ToolUtils.MaybeExtractCustomToolCalls | src/tools/tool_utils.py:126-166 | an escaping exception is passed on; otherwise one record per call found, in order, and None instead of an empty list |
| ToolUtils.SetNewKeyAppends | src/tools/tool_utils.py:101 | assigning a new key appends it |
| ToolUtils.KeywordArgsFrom | src/tools/tool_utils.py:97-101 | the keyword loop: each value is `literal_eval`ed and assigned, the first failure raises; KeywordArgsStep and KeywordArgsInOrder state its result |
| ToolUtils.CallsFrom | src/tools/tool_utils.py:91-103 | the call loop: one (name, arguments) pair per call, the first raising call raises; CallsFromOnePerCall states its result |
| ToolUtils.KeywordArgsStep | src/tools/tool_utils.py:100-101 | one keyword step evaluates its value and assigns it |
| ToolUtils.KeywordArgsInOrder | src/tools/tool_utils.py:97-101 | distinct keywords whose values evaluate give a dict with exactly those keys and values, in order |
| ToolUtils.CallsFromOnePerCall | src/tools/tool_utils.py:94-103 | a list of calls yields one (name, arguments) pair per call, in order |
| ToolUtils.IsValidPythonList | src/tools/tool_utils.py:36-70 | one expression statement holding a list whose elements are all calls of a plain name with keyword arguments only; ValidPythonListCalls and PositionalArgumentRejected state its consequences |
| ToolUtils.ValidPythonListCalls | src/tools/tool_utils.py:36-70 | a valid list of keyword-only calls yields one pair per element, named by the called function |
| ToolUtils.ExtractInvocations | src/tools/tool_utils.py:137-166 | the tag branch first, then the JSON branch, then the Python list branch, else no calls; TaggedBranchDecides, JsonObjectSelection, PositionalArgumentRejected and the three example lemmas state its outcomes |
| ToolUtils.TaggedCallParts | src/tools/tool_utils.py:10-12 | `<function=NAME>{ARGS}…` with a `}`-free name and `}`-, newline- and `>`-free arguments matches with exactly that name and `{ARGS}` |
| ToolUtils.TaggedExample | src/tools/tool_utils.py:176-180 | the second example yields one call named `example_function_name` with its decoded arguments |
| ToolUtils.TaggedBranchDecides | src/tools/tool_utils.py:138-148 | once the tag matches, only decoding its quote-replaced arguments matters; a decoding failure yields no call |
| ToolUtils.UntaggedText | src/tools/tool_utils.py:137 | text not starting with `<` does not match the tag |
| ToolUtils.JsonObjectExample | src/tools/tool_utils.py:171-173 | the first example yields one call named `function_name` with its parameters |
| ToolUtils.JsonObjectSelection | src/tools/tool_utils.py:150-158 | an unselected object yields nothing, a selected one without parameters raises, and a complete one yields its name and parameters |
| ToolUtils.PythonListExample | src/tools/tool_utils.py:183-185 | the third example yields the two calls with their keyword arguments in order |
| ToolUtils.ExampleCallArgs | src/tools/tool_utils.py:183 | the example call's keywords evaluate to their dict |
| ToolUtils.PositionalArgumentRejected | src/tools/tool_utils.py:64-68 | a call with a positional argument is not a valid list, so nothing is extracted |
| LlamaVision.GenerationSettings | src/api/llama_vision.py:44-48 | settings set to something other than zero are kept; missing or zero ones take 0.7, 0.9 and 2048; none ends up zero |
| LlamaVision.Context.constructor | src/api/llama_vision.py:79 | a fresh context has no settings, and its missing tool flag reads as false |
| LlamaVision.DecodeRequest | src/api/llama_vision.py:43-49 | the context holds the request's settings, and the tool flag is set iff the request carries a tools list, even an empty one |
| LlamaVision.EncodeResponse | src/api/llama_vision.py:71-90 | one reply per fragment, in order; in tool mode a reply with empty content and the records for the calls found in the stripped buffer so far, otherwise the fragment without the end-of-sequence token; an extractor exception ends the stream at that fragment |
| LlamaVision.ToolModeSticky | src/api/llama_vision.py:78-81 | once a fragment is answered with a tool-call message, every later one is too |
| LlamaVision.Combined | src/api/llama_vision.py:72-78 | the stripped join of the fragments so far; StripExtends and JoinAppend state how it grows |
| LlamaVision.LooksLikeToolCall | src/api/llama_vision.py:79-81 | the buffer starts with `{`, `[` or `<function`; ToolModeSticky states its consequence |
| LlamaVision.TextReply | src/api/llama_vision.py:86-90 | the fragment without end-of-sequence tokens; TextReplyRemovesEos and ReplyKinds state it |
| LlamaVision.TextReplyRemovesEos | src/api/llama_vision.py:86-88 | a text reply is the fragment with every end-of-sequence token removed |
| LlamaVision.WithoutToolFlag | src/api/llama_vision.py:79-90 | without the tool flag every reply is the plain text reply |
| LlamaVision.ReplyKinds | src/api/llama_vision.py:83-90 | tool-call replies have empty content, text replies carry no calls and are no longer than their fragment |
| Common.RemoveAllAbsent | src/api/llama_vision.py:87-88 | removing a token that does not occur changes nothing |
| Common.StripExtends | src/api/llama_vision.py:78 | the stripped buffer of a longer prefix extends the stripped buffer of a shorter one |
| Common.JoinAppend | src/api/llama_vision.py:78 | joining distributes over concatenation |
| Common.ReplaceChar | src/tools/tool_utils.py:142 | single quotes become double quotes and all else is kept, so no single quote remains, and text without one is unchanged |
| Common.Lower | src/ui/utils.py:11 | lower-casing keeps the length, commas and newlines |
| UiUtils.RFind | src/ui/utils.py:11 | the last index of a character, or -1 |
| UiUtils.SplitExt | src/ui/utils.py:11 | the extension is empty or a dot-led, slash-free suffix with no further dot; ExtensionOfNamedFile and DotfileHasNoExtension say which, for every final path component |
| UiUtils.GetFileExtension | src/ui/utils.py:10-11 | the lower-cased extension, empty or starting with a dot, as long as `splitext`'s |
| UiUtils.ExtensionOfNamedFile | src/ui/utils.py:10-11 | a final component `stem.ext`, after any directories or none, whose stem has a non-dot character and whose `ext` has no dot, has extension `.ext` lower-cased |
| UiUtils.DotfileHasNoExtension | src/ui/utils.py:10-11 | a final component of leading dots, none or more, then a dot-free name (".bashrc", "..x", "photo") has no extension, after any directories or none |
| UiUtils.PhotoPngExtension | src/ui/utils.py:10-19 | a bare upload name "photo.PNG" has extension ".png" |
| UiUtils.TarGzExtension | src/ui/utils.py:10-11 | "a.tar.gz" has extension ".gz" |
| UiUtils.BashrcExtension | src/ui/utils.py:10-11 | ".bashrc" has no extension |
| UiUtils.NoDotNoExtension | src/ui/utils.py:10-11 | a name without a dot has no extension |
| UiUtils.RFindLast | src/ui/utils.py:11 | `rfind` finds the last occurrence |
| UiUtils.IsImage | src/ui/utils.py:14-15 | the lower-cased extension is one of the image extensions; AllImages states its use |
| UiUtils.AllImages | src/ui/utils.py:14-19 | true iff every file's extension is an image extension; true for no files |
| UiUtils.PrepareContentWithImages | src/ui/utils.py:22-31 | the images in order, then exactly one text part with the prompt |
| UiUtils.PreparedContentOnServer | src/ui/utils.py:22-31 | the server makes one placeholder per image then the prompt of it, and collects the image URLs in order |
| UiUtils.ImagePartsUrls | src/ui/utils.py:22-31 | image parts built from URLs give those URLs back |
| UiUtils.TargetSize | src/ui/utils.py:48-57 | images within 720 are unchanged; otherwise the longer side (height on a tie) becomes 720 and the other is the floor of its scaled length; neither side exceeds 720 |
| UiUtils.ScaleDown | src/ui/utils.py:53-56 | the truncated scaled side is at most 720 and the floor of the exact quotient |
| UiUtils.SquareBecomesLimit | src/ui/utils.py:49-56 | a square larger than the limit becomes 720 by 720 |
| UiUtils.EncodeGroup | src/ui/utils.py:64 | three bytes become four alphabet characters |
| UiUtils.Base64Encode | src/ui/utils.py:64 | the encoding has `ceil(n/3)*4` characters, all from the alphabet or `=` |
| UiUtils.SextetInverse | src/ui/utils.py:64 | each alphabet character decodes to its 6-bit value |
| UiUtils.GroupInverse | src/ui/utils.py:64 | the decoder's bit shuffling undoes the encoder's for one group |
| UiUtils.Base64RoundTrip | src/ui/utils.py:64 | decoding the encoding gives the bytes back |
| UiUtils.LastGroupOne | src/ui/utils.py:64 | one trailing byte round-trips through `xx==` |
| UiUtils.LastGroupTwo | src/ui/utils.py:64 | two trailing bytes round-trip through `xxx=` |
| UiUtils.DecodeGroup | src/ui/utils.py:64 | four alphabet characters in front decode to their three bytes, followed by the rest's decoding |
| UiUtils.FullGroup | src/ui/utils.py:64 | a leading three-byte group round-trips when the rest does |
| UiUtils.FormatOrJpeg | src/ui/utils.py:61 | the format is the image's own when set and non-empty, else "JPEG" |
| UiUtils.EncodeImage | src/ui/utils.py:44-76 | a failed load gives None; otherwise a part is produced iff the target size is the original or has both sides positive and saving succeeds, and its URL is `data:image/` + the lower-cased format (JPEG after a resize or without a format) + `;base64,` + the encoding of the saved bytes |
| UiUtils.ResizedIsJpeg | src/ui/utils.py:57-63 | a resized image's URL always starts with `data:image/jpeg;base64,` |
| UiUtils.DataUrl | src/ui/utils.py:63-65 | `data:image/{format.lower()};base64,` + the encoding; DataUrlRoundTrip, DataUrlRecognised and DataUrlPayload state what the server makes of it |
| UiUtils.DataUrlRoundTrip | src/ui/utils.py:63-65 | a built URL takes the server's base64 branch, its `split(",")[1]` is exactly the payload, and the payload decodes to the saved bytes |
| UiUtils.DataUrlRecognised | src/ui/utils.py:63-65 | a built URL matches the base64 pattern and not the http one |
| UiUtils.DataUrlPayload | src/ui/utils.py:65 | the second comma field of a built URL is the payload, as the alphabet has no comma |
| UiUtils.SecondFieldAfterOnlyComma | src/ui/utils.py:65 | with a single comma, the second field is everything after it |
| UiUtils.FirstFieldNoComma | src/ui/utils.py:65 | comma-free text is its own first field |
| UiUtils.EncodeImageRoundTrip | src/ui/utils.py:44-73 | every URL `encode_image` produces takes the server's base64 branch and decodes to the bytes saved at the target size and format |
| HfPapers.GetOr | src/tools/get_top_hf_papers.py:27 | `get` with a default gives the stored value when the key is present, else the default |
| HfPapers.AuthorNames | src/tools/get_top_hf_papers.py:34-37 | a list of authors gives one name per author iff every author is a dict |
| HfPapers.NamesOf | src/tools/get_top_hf_papers.py:34-37 | each author's name or "", in order |
| HfPapers.Project | src/tools/get_top_hf_papers.py:27-50 | a projected record's link starts with the papers URL |
| HfPapers.MapAll | src/tools/get_top_hf_papers.py:25-50 | the ordered map succeeds iff every element does, giving one result per element in order |
| HfPapers.ProjectAll | src/tools/get_top_hf_papers.py:25-50 | all entries project, one record each in order, or the loop raises iff some entry fails |
| HfPapers.ProjectEntries | src/tools/get_top_hf_papers.py:25-50 | the loop computes the projection |
| HfPapers.ProjectionFailsOnPrefix | src/tools/get_top_hf_papers.py:26-50 | a failure in a prefix fails the whole loop |
| HfPapers.MissingPaperDefaults | src/tools/get_top_hf_papers.py:27-39 | without a "paper" dict the record gets title "Unknown", 0 upvotes, the bare papers URL, no authors and empty strings |
| HfPapers.ProjectedFields | src/tools/get_top_hf_papers.py:27-39 | every present field is taken over and every missing one takes its default; the authors are the names of the present authors list; the link ends in the id, or in `str(id)` when it is not a string |
| HfPapers.Insert | src/tools/get_top_hf_papers.py:52 | inserting adds exactly one record |
| HfPapers.SortDesc | src/tools/get_top_hf_papers.py:52 | sorting keeps the length |
| HfPapers.SortByUpvotes | src/tools/get_top_hf_papers.py:52 | the in-place sort leaves the array holding the stable descending sort of its old contents |
| HfPapers.InsertNext | src/tools/get_top_hf_papers.py:52 | one pass moves the next record behind every earlier record with at least its upvotes |
| HfPapers.ShiftGreater | src/tools/get_top_hf_papers.py:52 | the records after the last one with at least the new record's upvotes move one place up, and nothing else changes |
| HfPapers.InsertAt | src/tools/get_top_hf_papers.py:52 | a record goes after the last record with at least its upvotes, before the later ones, all of which have fewer |
| HfPapers.LastOfAppend | src/tools/get_top_hf_papers.py:52 | equal lists with one record appended agree on the front and on the record |
| HfPapers.InsertPermutes | src/tools/get_top_hf_papers.py:52 | insertion adds exactly the inserted record |
| HfPapers.SortPermutes | src/tools/get_top_hf_papers.py:52 | the sorted list is a permutation of the records |
| HfPapers.InsertSorted | src/tools/get_top_hf_papers.py:52 | insertion keeps the list non-increasing by upvotes |
| HfPapers.SortSorted | src/tools/get_top_hf_papers.py:52 | the sorted list is non-increasing by upvotes |
| HfPapers.InsertKeepsTies | src/tools/get_top_hf_papers.py:52 | insertion puts a record after the records with equal upvotes |
| HfPapers.SortStable | src/tools/get_top_hf_papers.py:52 | records with equal upvotes keep their input order |
| HfPapers.StableSortUnique | src/tools/get_top_hf_papers.py:52 | two sorted lists with the same records per upvote count, in the same order, are equal, so every stable descending sort agrees with this one |
| HfPapers.EmptyAgrees | src/tools/get_top_hf_papers.py:52 | an empty list agrees only with the empty list |
| HfPapers.LastsTie | src/tools/get_top_hf_papers.py:52 | agreeing sorted lists end with the same, smallest, upvotes |
| HfPapers.DropLastTie | src/tools/get_top_hf_papers.py:52 | agreement survives removing tied last records, which are the same record |
| HfPapers.WithVotesOfLast | src/tools/get_top_hf_papers.py:52 | the last record's upvotes occur in the list |
| HfPapers.WithVotesBelowLast | src/tools/get_top_hf_papers.py:52 | no record of a sorted list has fewer upvotes than its last |
| HfPapers.SliceEnd | src/tools/get_top_hf_papers.py:53 | `[:n]` ends within the list, at `min(n, count)` for `n >= 0` |
| HfPapers.PapersJson | src/tools/get_top_hf_papers.py:40-50 | one dict per record, in order |
| HfPapers.GetTopHfPapers | src/tools/get_top_hf_papers.py:17-60 | the text returned is the dump of the specified top records |
| HfPapers.TopPapersKept | src/tools/get_top_hf_papers.py:52-53 | a response that projects and sorts keeps the sorted records up to the slice end |
| HfPapers.TopPapersEmpty | src/tools/get_top_hf_papers.py:17-23 | a failed projection, an unsortable list or an invalid `n` gives the empty list |
| HfPapers.FailuresGiveNothing | src/tools/get_top_hf_papers.py:17-23 | a failed request, an empty or non-list response, or an entry that is not a dict gives the empty list |
| HfPapers.TopPapers | src/tools/get_top_hf_papers.py:17-53 | the ranked records of a response; TopPapersKept, TopPapersEmpty, FailuresGiveNothing, RankedPrefix and Ranked state its result |
| HfPapers.RankedPrefix | src/tools/get_top_hf_papers.py:52-53 | a response that ranks keeps the first `min(n, count)` records of the sort |
| HfPapers.Ranked | src/tools/get_top_hf_papers.py:52-53 | for `n >= 0` the result is the first `min(n, count)` records of the stable sort, non-increasing, drawn from the projected records, and no omitted record has more upvotes than a kept one |
| HfPapers.KeptAndOmitted | src/tools/get_top_hf_papers.py:52-53 | a prefix of a sorted permutation is sorted, drawn from the records, and no smaller than anything after it |

## Left out

- The I/O is not modelled:
  - fetching and opening images, and Pillow's decoding, conversion and BICUBIC resampling;
  - the HTTP request of the paper tool, `response.json()` and the `datetime.now()` default date;
  - `print` and `self.log`.

  An image is its size, and reading, saving and fetching are parameters.
- Model loading, the processor and chat template, `predict` and its generation thread are not modelled. The generated fragments are an input sequence, and the end-of-sequence token is a parameter.
- The `ThreadPoolExecutor` in `parse_messages` is concurrency. It is modelled as the ordered sequential map that `executor.map` is equivalent to.
- `secrets.choice` is modelled as an arbitrary pick from the alphabet. Only the id format is proved, not uniqueness.
- These library calls are parameters with no properties assumed:
  - `json.dumps`, `json.loads` and `ast.parse`;
  - pydantic's `model_dump`;
  - Python's `str()` of a non-string value.
- `ast.literal_eval` is modelled for constants, lists, tuples, dicts with string keys and a signed integer. Sets, bytes, complex numbers and non-string dict keys are not modelled.
- `temperature` and `top_p` are exact reals. Only their `x or default` rule is modelled.
- ApiUtils.ProcessImage and UiUtils.TargetSize compute `int(a * 720 / b)` as exact floor division. Python rounds the exact quotient to the nearest double before truncating, so for sizes beyond about 2^53 the source could give one more, when the rounded quotient reaches the next integer (a width of 2^55 and a height one less give 720 in the source and 719 here). For ProcessImage, a quotient beyond 2^53 can also round down.
- UiUtils.SplitExt follows POSIX `posixpath.splitext`, with `/` as the only separator. On Windows, `ntpath` also splits on `\` and after a drive's `:`, and that is not modelled.
- ToolUtils.KeyOf stores a `**mapping` keyword (no name) under the key "null", so it collides with a literal `null=` keyword. Python keeps both, and `json.dumps` writes the key twice; the model keeps one key.
- Common.Lower lower-cases ASCII letters only. Python's Unicode case mapping is not modelled.
- UiUtils.Base64Decode is a strict decoder that serves as the partner of the encoder. The lenient `base64.b64decode` the server calls, which discards characters outside the alphabet, is not modelled.
- UiUtils.EncodeImage takes the converted image's `format` as a parameter. With Pillow, `convert("RGB")` returns an image without a format, so in practice every URL says `image/jpeg`.
- HfPapers.TopPapers treats non-numeric upvotes among two or more records as the `TypeError` that comparing them raises. Python would still sort a list whose upvotes are all strings or all lists; the model returns the empty list for it.
- HfPapers.Project: a JSON `null`, number or boolean in `thumbnail`, `title`, `publishedAt` or `summary` is carried over as it is, as in the source. A JSON float is not modelled.
- `n` in the paper tool is JSON. An integer, a boolean or a JSON `null` (`None`) slices as Python does, and anything else gives the empty list. A call without `n` raises `TypeError`, as `n` has no default; such a call is not modelled. Floats are not modelled.
- JsonModel.Json and PythonAst constants have no floating-point numbers, so float arguments such as `{"a": 1.5}` or `f(a=1.5)` cannot be represented in any extracted call.
- Extraction inside the tag branch catches every exception in the source. The model covers only the decoding failure, which gives no call.
