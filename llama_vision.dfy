/** The parts of the LitServe handler (src/api/llama_vision.py) that are
    not model inference: the generation settings and the tool flag that
    `decode_request` stores in the per-request context, and the loop of
    `encode_response` that turns the streamed text fragments into chat
    messages, switching to tool-call messages once the output so far looks
    like a call. The fragments are an input sequence; the tokenizer's
    end-of-sequence token is the parameter `eos`. */
module LlamaVision {
  import opened Common
  import opened JsonModel
  import opened PythonAst
  import opened ApiUtils
  import opened ToolUtils

  // ---------------------------------------------------------------------
  // decode_request
  // ---------------------------------------------------------------------

  datatype GenerationArgs = GenerationArgs(temperature: real, topP: real, maxNewTokens: int)

  const DefaultTemperature: real := 0.7
  const DefaultTopP: real := 0.9
  const DefaultMaxNewTokens := 2048

  /** `x or default` on an optional number: None and zero fall back. */
  function OrReal(x: Option<real>, default: real): real
  {
    if x.None? || x.value == 0.0 then default else x.value
  }

  function OrInt(x: Option<int>, default: int): int
  {
    if x.None? || x.value == 0 then default else x.value
  }

  /** The generation settings of a request: each value the request sets to
      something other than zero is kept, the others take the defaults, so
      no setting ends up zero. */
  function GenerationSettings(request: ChatRequest): (g: GenerationArgs)
    ensures g.temperature != 0.0 && g.topP != 0.0 && g.maxNewTokens != 0
    ensures request.temperature.Some? && request.temperature.value != 0.0 ==> g.temperature == request.temperature.value
    ensures request.topP.Some? && request.topP.value != 0.0 ==> g.topP == request.topP.value
    ensures request.maxTokens.Some? && request.maxTokens.value != 0 ==> g.maxNewTokens == request.maxTokens.value
    ensures request.maxTokens.None? || request.maxTokens == Some(0) ==> g.maxNewTokens == DefaultMaxNewTokens
  {
    GenerationArgs(OrReal(request.temperature, DefaultTemperature), OrReal(request.topP, DefaultTopP),
                   OrInt(request.maxTokens, DefaultMaxNewTokens))
  }

  /** The per-request context dict. Before `decode_request` it holds no
      "tool" entry, which reads as false. */
  class Context {
    var generationArgs: Option<GenerationArgs>
    var tool: bool

    constructor ()
      ensures generationArgs == None && !tool
    {
      generationArgs := None;
      tool := false;
    }
  }

  /** `decode_request`, lines 44-49: the settings and the tool flag, which
      is set whenever the request carries a tools list, even an empty one. */
  method DecodeRequest(request: ChatRequest, context: Context)
    modifies context
    ensures context.generationArgs == Some(GenerationSettings(request))
    ensures context.tool <==> request.tools.Some?
  {
    context.generationArgs := Some(GenerationArgs(
      if request.temperature.Some? && request.temperature.value != 0.0 then request.temperature.value else 0.7,
      if request.topP.Some? && request.topP.value != 0.0 then request.topP.value else 0.9,
      if request.maxTokens.Some? && request.maxTokens.value != 0 then request.maxTokens.value else 2048));
    context.tool := request.tools.Some?;
  }

  // ---------------------------------------------------------------------
  // encode_response
  // ---------------------------------------------------------------------

  /** `ChatMessage(role=..., content=..., tool_calls=...)`. */
  datatype Reply = Reply(role: string, content: string, toolCalls: Option<seq<ToolCall>>)

  /** The buffer after fragment `i`, joined and stripped. */
  function Combined(outputs: seq<string>, i: nat): string
    requires i < |outputs|
  {
    Strip(Join(outputs[..i + 1]))
  }

  /** `combined_output.startswith(("{", "[", "<function"))` */
  predicate LooksLikeToolCall(s: string)
  {
    StartsWith(s, "{") || StartsWith(s, "[") || StartsWith(s, "<function")
  }

  /** Fragment `i` is answered with a tool-call message. */
  predicate ToolBranch(outputs: seq<string>, i: nat, tool: bool)
    requires i < |outputs|
  {
    tool && LooksLikeToolCall(Combined(outputs, i))
  }

  /** The text message for fragment `i`: the fragment alone, with the
      end-of-sequence token removed when it occurs. */
  function TextReply(outputs: seq<string>, i: nat, eos: string): Reply
    requires i < |outputs|
  {
    var output := outputs[i];
    Reply("assistant", if Contains(output, eos) then RemoveAll(output, eos) else output, None)
  }

  /** `reply` is a message `encode_response` may yield for fragment `i`: a
      tool-call message with empty content and one record per call found in
      the stripped buffer, or else the text message. */
  predicate IsReplyAt(reply: Reply, outputs: seq<string>, i: nat, tool: bool, eos: string,
                      loads: string -> Option<Json>, astParse: string -> Option<PyModule>, dumps: Json -> string)
    requires i < |outputs|
  {
    if ToolBranch(outputs, i, tool) then
      var found := ExtractInvocations(Combined(outputs, i), loads, astParse);
      && found.Ok?
      && reply.role == "assistant" && reply.content == ""
      && RecordsFor(reply.toolCalls, found.value, dumps)
    else reply == TextReply(outputs, i, eos)
  }

  /** `encode_response`: one message per fragment, in order. An exception
      escaping the extractor ends the stream; `raised` names it. */
  method EncodeResponse(outputs: seq<string>, context: Context, eos: string,
                        loads: string -> Option<Json>, astParse: string -> Option<PyModule>, dumps: Json -> string)
    returns (replies: seq<Reply>, raised: Option<string>)
    ensures |replies| <= |outputs|
    ensures forall i :: 0 <= i < |replies| ==> IsReplyAt(replies[i], outputs, i, context.tool, eos, loads, astParse, dumps)
    ensures raised.None? <==> |replies| == |outputs|
    ensures raised.Some? ==>
      && |replies| < |outputs| && ToolBranch(outputs, |replies|, context.tool)
      && ExtractInvocations(Combined(outputs, |replies|), loads, astParse) == Raised(raised.value)
  {
    var buffer: seq<string> := [];
    replies := [];
    for i := 0 to |outputs|
      invariant buffer == outputs[..i]
      invariant |replies| == i
      invariant forall k :: 0 <= k < i ==> IsReplyAt(replies[k], outputs, k, context.tool, eos, loads, astParse, dumps)
    {
      var output := outputs[i];
      buffer := buffer + [output];
      assert buffer == outputs[..i + 1];
      var combinedOutput := Strip(Join(buffer));
      if context.tool && LooksLikeToolCall(combinedOutput) {
        var toolCalls := MaybeExtractCustomToolCalls(combinedOutput, loads, astParse, dumps);
        if toolCalls.Raised? {
          return replies, Some(toolCalls.error);
        }
        replies := replies + [Reply("assistant", "", toolCalls.value)];
        continue;
      }
      if Contains(output, eos) {
        output := RemoveAll(output, eos);
      }
      replies := replies + [Reply("assistant", output, None)];
    }
    raised := None;
  }

  // ---------------------------------------------------------------------
  // Properties
  // ---------------------------------------------------------------------

  /** The buffer only grows, and a stripped buffer that starts like a call
      keeps that start: once a fragment is answered with a tool-call
      message, so is every later one. */
  lemma ToolModeSticky(outputs: seq<string>, i: nat, j: nat, tool: bool)
    requires i <= j < |outputs| && ToolBranch(outputs, i, tool)
    ensures ToolBranch(outputs, j, tool)
  {
    var a := outputs[..i + 1];
    var b := outputs[i + 1..j + 1];
    assert outputs[..j + 1] == a + b;
    JoinAppend(a, b);
    var s := Combined(outputs, i);
    assert s != [];
    StripExtends(Join(a), Join(b));
    var t := Combined(outputs, j);
    if StartsWith(s, "{") {
      StartsWithTrans(t, s, "{");
    } else if StartsWith(s, "[") {
      StartsWithTrans(t, s, "[");
    } else {
      StartsWithTrans(t, s, "<function");
    }
  }

  /** The `if eos in output` test is only a shortcut: a text message holds
      the fragment with every occurrence of the token removed. */
  lemma TextReplyRemovesEos(outputs: seq<string>, i: nat, eos: string)
    requires i < |outputs|
    ensures TextReply(outputs, i, eos) == Reply("assistant", RemoveAll(outputs[i], eos), None)
  {
    if !Contains(outputs[i], eos) {
      RemoveAllAbsent(outputs[i], eos);
    }
  }

  /** Without the tool flag every message is the text message of its own
      fragment, and the stream never raises. */
  lemma WithoutToolFlag(outputs: seq<string>, i: nat, eos: string, reply: Reply,
                        loads: string -> Option<Json>, astParse: string -> Option<PyModule>, dumps: Json -> string)
    requires i < |outputs|
    ensures !ToolBranch(outputs, i, false)
    ensures IsReplyAt(reply, outputs, i, false, eos, loads, astParse, dumps)
      <==> reply == Reply("assistant", RemoveAll(outputs[i], eos), None)
  {
    TextReplyRemovesEos(outputs, i, eos);
  }

  /** A tool-call message never carries text, and a text message never
      carries calls. */
  lemma ReplyKinds(reply: Reply, outputs: seq<string>, i: nat, tool: bool, eos: string,
                   loads: string -> Option<Json>, astParse: string -> Option<PyModule>, dumps: Json -> string)
    requires i < |outputs| && IsReplyAt(reply, outputs, i, tool, eos, loads, astParse, dumps)
    ensures reply.role == "assistant"
    ensures ToolBranch(outputs, i, tool) ==> reply.content == ""
    ensures !ToolBranch(outputs, i, tool) ==> reply.toolCalls.None? && |reply.content| <= |outputs[i]|
  {
  }
}
