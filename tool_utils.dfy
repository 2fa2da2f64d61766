/** Tool-call extraction from generated text (src/tools/tool_utils.py).
    Three surface syntaxes are tried in a fixed order: a tag
    `<function=NAME>{ARGS}` anchored at the start of the text, a whole-text
    JSON object, and a whole-text Python list of keyword-only calls. Each
    recognised call becomes a record `{id, type: "function", function:
    {name, arguments}}`. `json.loads`, `json.dumps` and `ast.parse` are
    library calls and are parameters here. */
module ToolUtils {
  import opened Common
  import opened JsonModel
  import opened PythonAst

  // ---------------------------------------------------------------------
  // CUSTOM_TOOL_CALL_PATTERN = <function=(?P<function_name>[^}]+)>(?P<args>{.*?})
  // applied with re.match, so anchored at index 0.
  // ---------------------------------------------------------------------

  const TagOpen := "<function="

  /** `k` can end the lazy group `{.*?}` whose body starts at `j`: it is a
      `}` and no newline (which `.` does not match) comes before it. */
  predicate ClosesAt(s: string, j: int, k: int)
  {
    0 <= j <= k < |s| && s[k] == '}' && forall i :: j <= i < k ==> s[i] != '\n'
  }

  /** The lazy `.*?}`: the first position that can close the group. */
  function ArgsClose(s: string, j: nat): (k: Option<nat>)
    ensures k.Some? ==> ClosesAt(s, j, k.value) && forall m :: j <= m < k.value ==> !ClosesAt(s, j, m)
    ensures k.None? ==> forall m :: !ClosesAt(s, j, m)
    decreases |s| - j
  {
    if j >= |s| || s[j] == '\n' then None
    else if s[j] == '}' then Some(j)
    else
      var k := ArgsClose(s, j + 1);
      assert forall m :: ClosesAt(s, j, m) && m != j ==> ClosesAt(s, j + 1, m);
      k
  }

  /** The pattern matches at the start of `s` with the name group ending at
      `e` (where the `>` stands): the name is a non-empty run without `}`,
      then `>{`, then a closing `}` reachable without crossing a newline. */
  predicate TagMatchesAt(s: string, e: int)
  {
    && StartsWith(s, TagOpen)
    && |TagOpen| < e && e + 1 < |s|
    && NoChar(s[|TagOpen|..e], '}')
    && s[e] == '>' && s[e + 1] == '{'
    && ArgsClose(s, e + 2).Some?
  }

  /** Backtracking of the greedy `[^}]+`: try name ends from the right. */
  function SearchNameEnd(s: string, e: int): (r: Option<nat>)
    requires forall e' :: e < e' ==> !TagMatchesAt(s, e')
    ensures r.Some? ==> TagMatchesAt(s, r.value) && forall e' :: r.value < e' ==> !TagMatchesAt(s, e')
    ensures r.None? ==> forall e' :: !TagMatchesAt(s, e')
    decreases e
  {
    if e <= |TagOpen| then None
    else if TagMatchesAt(s, e) then Some(e)
    else SearchNameEnd(s, e - 1)
  }

  /** Where the name group ends when the pattern matches: the greedy name
      takes the rightmost `>` that still lets the whole pattern match. */
  function FindNameEnd(s: string): (r: Option<nat>)
    ensures r.Some? ==> TagMatchesAt(s, r.value) && forall e' :: r.value < e' ==> !TagMatchesAt(s, e')
    ensures r.None? ==> forall e' :: !TagMatchesAt(s, e')
  {
    SearchNameEnd(s, |s|)
  }

  /** The two groups of a match whose name ends at `e`. */
  function TagGroups(s: string, e: nat): (string, string)
    requires TagMatchesAt(s, e)
  {
    (s[|TagOpen|..e], s[e + 1..ArgsClose(s, e + 2).value + 1])
  }

  lemma TagGroupsShape(s: string, e: nat)
    requires TagMatchesAt(s, e)
    ensures var (name, args) := TagGroups(s, e);
      && |name| > 0 && NoChar(name, '}')
      && StartsWith(s, TagOpen + name + ">" + args)
      && |args| >= 2 && args[0] == '{' && args[|args| - 1] == '}'
      && NoChar(args, '\n') && NoChar(args[..|args| - 1], '}')
  {
    var k := ArgsClose(s, e + 2).value;
    var (name, args) := TagGroups(s, e);
    assert ClosesAt(s, e + 2, k);
    var whole := TagOpen + name + ">" + args;
    assert |whole| == k + 1;
    assert s[..k + 1] == whole by {
      assert s[..k + 1] == s[..|TagOpen|] + s[|TagOpen|..e] + [s[e]] + s[e + 1..k + 1];
    }
    forall i | 0 <= i < |args| - 1
      ensures args[i] != '}' && args[i] != '\n'
    {
      assert args[i] == s[e + 1 + i];
      if i > 0 {
        assert !ClosesAt(s, e + 2, e + 1 + i);
      }
    }
  }

  /** `re.match(CUSTOM_TOOL_CALL_PATTERN, s)` with its two groups
      `(function_name, args)`, or None when the pattern does not match. */
  function MatchTagged(s: string): (m: Option<(string, string)>)
    ensures m.None? <==> forall e :: !TagMatchesAt(s, e)
    ensures m.Some? ==>
      var (name, args) := m.value;
      && |name| > 0 && NoChar(name, '}')
      && StartsWith(s, TagOpen + name + ">" + args)
      && |args| >= 2 && args[0] == '{' && args[|args| - 1] == '}'
      && NoChar(args, '\n') && NoChar(args[..|args| - 1], '}')
  {
    match FindNameEnd(s)
    case None => None
    case Some(e) =>
      TagGroupsShape(s, e);
      Some(TagGroups(s, e))
  }

  /** A tag at the start of the text whose name has no `}` and whose
      argument body has no `}`, newline or `>` matches with exactly that
      name and those arguments, whatever follows. */
  lemma TaggedCallParts(name: string, inner: string, tail: string)
    requires |name| > 0 && NoChar(name, '}')
    requires NoChar(inner, '}') && NoChar(inner, '\n') && NoChar(inner, '>')
    ensures MatchTagged(TagOpen + name + ">" + "{" + inner + "}" + tail) == Some((name, "{" + inner + "}"))
  {
    var args := "{" + inner + "}";
    var s := TagOpen + name + ">" + "{" + inner + "}" + tail;
    var e := |TagOpen| + |name|;
    var close := e + |args|;
    assert s == TagOpen + name + (">" + args + tail);
    assert s[..|TagOpen|] == TagOpen;
    assert s[|TagOpen|..e] == name;
    assert s[e] == '>' && s[e + 1] == '{' && s[close] == '}';
    assert forall i :: e + 2 <= i < close ==> s[i] == inner[i - e - 2];
    assert ClosesAt(s, e + 2, close);
    assert ArgsClose(s, e + 2) == Some(close);
    assert TagMatchesAt(s, e);
    forall e' | e < e'
      ensures !TagMatchesAt(s, e')
    {
      if e' > close && e' <= |s| {
        assert s[|TagOpen|..e'][close - |TagOpen|] == '}';
      }
    }
    assert FindNameEnd(s) == Some(e);
    assert s[e + 1..close + 1] == args;
    assert TagGroups(s, e) == (name, args);
  }

  // ---------------------------------------------------------------------
  // Call records
  // ---------------------------------------------------------------------

  /** string.ascii_letters + string.digits */
  const IdAlphabet := "abcdefghijklmnopqrstuvwxyzABCDEFGHIJKLMNOPQRSTUVWXYZ0123456789"

  /** `call_` followed by exactly six characters from [A-Za-z0-9]. */
  predicate IsCallId(id: string)
  {
    |id| == 11 && id[..5] == "call_" && forall i :: 5 <= i < |id| ==> id[i] in IdAlphabet
  }

  /** `generate_call_id`: each of the six characters is an arbitrary pick
      from the alphabet, standing for `secrets.choice`. */
  method GenerateCallId() returns (id: string)
    ensures IsCallId(id)
  {
    var suffix := "";
    for k := 0 to 6
      invariant |suffix| == k
      invariant forall i :: 0 <= i < k ==> suffix[i] in IdAlphabet
    {
      assert IdAlphabet[0] in IdAlphabet;
      var c :| c in IdAlphabet;
      suffix := suffix + [c];
    }
    id := "call_" + suffix;
  }

  datatype FunctionCall = FunctionCall(name: Json, arguments: string)

  /** `{"id": ..., "type": ..., "function": {"name": ..., "arguments": ...}}` */
  datatype ToolCall = ToolCall(id: string, kind: string, call: FunctionCall)

  /** A recognised call before it receives an id: its name and its decoded
      arguments. */
  datatype Invocation = Invocation(name: Json, args: Json)

  predicate IsRecordFor(t: ToolCall, inv: Invocation, dumps: Json -> string)
  {
    IsCallId(t.id) && t.kind == "function" && t.call == FunctionCall(inv.name, dumps(inv.args))
  }

  /** The value `maybe_extract_custom_tool_calls` returns for the calls
      `invs`: one record per call, in order, or None when there are none. */
  predicate RecordsFor(out: Option<seq<ToolCall>>, invs: seq<Invocation>, dumps: Json -> string)
  {
    if invs == [] then out == None
    else out.Some? && |out.value| == |invs| && forall i :: 0 <= i < |invs| ==> IsRecordFor(out.value[i], invs[i], dumps)
  }

  /** `prepare_tool`: a fresh id, type "function", and the arguments
      serialised with `json.dumps`. */
  method PrepareTool(toolName: Json, args: Json, dumps: Json -> string) returns (tool: ToolCall)
    ensures IsRecordFor(tool, Invocation(toolName, args), dumps)
  {
    var id := GenerateCallId();
    tool := ToolCall(id, "function", FunctionCall(toolName, dumps(args)));
  }

  // ---------------------------------------------------------------------
  // JSON syntax
  // ---------------------------------------------------------------------

  /** `is_json`: the text parses and the value is an object. */
  predicate IsJson(s: string, loads: string -> Option<Json>)
  {
    loads(s).Some? && loads(s).value.JObject?
  }

  /** The JSON branch on a decoded object: selected when `type` is
      "function" or `name` is present; a selected object lacking `name` or
      `parameters` raises KeyError, which nothing catches. */
  function JsonInvocations(response: seq<(string, Json)>): (r: Result<seq<Invocation>>)
    ensures r.Ok? ==> |r.value| <= 1
    ensures r.Raised? <==>
      (Get(response, "type") == Some(JStr("function")) || Get(response, "name").Some?)
      && (Get(response, "name").None? || Get(response, "parameters").None?)
  {
    if Get(response, "type") == Some(JStr("function")) || Get(response, "name").Some? then
      match (Get(response, "name"), Get(response, "parameters"))
      case (None, _) => Raised("KeyError: 'name'")
      case (Some(_), None) => Raised("KeyError: 'parameters'")
      case (Some(n), Some(p)) => Ok([Invocation(n, p)])
    else Ok([])
  }

  // ---------------------------------------------------------------------
  // Python-list syntax
  // ---------------------------------------------------------------------

  predicate IsKeywordCall(e: Expr)
  {
    e.Call? && e.func.Name? && |e.args| == 0
  }

  /** `is_valid_python_list`: the text parses (None stands for
      SyntaxError) into a module of exactly one expression statement whose
      expression is a non-empty list of calls on plain names with no
      positional arguments. */
  predicate IsValidPythonList(parsed: Option<PyModule>)
  {
    && parsed.Some?
    && |parsed.value.body| == 1
    && parsed.value.body[0].ExprStmt?
    && parsed.value.body[0].value.ListExpr?
    && |parsed.value.body[0].value.elts| > 0
    && forall e :: e in parsed.value.body[0].value.elts ==> IsKeywordCall(e)
  }

  /** The dict key of one keyword argument; a `**mapping` argument is
      stored under None, which `json.dumps` writes as "null". */
  function KeyOf(k: Keyword): string
  {
    match k.arg
    case Some(a) => a
    case None => "null"
  }

  /** The inner loop: `function_args[keyword.arg] = ast.literal_eval(...)`
      for the remaining keywords, on top of the dict built so far. */
  function KeywordArgsFrom(kws: seq<Keyword>, acc: seq<(string, Json)>): Result<seq<(string, Json)>>
    decreases |kws|
  {
    if |kws| == 0 then Ok(acc)
    else
      match LiteralEval(kws[0].value)
      case Raised(err) => Raised(err)
      case Ok(v) => KeywordArgsFrom(kws[1..], Set(acc, KeyOf(kws[0]), v))
  }

  function CallName(e: Expr): Json
    requires e.Call?
  {
    if e.func.Name? then JStr(e.func.id) else JNull
  }

  /** The outer loop over the list elements: calls are collected after
      `acc`, other elements are skipped, the first failing literal
      escapes. */
  function CallsFrom(es: seq<Expr>, acc: seq<Invocation>): Result<seq<Invocation>>
    decreases |es|
  {
    if |es| == 0 then Ok(acc)
    else if !es[0].Call? then CallsFrom(es[1..], acc)
    else
      match KeywordArgsFrom(es[0].keywords, [])
      case Raised(err) => Raised(err)
      case Ok(fields) => CallsFrom(es[1..], acc + [Invocation(CallName(es[0]), JObject(fields))])
  }

  const IndexErrorBody := "IndexError: list index out of range"
  const NotAListError := "ValueError: Input must be a list of function calls"

  /** What `parse_python_list_for_function_calls` computes on a parsed module. */
  function PythonListCalls(tree: PyModule): Result<seq<Invocation>>
  {
    if |tree.body| == 0 then Raised(IndexErrorBody)
    else if !tree.body[0].ExprStmt? || !tree.body[0].value.ListExpr? then Raised(NotAListError)
    else CallsFrom(tree.body[0].value.elts, [])
  }

  /** `parse_python_list_for_function_calls`, with its two nested loops,
      on the tree `ast.parse` returned. */
  method ParsePythonListForFunctionCalls(tree: PyModule) returns (r: Result<seq<Invocation>>)
    ensures r == PythonListCalls(tree)
  {
    if |tree.body| == 0 {
      return Raised(IndexErrorBody);
    }
    if !tree.body[0].ExprStmt? || !tree.body[0].value.ListExpr? {
      return Raised(NotAListError);
    }
    var elts := tree.body[0].value.elts;
    var result: seq<Invocation> := [];
    var i := 0;
    while i < |elts|
      invariant 0 <= i <= |elts|
      invariant CallsFrom(elts[i..], result) == CallsFrom(elts, [])
    {
      var node := elts[i];
      assert elts[i..][0] == node && elts[i..][1..] == elts[i + 1..];
      if node.Call? {
        var functionName := if node.func.Name? then JStr(node.func.id) else JNull;
        var functionArgs: seq<(string, Json)> := [];
        var j := 0;
        while j < |node.keywords|
          invariant 0 <= j <= |node.keywords|
          invariant KeywordArgsFrom(node.keywords[j..], functionArgs) == KeywordArgsFrom(node.keywords, [])
        {
          var keyword := node.keywords[j];
          assert node.keywords[j..][0] == keyword && node.keywords[j..][1..] == node.keywords[j + 1..];
          var value := LiteralEval(keyword.value);
          if value.Raised? {
            return Raised(value.error);
          }
          functionArgs := Set(functionArgs, KeyOf(keyword), value.value);
          j := j + 1;
        }
        assert node.keywords[j..] == [];
        result := result + [Invocation(functionName, JObject(functionArgs))];
      }
      i := i + 1;
    }
    assert elts[i..] == [];
    return Ok(result);
  }

  // ---------------------------------------------------------------------
  // The three syntaxes in order
  // ---------------------------------------------------------------------

  /** The calls `maybe_extract_custom_tool_calls` finds in `body`, before
      ids are drawn, or the exception that escapes it. The branches are a
      strict if/elif chain: once the tag matches, failing to decode its
      arguments yields no call and the other syntaxes are not tried. */
  function ExtractInvocations(body: string, loads: string -> Option<Json>, astParse: string -> Option<PyModule>): Result<seq<Invocation>>
  {
    match MatchTagged(body)
    case Some((name, query)) =>
      (match loads(ReplaceChar(query, '\'', '"'))
       case Some(args) => Ok([Invocation(JStr(name), args)])
       case None => Ok([]))
    case None =>
      if IsJson(body, loads) then JsonInvocations(loads(body).value.fields)
      else if IsValidPythonList(astParse(body)) then PythonListCalls(astParse(body).value)
      else Ok([])
  }

  /** Only a JSON object takes the JSON branch: text that parses as a JSON
      list, number or string goes on to the Python-list test. */
  lemma NonObjectJsonFallsThrough(body: string, loads: string -> Option<Json>, astParse: string -> Option<PyModule>)
    requires MatchTagged(body).None? && loads(body).Some? && !loads(body).value.JObject?
    ensures ExtractInvocations(body, loads, astParse)
      == if IsValidPythonList(astParse(body)) then PythonListCalls(astParse(body).value) else Ok([])
  {
  }

  /** `ToolUtils.maybe_extract_custom_tool_calls`: one record per call
      found, in order, each with a fresh id; None instead of an empty list. */
  method MaybeExtractCustomToolCalls(messageBody: string, loads: string -> Option<Json>,
                                     astParse: string -> Option<PyModule>, dumps: Json -> string)
    returns (r: Result<Option<seq<ToolCall>>>)
    ensures ExtractInvocations(messageBody, loads, astParse).Raised? ==>
      r == Raised(ExtractInvocations(messageBody, loads, astParse).error)
    ensures ExtractInvocations(messageBody, loads, astParse).Ok? ==>
      r.Ok? && RecordsFor(r.value, ExtractInvocations(messageBody, loads, astParse).value, dumps)
  {
    ghost var expected := ExtractInvocations(messageBody, loads, astParse);
    var tools: seq<ToolCall> := [];
    var found := MatchTagged(messageBody);
    if found.Some? {
      var (toolName, query) := found.value;
      var args := loads(ReplaceChar(query, '\'', '"'));
      if args.Some? {
        var tool := PrepareTool(JStr(toolName), args.value, dumps);
        tools := tools + [tool];
      }
    } else if IsJson(messageBody, loads) {
      var response := loads(messageBody).value.fields;
      if Get(response, "type") == Some(JStr("function")) || Get(response, "name").Some? {
        var functionName := Get(response, "name");
        if functionName.None? {
          return Raised("KeyError: 'name'");
        }
        var args := Get(response, "parameters");
        if args.None? {
          return Raised("KeyError: 'parameters'");
        }
        var tool := PrepareTool(functionName.value, args.value, dumps);
        tools := tools + [tool];
      }
    } else if IsValidPythonList(astParse(messageBody)) {
      var res := ParsePythonListForFunctionCalls(astParse(messageBody).value);
      if res.Raised? {
        return Raised(res.error);
      }
      for k := 0 to |res.value|
        invariant |tools| == k
        invariant forall i :: 0 <= i < k ==> IsRecordFor(tools[i], res.value[i], dumps)
      {
        var tool := PrepareTool(res.value[k].name, res.value[k].args, dumps);
        tools := tools + [tool];
      }
    }
    assert expected.Ok? && |tools| == |expected.value|;
    r := Ok(if |tools| == 0 then None else Some(tools));
  }

  // ---------------------------------------------------------------------
  // Properties
  // ---------------------------------------------------------------------

  /** Assigning a key the dict does not hold yet appends it at the end. */
  lemma {:induction false} SetNewKeyAppends(fields: seq<(string, Json)>, key: string, value: Json)
    requires key !in Keys(fields)
    ensures Set(fields, key, value) == fields + [(key, value)]
  {
    if |fields| > 0 {
      KeysCons(fields);
      SetNewKeyAppends(fields[1..], key, value);
      assert Set(fields, key, value) == [fields[0]] + Set(fields[1..], key, value);
      assert [fields[0]] + (fields[1..] + [(key, value)]) == fields + [(key, value)];
    }
  }


  lemma KeywordArgsStep(kws: seq<Keyword>, acc: seq<(string, Json)>)
    requires |kws| > 0 && LiteralEval(kws[0].value).Ok?
    ensures KeywordArgsFrom(kws, acc) == KeywordArgsFrom(kws[1..], Set(acc, KeyOf(kws[0]), LiteralEval(kws[0].value).value))
  {
  }

  /** With distinct keyword names whose values are literals, the argument
      dict lists every keyword once, in call order, with its literal value. */
  lemma {:induction false} KeywordArgsInOrder(kws: seq<Keyword>, acc: seq<(string, Json)>)
    requires forall i :: 0 <= i < |kws| ==> LiteralEval(kws[i].value).Ok?
    requires forall i :: 0 <= i < |kws| ==> KeyOf(kws[i]) !in Keys(acc)
    requires forall i, j :: 0 <= i < j < |kws| ==> KeyOf(kws[i]) != KeyOf(kws[j])
    ensures KeywordArgsFrom(kws, acc).Ok?
    ensures |KeywordArgsFrom(kws, acc).value| == |acc| + |kws|
    ensures KeywordArgsFrom(kws, acc).value[..|acc|] == acc
    ensures forall i :: 0 <= i < |kws| ==>
      KeywordArgsFrom(kws, acc).value[|acc| + i] == (KeyOf(kws[i]), LiteralEval(kws[i].value).value)
    decreases |kws|
  {
    if |kws| > 0 {
      var v := LiteralEval(kws[0].value).value;
      SetNewKeyAppends(acc, KeyOf(kws[0]), v);
      var acc' := acc + [(KeyOf(kws[0]), v)];
      var rest := kws[1..];
      assert Keys(acc') == Keys(acc) + [KeyOf(kws[0])];
      forall i | 0 <= i < |rest|
        ensures LiteralEval(rest[i].value).Ok? && KeyOf(rest[i]) !in Keys(acc')
      {
        assert rest[i] == kws[i + 1];
        assert KeyOf(kws[0]) != KeyOf(kws[i + 1]);
      }
      forall i, j | 0 <= i < j < |rest|
        ensures KeyOf(rest[i]) != KeyOf(rest[j])
      {
        assert rest[i] == kws[i + 1] && rest[j] == kws[j + 1];
      }
      KeywordArgsInOrder(rest, acc');
      KeywordArgsStep(kws, acc);
      var r := KeywordArgsFrom(kws, acc).value;
      assert r == KeywordArgsFrom(rest, acc').value;
      assert r[..|acc|] == (r[..|acc| + 1])[..|acc|];
      forall i | 0 <= i < |kws|
        ensures r[|acc| + i] == (KeyOf(kws[i]), LiteralEval(kws[i].value).value)
      {
        if i > 0 {
          assert rest[i - 1] == kws[i];
          assert r[|acc'| + (i - 1)] == (KeyOf(rest[i - 1]), LiteralEval(rest[i - 1].value).value);
        } else {
          assert r[..|acc'|] == acc';
          assert r[|acc|] == r[..|acc'|][|acc|];
        }
      }
    }
  }

  /** Every element a call whose keyword literals evaluate: one invocation
      per element, in list order, appended after what was collected. */
  lemma {:induction false} CallsFromOnePerCall(es: seq<Expr>, acc: seq<Invocation>)
    requires forall i :: 0 <= i < |es| ==> es[i].Call? && KeywordArgsFrom(es[i].keywords, []).Ok?
    ensures CallsFrom(es, acc).Ok?
    ensures |CallsFrom(es, acc).value| == |acc| + |es|
    ensures CallsFrom(es, acc).value[..|acc|] == acc
    ensures forall i :: 0 <= i < |es| ==>
      CallsFrom(es, acc).value[|acc| + i] == Invocation(CallName(es[i]), JObject(KeywordArgsFrom(es[i].keywords, []).value))
    decreases |es|
  {
    if |es| > 0 {
      var inv := Invocation(CallName(es[0]), JObject(KeywordArgsFrom(es[0].keywords, []).value));
      var rest := es[1..];
      assert forall i :: 0 <= i < |rest| ==> rest[i] == es[i + 1];
      CallsFromOnePerCall(rest, acc + [inv]);
      assert CallsFrom(es, acc) == CallsFrom(rest, acc + [inv]);
      var r := CallsFrom(es, acc).value;
      assert r[..|acc| + 1] == acc + [inv];
      assert r[..|acc|] == acc by {
        assert r[..|acc|] == (r[..|acc| + 1])[..|acc|];
      }
      assert r[|acc|] == inv by {
        assert r[|acc|] == (r[..|acc| + 1])[|acc|];
      }
      forall i | 0 <= i < |es|
        ensures r[|acc| + i] == Invocation(CallName(es[i]), JObject(KeywordArgsFrom(es[i].keywords, []).value))
      {
        if i > 0 {
          assert r[|acc| + i] == r[|acc + [inv]| + (i - 1)];
        }
      }
    }
  }

  /** A valid list of keyword-only calls yields exactly one (name, args)
      pair per call, in list order, each named by its function name. */
  lemma ValidPythonListCalls(tree: PyModule)
    requires IsValidPythonList(Some(tree))
    requires forall e :: e in tree.body[0].value.elts ==> KeywordArgsFrom(e.keywords, []).Ok?
    ensures PythonListCalls(tree).Ok?
    ensures var elts := tree.body[0].value.elts;
      && |PythonListCalls(tree).value| == |elts|
      && forall i :: 0 <= i < |elts| ==>
           && elts[i].Call? && elts[i].func.Name?
           && PythonListCalls(tree).value[i] == Invocation(JStr(elts[i].func.id), JObject(KeywordArgsFrom(elts[i].keywords, []).value))
  {
    var elts := tree.body[0].value.elts;
    assert forall i :: 0 <= i < |elts| ==> elts[i] in elts;
    CallsFromOnePerCall(elts, []);
  }

  /** Whenever the tag matches, the outcome depends only on how its
      rewritten arguments decode: the JSON and list syntaxes are never
      consulted, and undecodable arguments give no call at all. */
  lemma TaggedBranchDecides(body: string, loads: string -> Option<Json>, astParse: string -> Option<PyModule>,
                            loads': string -> Option<Json>, astParse': string -> Option<PyModule>)
    requires MatchTagged(body).Some?
    requires var query := MatchTagged(body).value.1; loads(ReplaceChar(query, '\'', '"')) == loads'(ReplaceChar(query, '\'', '"'))
    ensures ExtractInvocations(body, loads, astParse) == ExtractInvocations(body, loads', astParse')
    ensures var query := MatchTagged(body).value.1;
      loads(ReplaceChar(query, '\'', '"')).None? ==> ExtractInvocations(body, loads, astParse) == Ok([])
  {
  }

  /** Text that does not start with the tag never takes the tag branch. */
  lemma UntaggedText(body: string)
    requires |body| > 0 && body[0] != '<'
    ensures MatchTagged(body) == None
  {
    assert !StartsWith(body, TagOpen);
  }

  /** The demonstration texts, written as their first character and the
      rest so that the first character is visible to the verifier. */
  const JsonExampleText := "{" + "\"type\": \"function\", \"name\": \"function_name\", \"parameters\": { \"example_name\": \"example_value\"}}"
  const ListExampleText := "[" + "func_name1(params_name1='value1', params_name2=1), func_name2(params_name1='value2', params_name2=2)]"

  /** Example 1 of the module's own demonstration: a JSON object with type
      "function" gives one call named by "name" with "parameters" as
      arguments. */
  lemma JsonObjectExample(loads: string -> Option<Json>, astParse: string -> Option<PyModule>)
    requires var body := JsonExampleText;
      loads(body) == Some(JObject([("type", JStr("function")), ("name", JStr("function_name")),
                                   ("parameters", JObject([("example_name", JStr("example_value"))]))]))
    ensures var body := JsonExampleText;
      ExtractInvocations(body, loads, astParse)
        == Ok([Invocation(JStr("function_name"), JObject([("example_name", JStr("example_value"))]))])
  {
    var body := JsonExampleText;
    UntaggedText(body);
  }

  const TaggedExampleName := "example_function_name"
  const TaggedExampleBody := "\"example_name\": \"example_value\""
  const TaggedExampleText := TagOpen + TaggedExampleName + ">" + "{" + TaggedExampleBody + "}" + "</function>"

  /** Example 2 of the module's own demonstration: the tag gives one call
      named "example_function_name" whose arguments are the decoded
      `{"example_name": "example_value"}`; the closing `</function>` is
      ignored. */
  lemma TaggedExample(loads: string -> Option<Json>, astParse: string -> Option<PyModule>, args: Json)
    requires loads("{" + TaggedExampleBody + "}") == Some(args)
    ensures ExtractInvocations(TaggedExampleText, loads, astParse)
      == Ok([Invocation(JStr("example_function_name"), args)])
  {
    TaggedExampleChars();
    TaggedCallParts(TaggedExampleName, TaggedExampleBody, "</function>");
    TaggedExampleQuery();
  }

  lemma TaggedExampleChars()
    ensures NoChar(TaggedExampleName, '}')
    ensures NoChar(TaggedExampleBody, '}') && NoChar(TaggedExampleBody, '\n') && NoChar(TaggedExampleBody, '>')
  {
  }

  /** The example's arguments contain no single quote to rewrite. */
  lemma TaggedExampleQuery()
    ensures ReplaceChar("{" + TaggedExampleBody + "}", '\'', '"') == "{" + TaggedExampleBody + "}"
  {
    var query := "{" + TaggedExampleBody + "}";
    assert NoChar(query, '\'');
  }

  /** A JSON object that neither names a function nor has type "function"
      is not a call, and a selected object without "parameters" raises. */
  lemma JsonObjectSelection(body: string, loads: string -> Option<Json>, astParse: string -> Option<PyModule>, fields: seq<(string, Json)>)
    requires MatchTagged(body).None? && loads(body) == Some(JObject(fields))
    ensures (Get(fields, "name").None? && Get(fields, "type") != Some(JStr("function")))
      ==> ExtractInvocations(body, loads, astParse) == Ok([])
    ensures (Get(fields, "name").Some? && Get(fields, "parameters").None?)
      ==> ExtractInvocations(body, loads, astParse).Raised?
    ensures (Get(fields, "name").Some? && Get(fields, "parameters").Some?)
      ==> ExtractInvocations(body, loads, astParse) == Ok([Invocation(Get(fields, "name").value, Get(fields, "parameters").value)])
  {
  }

  function ExampleCall(name: string, value: Json, number: int): Expr
  {
    Call(Name(name), [], [Keyword(Some("params_name1"), Constant(value)), Keyword(Some("params_name2"), Constant(JInt(number)))])
  }

  /** Example 3 of the module's own demonstration: a list of two keyword
      calls gives two calls, in order. */
  lemma PythonListExample(loads: string -> Option<Json>, astParse: string -> Option<PyModule>)
    requires var body := ListExampleText;
      && loads(body).None?
      && astParse(body) == Some(PyModule([ExprStmt(ListExpr([ExampleCall("func_name1", JStr("value1"), 1),
                                                            ExampleCall("func_name2", JStr("value2"), 2)]))]))
    ensures var body := ListExampleText;
      ExtractInvocations(body, loads, astParse)
        == Ok([Invocation(JStr("func_name1"), JObject([("params_name1", JStr("value1")), ("params_name2", JInt(1))])),
               Invocation(JStr("func_name2"), JObject([("params_name1", JStr("value2")), ("params_name2", JInt(2))]))])
  {
    var body := ListExampleText;
    UntaggedText(body);
    var c1 := ExampleCall("func_name1", JStr("value1"), 1);
    var c2 := ExampleCall("func_name2", JStr("value2"), 2);
    ExampleCallArgs("func_name1", JStr("value1"), 1);
    ExampleCallArgs("func_name2", JStr("value2"), 2);
    assert [c1, c2][1..] == [c2];
    var elts := [c1, c2];
    assert forall e :: e in elts ==> IsKeywordCall(e);
    assert IsValidPythonList(astParse(body));
    var i1 := Invocation(JStr("func_name1"), JObject([("params_name1", JStr("value1")), ("params_name2", JInt(1))]));
    var i2 := Invocation(JStr("func_name2"), JObject([("params_name1", JStr("value2")), ("params_name2", JInt(2))]));
    assert elts[0] == c1 && elts[1..] == [c2] && [c2][1..] == [];
    assert KeywordArgsFrom(c1.keywords, []) == Ok([("params_name1", JStr("value1")), ("params_name2", JInt(1))]);
    assert CallsFrom(elts, []) == CallsFrom([c2], [] + [i1]);
    assert KeywordArgsFrom(c2.keywords, []) == Ok([("params_name1", JStr("value2")), ("params_name2", JInt(2))]);
    assert CallsFrom([c2], [i1]) == CallsFrom([], [i1] + [i2]);
    var tree := astParse(body).value;
    assert tree.body[0].value.elts == elts;
    assert PythonListCalls(tree) == CallsFrom(elts, []);
    assert !IsJson(body, loads);
    assert [] + [i1] == [i1] && [i1] + [i2] == [i1, i2];
    assert ExtractInvocations(body, loads, astParse) == PythonListCalls(tree);
  }

  lemma ExampleCallArgs(name: string, value: Json, number: int)
    ensures KeywordArgsFrom(ExampleCall(name, value, number).keywords, [])
      == Ok([("params_name1", value), ("params_name2", JInt(number))])
  {
    var kws := ExampleCall(name, value, number).keywords;
    var one := Set([], "params_name1", value);
    assert one == [("params_name1", value)];
    assert "params_name1"[11] != "params_name2"[11];
    var two := Set(one, "params_name2", JInt(number));
    assert two == [("params_name1", value), ("params_name2", JInt(number))];
    assert KeywordArgsFrom(kws, []) == KeywordArgsFrom(kws[1..], one);
    assert KeywordArgsFrom(kws[1..], one) == KeywordArgsFrom(kws[1..][1..], two);
    assert kws[1..][1..] == [];
  }

  /** A positional argument disqualifies the whole list: `[foo(1)]` gives
      no call. */
  lemma PositionalArgumentRejected(loads: string -> Option<Json>, astParse: string -> Option<PyModule>)
    requires loads("[foo(1)]").None?
    requires astParse("[foo(1)]") == Some(PyModule([ExprStmt(ListExpr([Call(Name("foo"), [Constant(JInt(1))], [])]))]))
    ensures ExtractInvocations("[foo(1)]", loads, astParse) == Ok([])
  {
    UntaggedText("[foo(1)]");
    var elts := [Call(Name("foo"), [Constant(JInt(1))], [])];
    assert elts[0] in elts && !IsKeywordCall(elts[0]);
  }
}
