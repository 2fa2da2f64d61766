/** The fragment of Python's `ast` tree that the tool-call extractor looks
    at: a module of statements, expression statements, list displays, calls
    with positional and keyword arguments, names and literals. Parsing text
    into this tree (`ast.parse`) is a library call and is passed in by the
    caller as a parameter; `ast.literal_eval` is modelled here on the tree. */
module PythonAst {
  import opened Common
  import opened JsonModel

  datatype PyModule = PyModule(body: seq<Stmt>)

  /** `ast.Expr` is a statement made of one expression; every other kind of
      statement is `OtherStmt`. */
  datatype Stmt = ExprStmt(value: Expr) | OtherStmt

  datatype Expr =
    | Name(id: string)
    | Constant(value: Json)
    | ListExpr(elts: seq<Expr>)
    | TupleExpr(elts: seq<Expr>)
    | DictExpr(entries: seq<DictEntry>)
    | UnaryOp(negate: bool, operand: Expr)
    | Call(func: Expr, args: seq<Expr>, keywords: seq<Keyword>)
    | OtherExpr

  /** One `key: value` of a dict display (`ast.Dict` keeps them as two
      parallel lists). */
  datatype DictEntry = DictEntry(key: Expr, value: Expr)

  /** `ast.keyword`: `arg` is None for a `**mapping` argument. */
  datatype Keyword = Keyword(arg: Option<string>, value: Expr)

  const Malformed := "ValueError: malformed node or string"

  /** `ast.literal_eval` on an expression node: constants, list and tuple
      displays, dict displays with string keys, and a sign applied to an
      integer constant evaluate; any other node raises ValueError. */
  function LiteralEval(e: Expr): (r: Result<Json>)
    ensures e.Constant? ==> r == Ok(e.value)
    ensures e.Name? || e.Call? || e.OtherExpr? ==> r.Raised?
    decreases e, 2
  {
    match e
    case Constant(v) => Ok(v)
    case ListExpr(elts) =>
      (match LiteralEvalAll(elts)
       case Ok(items) => Ok(JArray(items))
       case Raised(err) => Raised(err))
    case TupleExpr(elts) =>
      (match LiteralEvalAll(elts)
       case Ok(items) => Ok(JArray(items))
       case Raised(err) => Raised(err))
    case DictExpr(entries) => LiteralEvalDict(entries, [])
    case UnaryOp(negate, operand) =>
      (match operand
       case Constant(JInt(i)) => Ok(JInt(if negate then -i else i))
       case _ => Raised(Malformed))
    case _ => Raised(Malformed)
  }

  /** Every element evaluated in order; the first failure escapes. */
  function LiteralEvalAll(es: seq<Expr>): (r: Result<seq<Json>>)
    ensures r.Ok? ==> |r.value| == |es|
    decreases es, 1
  {
    if |es| == 0 then Ok([])
    else
      match LiteralEval(es[0])
      case Raised(err) => Raised(err)
      case Ok(v) =>
        (match LiteralEvalAll(es[1..])
         case Ok(vs) => Ok([v] + vs)
         case Raised(err) => Raised(err))
  }

  /** `dict(zip(keys, values))`: a repeated key keeps its first place and
      its last value. */
  function LiteralEvalDict(entries: seq<DictEntry>, acc: seq<(string, Json)>): Result<Json>
    decreases entries, 1
  {
    if |entries| == 0 then Ok(JObject(acc))
    else
      match LiteralEvalEntry(entries[0])
      case Ok((k, v)) => LiteralEvalDict(entries[1..], Set(acc, k, v))
      case Raised(err) => Raised(err)
  }

  function LiteralEvalEntry(entry: DictEntry): Result<(string, Json)>
    decreases entry, 0
  {
    match (LiteralEval(entry.key), LiteralEval(entry.value))
    case (Ok(JStr(k)), Ok(v)) => Ok((k, v))
    case (Raised(err), _) => Raised(err)
    case (_, Raised(err)) => Raised(err)
    case _ => Raised("TypeError: keys other than strings are not modelled")
  }
}
