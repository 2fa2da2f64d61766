/** The ranking part of the `get_top_hf_papers` tool
    (src/tools/get_top_hf_papers.py): each entry of the daily-papers
    response is projected to a fixed record with defaults, the records are
    sorted by upvotes, highest first and stably, and the first `n` are
    serialised. Any exception inside the `try` leaves the result empty.

    The HTTP request and `response.json()` are not modelled: the decoded
    response is the parameter `data`, None when fetching or decoding
    failed. `json.dumps(..., indent=2)` is the parameter `dumps`, and
    Python's `str()` of a non-string value, used by the f-string that
    builds the link, is the parameter `str`. */
module HfPapers {
  import opened Common
  import opened JsonModel

  const PapersUrl := "https://huggingface.co/papers/"

  /** One projected record, the dict built at lines 40-50. */
  datatype Paper = Paper(title: Json, link: string, upvotes: Json, thumbnail: Json,
                         authors: seq<Json>, publishedDate: Json, summary: Json)

  // ---------------------------------------------------------------------
  // Projection
  // ---------------------------------------------------------------------

  /** `d.get(key, default)` on a dict. */
  function GetOr(fields: seq<(string, Json)>, key: string, default: Json): (r: Json)
    ensures key !in Keys(fields) ==> r == default
    ensures key in Keys(fields) ==> Some(r) == Get(fields, key)
  {
    match Get(fields, key)
    case None => default
    case Some(v) => v
  }

  /** The text an f-string puts in place of a value. */
  function Formatted(value: Json, str: Json -> string): string
  {
    if value.JStr? then value.s else str(value)
  }

  /** `[author.get("name", "") for author in authors]`: None when the
      iteration raises. A list needs every author to be a dict; an empty
      string or dict iterates over nothing; anything else raises. */
  function AuthorNames(authors: Json): (r: Option<seq<Json>>)
    ensures authors.JArray? ==>
      (r.Some? <==> forall i :: 0 <= i < |authors.items| ==> authors.items[i].JObject?)
    ensures r.Some? && authors.JArray? ==> |r.value| == |authors.items|
  {
    match authors
    case JArray(items) => NamesOf(items)
    case JStr(s) => if s == "" then Some([]) else None
    case JObject(fields) => if fields == [] then Some([]) else None
    case _ => None
  }

  function NamesOf(items: seq<Json>): (r: Option<seq<Json>>)
    ensures r.Some? <==> forall i :: 0 <= i < |items| ==> items[i].JObject?
    ensures r.Some? ==>
      && |r.value| == |items|
      && forall i :: 0 <= i < |items| ==> r.value[i] == GetOr(items[i].fields, "name", JStr(""))
  {
    if |items| == 0 then Some([])
    else
      var front := items[..|items| - 1];
      var last := items[|items| - 1];
      if !last.JObject? then None
      else
        match NamesOf(front)
        case None => None
        case Some(names) => Some(names + [GetOr(last.fields, "name", JStr(""))])
  }

  /** Lines 27-50 for one entry: None when a `.get` is applied to
      something other than a dict, or the authors cannot be iterated. */
  function Project(entry: Json, str: Json -> string): (r: Option<Paper>)
    ensures r.Some? ==> StartsWith(r.value.link, PapersUrl)
  {
    if !entry.JObject? then None
    else
      var inner := GetOr(entry.fields, "paper", JObject([]));
      if !inner.JObject? then None
      else
        match AuthorNames(GetOr(inner.fields, "authors", JArray([])))
        case None => None
        case Some(names) =>
          var link := PapersUrl + Formatted(GetOr(inner.fields, "id", JStr("")), str);
          assert link[..|PapersUrl|] == PapersUrl;
          Some(Paper(GetOr(inner.fields, "title", JStr("Unknown")),
                     link,
                     GetOr(inner.fields, "upvotes", JInt(0)),
                     GetOr(entry.fields, "thumbnail", JStr("")),
                     names,
                     GetOr(inner.fields, "publishedAt", JStr("")),
                     GetOr(inner.fields, "summary", JStr(""))))
  }

  /** Applies `f` to every element in order; None as soon as one gives
      None, as a loop that appends to a list stops at an exception. */
  function MapAll<A, B>(xs: seq<A>, f: A -> Option<B>): (r: Option<seq<B>>)
    ensures r.Some? <==> forall i :: 0 <= i < |xs| ==> f(xs[i]).Some?
    ensures r.Some? ==>
      && |r.value| == |xs|
      && forall i :: 0 <= i < |xs| ==> Some(r.value[i]) == f(xs[i])
  {
    if |xs| == 0 then Some([])
    else
      match MapAll(xs[..|xs| - 1], f)
      case None => None
      case Some(front) =>
        match f(xs[|xs| - 1])
        case None => None
        case Some(y) => Some(front + [y])
  }

  /** The loop of lines 26-50: every entry projected in order, or None as
      soon as one raises. */
  function ProjectAll(entries: seq<Json>, str: Json -> string): (r: Option<seq<Paper>>)
    ensures r.Some? <==> forall i :: 0 <= i < |entries| ==> Project(entries[i], str).Some?
    ensures r.Some? ==>
      && |r.value| == |entries|
      && forall i :: 0 <= i < |entries| ==> Some(r.value[i]) == Project(entries[i], str)
  {
    MapAll(entries, e => Project(e, str))
  }

  /** The projection loop itself. */
  method ProjectEntries(entries: seq<Json>, str: Json -> string) returns (paperInfo: Option<seq<Paper>>)
    ensures paperInfo == ProjectAll(entries, str)
  {
    var info: seq<Paper> := [];
    for i := 0 to |entries|
      invariant ProjectAll(entries[..i], str) == Some(info)
    {
      assert entries[..i + 1][..i] == entries[..i];
      var paper := Project(entries[i], str);
      if paper.None? {
        assert ProjectAll(entries[..i + 1], str).None?;
        ProjectionFailsOnPrefix(entries, str, i + 1);
        return None;
      }
      info := info + [paper.value];
    }
    assert entries[..|entries|] == entries;
    paperInfo := Some(info);
  }

  /** Once a prefix fails to project, so does the whole list. */
  lemma ProjectionFailsOnPrefix(entries: seq<Json>, str: Json -> string, k: nat)
    requires k <= |entries| && ProjectAll(entries[..k], str).None?
    ensures ProjectAll(entries, str).None?
  {
    var i :| 0 <= i < k && Project(entries[..k][i], str).None?;
    assert entries[i] == entries[..k][i];
  }

  /** An entry without a "paper" dict gets every default: title "Unknown",
      no upvotes, the bare papers URL, no authors, empty strings. */
  lemma MissingPaperDefaults(thumbnail: Json, str: Json -> string)
    ensures Project(JObject([("thumbnail", thumbnail)]), str)
      == Some(Paper(JStr("Unknown"), PapersUrl, JInt(0), thumbnail, [], JStr(""), JStr("")))
    ensures Project(JObject([]), str)
      == Some(Paper(JStr("Unknown"), PapersUrl, JInt(0), JStr(""), [], JStr(""), JStr("")))
  {
    assert Keys([("thumbnail", thumbnail)]) == ["thumbnail"];
    assert PapersUrl + "" == PapersUrl;
    var none: seq<(string, Json)> := [];
    assert Keys(none) == [];
  }

  /** Every field present in the entry is taken over as it is; every
      missing one takes its default. */
  lemma ProjectedFields(entry: Json, str: Json -> string)
    requires Project(entry, str).Some?
    ensures var p, inner := Project(entry, str).value, GetOr(entry.fields, "paper", JObject([]));
      && inner.JObject?
      && (Get(inner.fields, "title") == None ==> p.title == JStr("Unknown"))
      && (Get(inner.fields, "title") != None ==> Get(inner.fields, "title") == Some(p.title))
      && (Get(inner.fields, "upvotes") == None ==> p.upvotes == JInt(0))
      && (Get(inner.fields, "upvotes") != None ==> Get(inner.fields, "upvotes") == Some(p.upvotes))
      && (Get(inner.fields, "id") == None ==> p.link == PapersUrl)
      && (forall id :: Get(inner.fields, "id") == Some(JStr(id)) ==> p.link == PapersUrl + id)
      && (Get(entry.fields, "thumbnail") == None ==> p.thumbnail == JStr(""))
      && (Get(entry.fields, "thumbnail") != None ==> Get(entry.fields, "thumbnail") == Some(p.thumbnail))
      && (Get(inner.fields, "id") != None && !Get(inner.fields, "id").value.JStr? ==>
            p.link == PapersUrl + str(Get(inner.fields, "id").value))
      && (Get(inner.fields, "authors") == None ==> p.authors == [])
      && (Get(inner.fields, "authors") != None ==> AuthorNames(Get(inner.fields, "authors").value) == Some(p.authors))
      && (Get(inner.fields, "publishedAt") == None ==> p.publishedDate == JStr(""))
      && (Get(inner.fields, "publishedAt") != None ==> Get(inner.fields, "publishedAt") == Some(p.publishedDate))
      && (Get(inner.fields, "summary") == None ==> p.summary == JStr(""))
      && (Get(inner.fields, "summary") != None ==> Get(inner.fields, "summary") == Some(p.summary))
  {
    assert PapersUrl + "" == PapersUrl;
  }

  // ---------------------------------------------------------------------
  // Sorting by upvotes, highest first
  // ---------------------------------------------------------------------

  /** The sort key as Python compares it: booleans are the integers 0 and 1. */
  function Votes(p: Paper): int
  {
    match p.upvotes
    case JInt(i) => i
    case JBool(b) => if b then 1 else 0
    case _ => 0
  }

  predicate NumericVotes(p: Paper)
  {
    p.upvotes.JInt? || p.upvotes.JBool?
  }

  /** `sort` compares keys only when there are two records or more, and
      then every key must be a number. */
  predicate Sortable(papers: seq<Paper>)
  {
    |papers| <= 1 || forall i :: 0 <= i < |papers| ==> NumericVotes(papers[i])
  }

  predicate SortedDesc(s: seq<Paper>)
  {
    forall i, j :: 0 <= i < j < |s| ==> Votes(s[i]) >= Votes(s[j])
  }

  /** Insertion of `x` behind every record with at least its votes. */
  function Insert(x: Paper, s: seq<Paper>): (r: seq<Paper>)
    ensures |r| == |s| + 1
  {
    if |s| == 0 || Votes(s[|s| - 1]) >= Votes(x) then s + [x]
    else Insert(x, s[..|s| - 1]) + [s[|s| - 1]]
  }

  /** The stable descending sort, record by record from the front. */
  function SortDesc(s: seq<Paper>): (r: seq<Paper>)
    ensures |r| == |s|
  {
    if |s| == 0 then [] else Insert(s[|s| - 1], SortDesc(s[..|s| - 1]))
  }

  /** `paper_info.sort(key=lambda x: x["upvotes"], reverse=True)`: an
      insertion sort in place. */
  method SortByUpvotes(a: array<Paper>)
    modifies a
    ensures a[..] == SortDesc(old(a[..]))
  {
    ghost var original := a[..];
    for i := 0 to a.Length
      invariant a[..i] == SortDesc(original[..i])
      invariant a[i..] == original[i..]
    {
      InsertNext(a, i);
      assert original[..i + 1][..i] == original[..i];
    }
    assert original[..a.Length] == original;
  }

  /** Moves `a[i]` back over the records before it with fewer votes. */
  method InsertNext(a: array<Paper>, i: nat)
    requires i < a.Length
    modifies a
    ensures a[..i + 1] == Insert(old(a[i]), old(a[..i]))
    ensures a[i + 1..] == old(a[i + 1..])
  {
    var x := a[i];
    ghost var s := a[..i];
    var j := ShiftGreater(a, i, x);
    InsertAt(x, s, j);
    a[j] := x;
    assert a[..i + 1] == s[..j] + [x] + s[j..];
  }

  /** The shifting loop: every record before position `i` with fewer votes
      than `x`, back to the first one with at least as many, moves one
      place up; `j` is the gap left. */
  method ShiftGreater(a: array<Paper>, i: nat, x: Paper) returns (j: nat)
    requires i < a.Length
    modifies a
    ensures j <= i && (j == 0 || Votes(a[j - 1]) >= Votes(x))
    ensures forall k :: 0 <= k < j ==> a[k] == old(a[k])
    ensures forall k :: j < k <= i ==> a[k] == old(a[k - 1])
    ensures forall k :: i < k < a.Length ==> a[k] == old(a[k])
    ensures forall k :: j <= k < i ==> Votes(old(a[k])) < Votes(x)
  {
    j := i;
    while j > 0 && Votes(a[j - 1]) < Votes(x)
      invariant 0 <= j <= i
      invariant forall k :: 0 <= k < j ==> a[k] == old(a[k])
      invariant forall k :: j < k <= i ==> a[k] == old(a[k - 1])
      invariant forall k :: i < k < a.Length ==> a[k] == old(a[k])
      invariant forall k :: j <= k < i ==> Votes(old(a[k])) < Votes(x)
    {
      a[j] := a[j - 1];
      j := j - 1;
    }
  }

  /** `x` goes after the last record with at least its votes, when every
      later record has fewer: where the shifting loop stops. */
  lemma {:induction false} InsertAt(x: Paper, s: seq<Paper>, j: nat)
    requires j <= |s| && (j == 0 || Votes(s[j - 1]) >= Votes(x))
    requires forall k :: j <= k < |s| ==> Votes(s[k]) < Votes(x)
    ensures Insert(x, s) == s[..j] + [x] + s[j..]
    decreases |s|
  {
    if |s| == j {
      assert s[..j] == s && s[j..] == [];
    } else {
      var front, last := s[..|s| - 1], s[|s| - 1];
      InsertAt(x, front, j);
      assert front[..j] == s[..j];
      assert front[j..] + [last] == s[j..];
    }
  }

  lemma {:induction false} InsertPermutes(x: Paper, s: seq<Paper>)
    ensures multiset(Insert(x, s)) == multiset(s) + multiset{x}
    decreases |s|
  {
    if |s| > 0 && Votes(s[|s| - 1]) < Votes(x) {
      InsertPermutes(x, s[..|s| - 1]);
      assert s == s[..|s| - 1] + [s[|s| - 1]];
    }
  }

  /** The sort is a permutation of its input. */
  lemma {:induction false} SortPermutes(s: seq<Paper>)
    ensures multiset(SortDesc(s)) == multiset(s)
    decreases |s|
  {
    if |s| > 0 {
      SortPermutes(s[..|s| - 1]);
      InsertPermutes(s[|s| - 1], SortDesc(s[..|s| - 1]));
      assert s == s[..|s| - 1] + [s[|s| - 1]];
    }
  }

  lemma {:induction false} InsertSorted(x: Paper, s: seq<Paper>)
    requires SortedDesc(s)
    ensures SortedDesc(Insert(x, s))
    decreases |s|
  {
    if |s| > 0 && Votes(s[|s| - 1]) < Votes(x) {
      var front, last := s[..|s| - 1], s[|s| - 1];
      InsertSorted(x, front);
      InsertPermutes(x, front);
      var t := Insert(x, front);
      forall k | 0 <= k < |t| ensures Votes(t[k]) >= Votes(last) {
        assert t[k] in multiset(t);
        if t[k] != x {
          assert t[k] in multiset(front);
          var m :| 0 <= m < |front| && front[m] == t[k];
          assert s[m] == t[k];
        }
      }
    }
  }

  /** The sort orders by upvotes, highest first. */
  lemma {:induction false} SortSorted(s: seq<Paper>)
    ensures SortedDesc(SortDesc(s))
    decreases |s|
  {
    if |s| > 0 {
      SortSorted(s[..|s| - 1]);
      InsertSorted(s[|s| - 1], SortDesc(s[..|s| - 1]));
    }
  }

  /** The records with `v` votes, in their order. */
  function WithVotes(s: seq<Paper>, v: int): seq<Paper>
  {
    if |s| == 0 then []
    else WithVotes(s[..|s| - 1], v) + (if Votes(s[|s| - 1]) == v then [s[|s| - 1]] else [])
  }

  lemma {:induction false} InsertKeepsTies(x: Paper, s: seq<Paper>, v: int)
    ensures WithVotes(Insert(x, s), v) == WithVotes(s, v) + (if Votes(x) == v then [x] else [])
    decreases |s|
  {
    if |s| == 0 || Votes(s[|s| - 1]) >= Votes(x) {
      assert (s + [x])[..|s|] == s;
    } else {
      var front, last := s[..|s| - 1], s[|s| - 1];
      InsertKeepsTies(x, front, v);
      var t := Insert(x, front);
      assert (t + [last])[..|t|] == t;
    }
  }

  /** Stability: records with equal upvotes keep their input order. */
  lemma {:induction false} SortStable(s: seq<Paper>, v: int)
    ensures WithVotes(SortDesc(s), v) == WithVotes(s, v)
    decreases |s|
  {
    if |s| > 0 {
      SortStable(s[..|s| - 1], v);
      InsertKeepsTies(s[|s| - 1], SortDesc(s[..|s| - 1]), v);
    }
  }

  /** Sorted, and the same records with each vote count in the same order,
      determine a list: any stable descending sort, Python's included,
      agrees with `SortDesc`. */
  lemma {:induction false} StableSortUnique(t: seq<Paper>, u: seq<Paper>)
    requires SortedDesc(t) && SortedDesc(u)
    requires forall v :: WithVotes(t, v) == WithVotes(u, v)
    ensures t == u
    decreases |t|
  {
    if |t| == 0 || |u| == 0 {
      EmptyAgrees(t, u);
    } else {
      LastsTie(t, u);
      var t', u' := t[..|t| - 1], u[..|u| - 1];
      forall w ensures WithVotes(t', w) == WithVotes(u', w) {
        DropLastTie(t, u, w);
      }
      StableSortUnique(t', u');
      DropLastTie(t, u, Votes(t[|t| - 1]));
      assert t == t' + [t[|t| - 1]];
      assert u == u' + [u[|u| - 1]];
    }
  }

  lemma EmptyAgrees(t: seq<Paper>, u: seq<Paper>)
    requires |t| == 0 || |u| == 0
    requires forall v :: WithVotes(t, v) == WithVotes(u, v)
    ensures t == u
  {
    if |t| > 0 {
      WithVotesOfLast(t);
    } else if |u| > 0 {
      WithVotesOfLast(u);
    }
  }

  /** Sorted lists that agree on each vote count end with the same votes:
      the fewest. */
  lemma LastsTie(t: seq<Paper>, u: seq<Paper>)
    requires SortedDesc(t) && SortedDesc(u) && |t| > 0 && |u| > 0
    requires forall v :: WithVotes(t, v) == WithVotes(u, v)
    ensures Votes(t[|t| - 1]) == Votes(u[|u| - 1])
  {
    var a, b := Votes(t[|t| - 1]), Votes(u[|u| - 1]);
    if a < b {
      WithVotesBelowLast(u, a);
      WithVotesOfLast(t);
    } else if b < a {
      WithVotesBelowLast(t, b);
      WithVotesOfLast(u);
    }
  }

  /** Two lists whose last records tie and agree on each vote count also
      agree on it without their last records, and their last records are
      the same. */
  lemma DropLastTie(t: seq<Paper>, u: seq<Paper>, w: int)
    requires |t| > 0 && |u| > 0 && Votes(t[|t| - 1]) == Votes(u[|u| - 1])
    requires WithVotes(t, w) == WithVotes(u, w)
    ensures WithVotes(t[..|t| - 1], w) == WithVotes(u[..|u| - 1], w)
    ensures Votes(t[|t| - 1]) == w ==> t[|t| - 1] == u[|u| - 1]
  {
    var x, y := WithVotes(t[..|t| - 1], w), WithVotes(u[..|u| - 1], w);
    var p, q := t[|t| - 1], u[|u| - 1];
    if Votes(p) == w {
      assert WithVotes(t, w) == x + [p];
      assert WithVotes(u, w) == y + [q];
      LastOfAppend(x, p, y, q);
    } else {
      assert WithVotes(t, w) == x;
      assert WithVotes(u, w) == y;
    }
  }

  lemma LastOfAppend(x: seq<Paper>, p: Paper, y: seq<Paper>, q: Paper)
    requires x + [p] == y + [q]
    ensures x == y && p == q
  {
    assert |x| == |y|;
    assert (x + [p])[..|x|] == x && (y + [q])[..|y|] == y;
    assert (x + [p])[|x|] == p && (y + [q])[|y|] == q;
  }

  /** A non-empty list has a record with the votes of its last one. */
  lemma WithVotesOfLast(s: seq<Paper>)
    requires |s| > 0
    ensures WithVotes(s, Votes(s[|s| - 1])) != []
  {
  }

  /** In a sorted list nothing has fewer votes than the last record. */
  lemma {:induction false} WithVotesBelowLast(s: seq<Paper>, v: int)
    requires SortedDesc(s) && |s| > 0 && v < Votes(s[|s| - 1])
    ensures WithVotes(s, v) == []
    decreases |s|
  {
    if |s| > 1 {
      WithVotesBelowLast(s[..|s| - 1], v);
    }
  }

  // ---------------------------------------------------------------------
  // Truncation and the whole tool
  // ---------------------------------------------------------------------

  /** Where `papers[:n]` ends for a list of `count` records: a negative `n`
      counts from the end, a JSON `null` (None) keeps everything, a boolean
      is 0 or 1, and anything else raises TypeError (None here). */
  function SliceEnd(n: Json, count: nat): (r: Option<nat>)
    ensures r.Some? ==> r.value <= count
    ensures n.JInt? && n.i >= 0 ==> r == Some(if n.i < count then n.i else count)
  {
    match n
    case JNull => Some(count)
    case JInt(i) =>
      if i >= count then Some(count)
      else if i >= 0 then Some(i)
      else if count + i >= 0 then Some(count + i)
      else Some(0)
    case JBool(b) => Some(if b && count > 0 then 1 else 0)
    case _ => None
  }

  /** The records the tool returns: empty when the response is missing,
      falsy or not a list, when an entry cannot be projected, when the keys
      cannot be compared, or when `n` is not a valid slice index. */
  function TopPapers(data: Option<Json>, n: Json, str: Json -> string): seq<Paper>
  {
    if data.None? || !Truthy(data.value) || !data.value.JArray? then []
    else
      match ProjectAll(data.value.items, str)
      case None => []
      case Some(info) =>
        if !Sortable(info) then []
        else
          match SliceEnd(n, |info|)
          case None => []
          case Some(k) => SortDesc(info)[..k]
  }

  /** The dict of lines 40-50, keys in that order. */
  function PaperJson(p: Paper): Json
  {
    JObject([("title", p.title), ("link", JStr(p.link)), ("upvotes", p.upvotes),
             ("thumbnail", p.thumbnail), ("authors", JArray(p.authors)),
             ("published_date", p.publishedDate), ("summary", p.summary)])
  }

  function PapersJson(papers: seq<Paper>): (r: Json)
    ensures r.JArray? && |r.items| == |papers|
    ensures forall i :: 0 <= i < |papers| ==> r.items[i] == PaperJson(papers[i])
  {
    JArray(seq(|papers|, i requires 0 <= i < |papers| => PaperJson(papers[i])))
  }

  /** `get_top_hf_papers` from the decoded response on. */
  method GetTopHfPapers(data: Option<Json>, n: Json, str: Json -> string, dumps: Json -> string)
    returns (out: string)
    ensures out == dumps(PapersJson(TopPapers(data, n, str)))
  {
    var topPapers: seq<Paper> := [];
    if data.Some? && Truthy(data.value) && data.value.JArray? {
      var paperInfo := ProjectEntries(data.value.items, str);
      if paperInfo.Some? && Sortable(paperInfo.value) {
        var info := paperInfo.value;
        var end := SliceEnd(n, |info|);
        if end.Some? {
          var a := new Paper[|info|](i requires 0 <= i < |info| => info[i]);
          assert a[..] == info;
          SortByUpvotes(a);
          topPapers := a[..end.value];
          TopPapersKept(data, n, str, info, end.value);
        } else {
          TopPapersEmpty(data, n, str);
        }
      } else {
        TopPapersEmpty(data, n, str);
      }
    } else {
      TopPapersEmpty(data, n, str);
    }
    out := dumps(PapersJson(topPapers));
  }

  lemma TopPapersKept(data: Option<Json>, n: Json, str: Json -> string, info: seq<Paper>, k: nat)
    requires data.Some? && Truthy(data.value) && data.value.JArray?
    requires ProjectAll(data.value.items, str) == Some(info) && Sortable(info)
    requires SliceEnd(n, |info|) == Some(k)
    ensures TopPapers(data, n, str) == SortDesc(info)[..k]
  {
  }

  /** The cases in which the tool returns nothing. */
  lemma TopPapersEmpty(data: Option<Json>, n: Json, str: Json -> string)
    requires data.Some? && Truthy(data.value) && data.value.JArray? ==>
      var info := ProjectAll(data.value.items, str);
      info.None? || !Sortable(info.value) || SliceEnd(n, |info.value|).None?
    ensures TopPapers(data, n, str) == []
  {
  }

  // ---------------------------------------------------------------------
  // Properties of the result
  // ---------------------------------------------------------------------

  /** A failed request, an empty or non-list response, or an entry that is
      not a dict all give the empty list. */
  lemma FailuresGiveNothing(data: Option<Json>, n: Json, str: Json -> string)
    requires data.None? || !Truthy(data.value) || !data.value.JArray?
      || exists i :: 0 <= i < |data.value.items| && !data.value.items[i].JObject?
    ensures TopPapers(data, n, str) == []
  {
    if data.Some? && Truthy(data.value) && data.value.JArray? {
      var i :| 0 <= i < |data.value.items| && !data.value.items[i].JObject?;
      assert Project(data.value.items[i], str).None?;
    }
  }

  /** For a response that ranks, with `n >= 0`: the result is the first
      `min(n, count)` records of the stable sort, in non-increasing order of
      upvotes, drawn from the projected records, and no omitted record has
      more upvotes than a kept one. */
  lemma Ranked(data: Option<Json>, n: int, str: Json -> string)
    requires data.Some? && data.value.JArray? && data.value.items != [] && n >= 0
    requires ProjectAll(data.value.items, str).Some?
    requires Sortable(ProjectAll(data.value.items, str).value)
    ensures var info, top := ProjectAll(data.value.items, str).value, TopPapers(data, JInt(n), str);
      && |top| == (if n < |info| then n else |info|)
      && top == SortDesc(info)[..|top|]
      && SortedDesc(top)
      && multiset(top) <= multiset(info)
      && forall i, j :: 0 <= i < |top| <= j < |info| ==> Votes(SortDesc(info)[j]) <= Votes(top[i])
  {
    var info := ProjectAll(data.value.items, str).value;
    var k := if n < |info| then n else |info|;
    RankedPrefix(data, n, str);
    SortSorted(info);
    SortPermutes(info);
    KeptAndOmitted(SortDesc(info), info, k);
  }

  /** A response that ranks keeps the first `min(n, count)` sorted records. */
  lemma RankedPrefix(data: Option<Json>, n: int, str: Json -> string)
    requires data.Some? && data.value.JArray? && data.value.items != [] && n >= 0
    requires ProjectAll(data.value.items, str).Some?
    requires Sortable(ProjectAll(data.value.items, str).value)
    ensures var info := ProjectAll(data.value.items, str).value;
      TopPapers(data, JInt(n), str) == SortDesc(info)[..if n < |info| then n else |info|]
  {
    assert Truthy(data.value);
  }

  /** The first `k` records of a sorted permutation of `info`. */
  lemma KeptAndOmitted(sorted: seq<Paper>, info: seq<Paper>, k: nat)
    requires SortedDesc(sorted) && multiset(sorted) == multiset(info) && k <= |sorted|
    ensures SortedDesc(sorted[..k])
    ensures multiset(sorted[..k]) <= multiset(info)
    ensures forall i, j :: 0 <= i < k <= j < |sorted| ==> Votes(sorted[j]) <= Votes(sorted[..k][i])
  {
    assert sorted == sorted[..k] + sorted[k..];
    assert multiset(sorted) == multiset(sorted[..k]) + multiset(sorted[k..]);
  }
}
