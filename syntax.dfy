/**
 * The token tree of cypher/syntax.py as values.
 *
 * Every node class of the source is a variant of `Token`; its fields are
 * the attributes its constructor stores (they are never reassigned). For
 * each class, a function `XxxTokens` gives the list its `tokenize()`
 * returns; `Tokens` dispatches on the variant, and `Render` is
 * `Token.__str__`: `str()` of every item of that list, concatenated, which
 * recursively renders nested tokens. Python exceptions become `Err`.
 */
module Syntax {
  import opened Utils
  import opened Literals

  /** The two exceptions the core raises while rendering. */
  datatype Error =
    | AttributeError  // `Collection.tokenize` reads `self.props`, which it never set
    | ValueError      // `Path.tokenize`: "start is not the end"

  datatype Result<T> = Ok(value: T) | Err(error: Error)

  /** A Python object held by a node or placed in a token list. */
  datatype Obj =
    | NoneObj
    | BoolObj(b: bool)
    | IntObj(i: int)
    | StrObj(s: string)
    | TokenObj(t: Token)

  /** A value stored in a property dict: a scalar, a nested dict, or a
      nested list/tuple. Dict entries keep their insertion order. */
  datatype Value =
    | Scalar(obj: Obj)
    | Dict(entries: seq<Entry>)
    | List(items: seq<Value>)

  datatype Entry = Entry(key: string, value: Value)

  /** One `key: value` item of the dict given to `Properties`. */
  datatype PropEntry = PropEntry(key: string, value: Obj)

  /** A `Rel` endpoint: the object and its identity (Python's `id()`), which
      is what `Path` compares with `is`. */
  datatype Endpoint = Endpoint(oid: nat, obj: Obj)

  /** The `type` of a `Rel`: absent, one string, or a list of strings. */
  datatype RelType = NoType | TypeName(name: string) | TypeList(names: seq<string>)

  /** The attributes of a `Rel`; `reverse` is any object, only `True` and
      `False` themselves are told apart. The defaults are those of
      `Rel.__init__`: no type, identifier or props, and `reverse=False`. */
  datatype RelSpec = RelSpec(
    start: Endpoint,
    end: Endpoint,
    relType: RelType := NoType,
    identifier: string := "",
    props: seq<Entry> := [],
    reverse: Obj := BoolObj(false))

  /** The keyword subclasses of `Statement` that add nothing but a keyword. */
  datatype Keyword = Start | Where | Match | OptionalMatch | Create | Delete | Skip | Limit | OrderBy
  {
    function Text(): string
    {
      match this
      case Start => "START"
      case Where => "WHERE"
      case Match => "MATCH"
      case OptionalMatch => "OPTIONAL MATCH"
      case Create => "CREATE"
      case Delete => "DELETE"
      case Skip => "SKIP"
      case Limit => "LIMIT"
      case OrderBy => "ORDER BY"
    }
  }

  /** The node classes. An empty `identifier`, `labels` or `props` stands
      for every falsy value the source accepts there (`None`, `''`, `{}`, `[]`).
      Each parameter the constructor of the class defaults has the same
      default here; `None` for a collection becomes the empty one. */
  datatype Token =
    | Plain(token: Obj)                                   // Token, Value
    | Identifier(name: string)
    | Map(entries: seq<Entry>, identifier: string := "")
    | Collection(values: seq<Value>, identifier: string := "")
    | Node(props: seq<Entry> := [], identifier: string := "", labels: seq<string> := [])
    | Rel(rel: RelSpec)
    | Path(rels: seq<RelSpec>, identifier: string := "")
    | Expr(exprs: seq<Obj>)
    | Property(key: string, value: Obj := NoneObj, identifier: string := "")
    | Properties(propEntries: seq<PropEntry>, identifier: string := "")
    | Predicate(exprs: seq<Obj>, operator: Obj := StrObj("AND"))
    | Statement(keyword: Keyword, exprs: seq<Obj>)
    | Return(exprs: seq<Obj>, orderBy: Obj := NoneObj, skip: Obj := NoneObj, limit: Obj := NoneObj,
             distinct: bool := false)
    | With(exprs: seq<Obj>, orderBy: Obj := NoneObj, skip: Obj := NoneObj, limit: Obj := NoneObj)
    | Merge(expr: Obj, onCreate: seq<Obj> := [], onMatch: seq<Obj> := [])
    | Query(exprs: seq<Obj>)

  // ---------------------------------------------------------------------
  // Constructors that normalise their arguments
  // ---------------------------------------------------------------------

  /** `Path(rels, identifier)`: a lone rel becomes a one-element list. */
  function MakePath(rels: OneOrMany<RelSpec>, identifier: string := ""): Token
  {
    Path(rels.AsSeq(), identifier)
  }

  /** `Expr(exprs)` and the subclasses that keep its constructor. */
  function MakeExpr(exprs: OneOrMany<Obj>): Token
  {
    Expr(exprs.AsSeq())
  }

  function MakePredicate(exprs: OneOrMany<Obj>, operator: Obj := StrObj("AND")): Token
  {
    Predicate(exprs.AsSeq(), operator)
  }

  function MakeStatement(keyword: Keyword, exprs: OneOrMany<Obj>): Token
  {
    Statement(keyword, exprs.AsSeq())
  }

  function MakeReturn(exprs: OneOrMany<Obj>, orderBy: Obj := NoneObj, skip: Obj := NoneObj,
                      limit: Obj := NoneObj, distinct: bool := false): Token
  {
    Return(exprs.AsSeq(), orderBy, skip, limit, distinct)
  }

  function MakeWith(exprs: OneOrMany<Obj>, orderBy: Obj := NoneObj, skip: Obj := NoneObj,
                    limit: Obj := NoneObj): Token
  {
    With(exprs.AsSeq(), orderBy, skip, limit)
  }

  function MakeQuery(exprs: OneOrMany<Obj>): Token
  {
    Query(exprs.AsSeq())
  }

  /** `Merge` wraps a truthy non-list `oncreate`/`onmatch` in a list; a falsy
      one is kept as it is and is skipped when rendering, like an empty list. */
  function SetItems(arg: OneOrMany<Obj>): seq<Obj>
  {
    match arg
    case One(x) => if Truthy(x) then [x] else []
    case Many(xs) => xs
  }

  function MakeMerge(expr: Obj, onCreate: OneOrMany<Obj> := One(NoneObj),
                     onMatch: OneOrMany<Obj> := One(NoneObj)): Token
  {
    Merge(expr, SetItems(onCreate), SetItems(onMatch))
  }

  // ---------------------------------------------------------------------
  // Values
  // ---------------------------------------------------------------------

  /** Python's `bool(o)`; a token object defines neither `__bool__` nor
      `__len__`, so it is always true. */
  predicate Truthy(o: Obj)
  {
    match o
    case NoneObj => false
    case BoolObj(b) => b
    case IntObj(i) => i != 0
    case StrObj(s) => s != ""
    case TokenObj(_) => true
  }

  /** `cystr(value)`. The source writes `'true' if True else 'false'`, so
      every bool, `False` included, becomes `true`. */
  function Cystr(o: Obj): (r: Obj)
    ensures o.NoneObj? ==> r == StrObj("NULL")
    ensures o.BoolObj? ==> r == StrObj("true")
    ensures o.StrObj? ==> r.StrObj? && Unquote(r.s) == Some(o.s)
    ensures o.IntObj? || o.TokenObj? ==> r == o
  {
    match o
    case NoneObj => StrObj("NULL")
    case StrObj(s) => QuoteRoundTrip(s); StrObj(Quote(s))
    case BoolObj(_) => StrObj("true")
    case _ => o
  }

  /** What `Map` and `Collection` put in the token list for one value: a
      nested dict becomes a `Map`, a nested list a `Collection`, anything
      else goes through `cystr`. */
  function Convert(v: Value): Obj
  {
    match v
    case Dict(es) => TokenObj(Map(es, ""))
    case List(vs) => TokenObj(Collection(vs, ""))
    case Scalar(o) => Cystr(o)
  }

  // ---------------------------------------------------------------------
  // The token list each class's tokenize() returns
  // ---------------------------------------------------------------------

  /** `[Identifier(identifier), sep]` when the identifier is truthy. */
  function IdentPrefix(identifier: string, sep: string): seq<Obj>
  {
    if identifier != "" then [TokenObj(Identifier(identifier)), StrObj(sep)] else []
  }

  function IdentifierTokens(name: string): seq<Obj>
  {
    [StrObj(IdentifierText(name))]
  }

  /** The three tokens one dict item adds: key, separator, converted value. */
  function EntryGroup(e: Entry): seq<Obj>
  {
    [TokenObj(Identifier(e.key)), StrObj(": "), Convert(e.value)]
  }

  function EntryGroups(es: seq<Entry>): seq<seq<Obj>>
  {
    seq(|es|, i requires 0 <= i < |es| => EntryGroup(es[i]))
  }

  function MapTokens(entries: seq<Entry>, identifier: string): seq<Obj>
  {
    IdentPrefix(identifier, " = ") + [StrObj("{")]
    + Flatten(Interleave(EntryGroups(entries), [[StrObj(", ")]]))
    + [StrObj("}")]
  }

  function NodeTokens(props: seq<Entry>, identifier: string, labels: seq<string>): seq<Obj>
  {
    var space := identifier != "" || labels != [];
    [StrObj("(")]
    + (if identifier != "" then [TokenObj(Identifier(identifier))] else [])
    + (if labels != [] then [StrObj(":"), StrObj(Join(labels, ":"))] else [])
    + (if props != [] then (if space then [StrObj(" ")] else []) + [TokenObj(Map(props, ""))] else [])
    + [StrObj(")")]
  }

  function LeftArrow(reverse: Obj): string
  {
    if reverse == BoolObj(true) then "<-" else "-"
  }

  function RightArrow(reverse: Obj): string
  {
    if reverse == BoolObj(false) then "->" else "-"
  }

  predicate TypeTruthy(t: RelType)
  {
    match t
    case NoType => false
    case TypeName(n) => n != ""
    case TypeList(ns) => ns != []
  }

  /** A list type joins with `|`; a variable-length spec starting with `*`
      is emitted verbatim; any other type gets a `:` prefix. */
  function TypeText(t: RelType): string
    requires TypeTruthy(t)
  {
    match t
    case TypeList(ns) => ":" + Join(ns, "|")
    case TypeName(n) => if n[0] == '*' then n else ":" + n
  }

  predicate HasBracket(r: RelSpec)
  {
    r.identifier != "" || TypeTruthy(r.relType) || r.props != []
  }

  function BracketTokens(r: RelSpec): seq<Obj>
  {
    if !HasBracket(r) then []
    else
      var space := r.identifier != "" || TypeTruthy(r.relType);
      [StrObj("[")]
      + (if r.identifier != "" then [TokenObj(Identifier(r.identifier))] else [])
      + (if TypeTruthy(r.relType) then [StrObj(TypeText(r.relType))] else [])
      + (if r.props != [] then (if space then [StrObj(" ")] else []) + [TokenObj(Map(r.props, ""))] else [])
      + [StrObj("]")]
  }

  function RelTokens(r: RelSpec): seq<Obj>
  {
    [r.start.obj, StrObj(LeftArrow(r.reverse))] + BracketTokens(r)
    + [StrObj(RightArrow(r.reverse)), r.end.obj]
  }

  /** The running `end` of `Path.tokenize` is compared only when it is not
      `None`: before the first rel, or after a rel whose end is `None`. */
  predicate Live(end: Option<Endpoint>)
  {
    end.Some? && !end.value.obj.NoneObj?
  }

  function Prepend(acc: seq<Obj>, r: Result<seq<Obj>>): Result<seq<Obj>>
  {
    match r
    case Ok(toks) => Ok(acc + toks)
    case Err(e) => Err(e)
  }

  /** The tokens the loop of `Path.tokenize` adds for `rels`, given the
      running `end`: each rel's tokens, minus the first one when `end` is
      live, which must then be the very object `end` is. */
  function ChainTokens(rels: seq<RelSpec>, end: Option<Endpoint>): Result<seq<Obj>>
    decreases |rels|
  {
    if |rels| == 0 then Ok([])
    else
      var rtoks := RelTokens(rels[0]);
      if Live(end) && rels[0].start.oid != end.value.oid then Err(ValueError)
      else
        var kept := if Live(end) then rtoks[1..] else rtoks;
        Prepend(kept, ChainTokens(rels[1..], Some(rels[0].end)))
  }

  function PathTokens(rels: seq<RelSpec>, identifier: string): Result<seq<Obj>>
  {
    Prepend(IdentPrefix(identifier, "="), ChainTokens(rels, None))
  }

  /** `Expr` with its `expr_separator`: `", "`, or `" "` for `Query`. */
  function ExprTokens(exprs: seq<Obj>, separator: string): seq<Obj>
  {
    Interleave(exprs, [StrObj(separator)])
  }

  function PropertyTokens(key: string, value: Obj, identifier: string): seq<Obj>
  {
    IdentPrefix(identifier, ".") + [TokenObj(Identifier(key))]
    + (if !value.NoneObj? then [StrObj(" = "), Cystr(value)] else [])
  }

  function PropertyObjs(ps: seq<PropEntry>, identifier: string): seq<Obj>
  {
    seq(|ps|, i requires 0 <= i < |ps| => TokenObj(Property(ps[i].key, ps[i].value, identifier)))
  }

  function PropertiesTokens(ps: seq<PropEntry>, identifier: string): seq<Obj>
  {
    Interleave(PropertyObjs(ps, identifier), [StrObj(", ")])
  }

  function PredicateTokens(exprs: seq<Obj>, operator: Obj): seq<Obj>
  {
    if |exprs| == 0 then []
    else if |exprs| == 1 then [exprs[0]]
    else [StrObj("(")] + Interleave(exprs, [StrObj(" "), operator, StrObj(" ")]) + [StrObj(")")]
  }

  function StatementTokens(keyword: string, exprs: seq<Obj>): seq<Obj>
  {
    [StrObj(keyword), StrObj(" ")] + ExprTokens(exprs, ", ")
  }

  /** The ORDER BY / SKIP / LIMIT tail shared by `Return` and `With`: SKIP
      only when `skip` is truthy, LIMIT whenever `limit` is not `None`. */
  function PagingTokens(orderBy: Obj, skip: Obj, limit: Obj): seq<Obj>
  {
    (if Truthy(orderBy) then [StrObj(" "), orderBy] else [])
    + (if Truthy(skip) then [StrObj(" "), StrObj("SKIP"), StrObj(" "), skip] else [])
    + (if !limit.NoneObj? then [StrObj(" "), StrObj("LIMIT"), StrObj(" "), limit] else [])
  }

  /** `Return` inserts `" DISTINCT "` at index 1 whatever its `distinct`
      flag says; the flag is stored and never read. */
  function ReturnTokens(exprs: seq<Obj>, orderBy: Obj, skip: Obj, limit: Obj, distinct: bool): seq<Obj>
  {
    var base := StatementTokens("RETURN", exprs);
    base[..1] + [StrObj(" DISTINCT ")] + base[1..] + PagingTokens(orderBy, skip, limit)
  }

  function WithTokens(exprs: seq<Obj>, orderBy: Obj, skip: Obj, limit: Obj): seq<Obj>
  {
    StatementTokens("WITH", exprs) + PagingTokens(orderBy, skip, limit)
  }

  /** One `ON CREATE SET` / `ON MATCH SET` part of `Merge`. */
  function SetClauseTokens(keyword: string, items: seq<Obj>): seq<Obj>
  {
    if items != [] then [StrObj(" "), StrObj(keyword), StrObj(" ")] + Interleave(items, [StrObj(", ")])
    else []
  }

  function MergeTokens(expr: Obj, onCreate: seq<Obj>, onMatch: seq<Obj>): seq<Obj>
  {
    [StrObj("MERGE"), StrObj(" "), expr]
    + SetClauseTokens("ON CREATE SET", onCreate)
    + SetClauseTokens("ON MATCH SET", onMatch)
  }

  /** `t.tokenize()`. */
  function Tokens(t: Token): Result<seq<Obj>>
  {
    match t
    case Plain(o) => Ok([o])
    case Identifier(name) => Ok(IdentifierTokens(name))
    case Map(es, id) => Ok(MapTokens(es, id))
    case Collection(_, _) => Err(AttributeError)
    case Node(ps, id, ls) => Ok(NodeTokens(ps, id, ls))
    case Rel(r) => Ok(RelTokens(r))
    case Path(rels, id) => PathTokens(rels, id)
    case Expr(es) => Ok(ExprTokens(es, ", "))
    case Property(k, v, id) => Ok(PropertyTokens(k, v, id))
    case Properties(ps, id) => Ok(PropertiesTokens(ps, id))
    case Predicate(es, op) => Ok(PredicateTokens(es, op))
    case Statement(kw, es) => Ok(StatementTokens(kw.Text(), es))
    case Return(es, ob, sk, li, d) => Ok(ReturnTokens(es, ob, sk, li, d))
    case With(es, ob, sk, li) => Ok(WithTokens(es, ob, sk, li))
    case Merge(e, oc, om) => Ok(MergeTokens(e, oc, om))
    case Query(es) => Ok(ExprTokens(es, " "))
  }

  // ---------------------------------------------------------------------
  // Size: every token nested in a token list is smaller than its owner
  // ---------------------------------------------------------------------

  function ObjSize(o: Obj): nat
  {
    match o
    case TokenObj(t) => Size(t)
    case _ => 0
  }

  function ObjsSize(os: seq<Obj>): nat
  {
    if |os| == 0 then 0 else ObjSize(os[0]) + ObjsSize(os[1..])
  }

  function ValueSize(v: Value): nat
  {
    match v
    case Scalar(o) => ObjSize(o)
    case Dict(es) => 2 + EntriesSize(es)
    case List(vs) => 2 + ValuesSize(vs)
  }

  function EntriesSize(es: seq<Entry>): nat
  {
    if |es| == 0 then 0 else ValueSize(es[0].value) + EntriesSize(es[1..])
  }

  function ValuesSize(vs: seq<Value>): nat
  {
    if |vs| == 0 then 0 else ValueSize(vs[0]) + ValuesSize(vs[1..])
  }

  function PropEntriesSize(ps: seq<PropEntry>): nat
  {
    if |ps| == 0 then 0 else 3 + ObjSize(ps[0].value) + PropEntriesSize(ps[1..])
  }

  function RelSize(r: RelSpec): nat
  {
    ObjSize(r.start.obj) + ObjSize(r.end.obj) + EntriesSize(r.props)
  }

  function RelsSize(rels: seq<RelSpec>): nat
  {
    if |rels| == 0 then 0 else RelSize(rels[0]) + RelsSize(rels[1..])
  }

  function Size(t: Token): nat
  {
    match t
    case Plain(o) => 1 + ObjSize(o)
    case Identifier(_) => 1
    case Map(es, _) => 2 + EntriesSize(es)
    case Collection(vs, _) => 2 + ValuesSize(vs)
    case Node(ps, _, _) => 3 + EntriesSize(ps)
    case Rel(r) => 3 + RelSize(r)
    case Path(rels, _) => 3 + RelsSize(rels)
    case Expr(es) => 1 + ObjsSize(es)
    case Property(_, v, _) => 2 + ObjSize(v)
    case Properties(ps, _) => 1 + PropEntriesSize(ps)
    case Predicate(es, op) => 1 + ObjsSize(es) + ObjSize(op)
    case Statement(_, es) => 1 + ObjsSize(es)
    case Return(es, ob, sk, li, _) => 1 + ObjsSize(es) + ObjSize(ob) + ObjSize(sk) + ObjSize(li)
    case With(es, ob, sk, li) => 1 + ObjsSize(es) + ObjSize(ob) + ObjSize(sk) + ObjSize(li)
    case Merge(e, oc, om) => 1 + ObjSize(e) + ObjsSize(oc) + ObjsSize(om)
    case Query(es) => 1 + ObjsSize(es)
  }

  predicate AllBelow(toks: seq<Obj>, bound: nat)
  {
    forall x :: x in toks ==> ObjSize(x) < bound
  }

  // ---------------------------------------------------------------------
  // Rendering: Token.__str__
  // ---------------------------------------------------------------------

  /** `str(t)`: the tokens of `t`, each passed through `str()`, joined. */
  function Render(t: Token): Result<string>
    decreases Size(t), 2
  {
    match Tokens(t)
    case Err(e) => Err(e)
    case Ok(toks) =>
      NestedTokensSmaller(t);
      RenderAll(toks, Size(t))
  }

  /** `''.join([str(x) for x in toks])`; the first failing item decides the
      error. `bound` only measures termination. */
  function RenderAll(toks: seq<Obj>, bound: nat): Result<string>
    requires AllBelow(toks, bound)
    decreases bound, 1, |toks|
  {
    if |toks| == 0 then Ok("")
    else
      match Str(toks[0], bound)
      case Err(e) => Err(e)
      case Ok(head) =>
        match RenderAll(toks[1..], bound)
        case Err(e) => Err(e)
        case Ok(rest) => Ok(head + rest)
  }

  /** Python's `str(o)` for one item of a token list. */
  function Str(o: Obj, bound: nat): Result<string>
    requires ObjSize(o) < bound
    decreases bound, 0
  {
    match o
    case NoneObj => Ok("None")
    case BoolObj(b) => Ok(if b then "True" else "False")
    case IntObj(i) => Ok(IntText(i))
    case StrObj(s) => Ok(s)
    case TokenObj(t) => Render(t)
  }

  // ---------------------------------------------------------------------
  // Proof that rendering terminates
  // ---------------------------------------------------------------------

  lemma {:induction false} ObjInObjs(os: seq<Obj>, x: Obj)
    requires x in os
    ensures ObjSize(x) <= ObjsSize(os)
    decreases |os|
  {
    if os[0] != x {
      ObjInObjs(os[1..], x);
    }
  }

  lemma {:induction false} EntryInEntries(es: seq<Entry>, j: nat)
    requires j < |es|
    ensures ValueSize(es[j].value) <= EntriesSize(es)
    decreases |es|
  {
    if j > 0 {
      EntryInEntries(es[1..], j - 1);
    }
  }

  lemma {:induction false} PropEntryInPropEntries(ps: seq<PropEntry>, j: nat)
    requires j < |ps|
    ensures 3 + ObjSize(ps[j].value) <= PropEntriesSize(ps)
    decreases |ps|
  {
    if j > 0 {
      PropEntryInPropEntries(ps[1..], j - 1);
    }
  }

  lemma {:induction false} RelInRels(rels: seq<RelSpec>, j: nat)
    requires j < |rels|
    ensures RelSize(rels[j]) <= RelsSize(rels)
    decreases |rels|
  {
    if j > 0 {
      RelInRels(rels[1..], j - 1);
    }
  }

  lemma AllBelowObjs(os: seq<Obj>, bound: nat)
    requires ObjsSize(os) < bound
    ensures AllBelow(os, bound)
  {
    forall x | x in os
      ensures ObjSize(x) < bound
    {
      ObjInObjs(os, x);
    }
  }

  lemma AllBelowInterleave(values: seq<Obj>, delim: seq<Obj>, bound: nat)
    requires AllBelow(values, bound) && AllBelow(delim, bound)
    ensures AllBelow(Interleave(values, delim), bound)
  {
    forall x | x in Interleave(values, delim)
      ensures ObjSize(x) < bound
    {
      InterleaveElements(values, delim, x);
    }
  }

  lemma AllBelowAppend(a: seq<Obj>, b: seq<Obj>, bound: nat)
    requires AllBelow(a, bound) && AllBelow(b, bound)
    ensures AllBelow(a + b, bound)
  {
  }

  /** Converting a dict value keeps its size. */
  lemma ConvertSize(v: Value)
    ensures ObjSize(Convert(v)) == ValueSize(v)
  {
    if v.Scalar? {
      assert ObjSize(Cystr(v.obj)) == ObjSize(v.obj);
    }
  }

  lemma EntryGroupBelow(es: seq<Entry>, g: nat, bound: nat)
    requires g < |es| && 2 + EntriesSize(es) <= bound
    ensures AllBelow(EntryGroup(es[g]), bound)
  {
    EntryInEntries(es, g);
    ConvertSize(es[g].value);
    var key := TokenObj(Identifier(es[g].key));
    var value := Convert(es[g].value);
    assert ObjSize(key) == 1;
    AllBelowThree(key, StrObj(": "), value, bound);
  }

  lemma AllBelowThree(a: Obj, b: Obj, c: Obj, bound: nat)
    requires ObjSize(a) < bound && ObjSize(b) < bound && ObjSize(c) < bound
    ensures AllBelow([a, b, c], bound)
  {
  }

  lemma {:induction false} FlattenBelow(parts: seq<seq<Obj>>, bound: nat)
    requires forall j :: 0 <= j < |parts| ==> AllBelow(parts[j], bound)
    ensures AllBelow(Flatten(parts), bound)
    decreases |parts|
  {
    if |parts| > 0 {
      FlattenBelow(parts[..|parts| - 1], bound);
      AllBelowAppend(Flatten(parts[..|parts| - 1]), parts[|parts| - 1], bound);
    }
  }

  lemma MapTokensBelow(es: seq<Entry>, identifier: string, bound: nat)
    requires 2 + EntriesSize(es) <= bound
    ensures AllBelow(MapTokens(es, identifier), bound)
  {
    var groups := EntryGroups(es);
    var sep: seq<Obj> := [StrObj(", ")];
    var inter := Interleave(groups, [sep]);
    forall j | 0 <= j < |inter|
      ensures AllBelow(inter[j], bound)
    {
      InterleaveElements(groups, [sep], inter[j]);
      if inter[j] in groups {
        var g :| 0 <= g < |groups| && groups[g] == inter[j];
        EntryGroupBelow(es, g, bound);
      }
    }
    FlattenBelow(inter, bound);
    var head := IdentPrefix(identifier, " = ") + [StrObj("{")];
    AllBelowAppend(head, Flatten(inter), bound);
    AllBelowAppend(head + Flatten(inter), [StrObj("}")], bound);
  }

  lemma NodeTokensBelow(ps: seq<Entry>, identifier: string, labels: seq<string>)
    ensures AllBelow(NodeTokens(ps, identifier, labels), 3 + EntriesSize(ps))
  {
  }

  lemma RelTokensBelow(r: RelSpec, bound: nat)
    requires 3 + RelSize(r) <= bound
    ensures AllBelow(RelTokens(r), bound)
  {
  }

  lemma {:induction false} ChainTokensBelow(rels: seq<RelSpec>, end: Option<Endpoint>, bound: nat)
    requires 3 + RelsSize(rels) <= bound
    ensures ChainTokens(rels, end).Ok? ==> AllBelow(ChainTokens(rels, end).value, bound)
    decreases |rels|
  {
    if |rels| > 0 {
      RelInRels(rels, 0);
      RelTokensBelow(rels[0], bound);
      ChainTokensBelow(rels[1..], Some(rels[0].end), bound);
    }
  }

  lemma PropertiesTokensBelow(ps: seq<PropEntry>, identifier: string, bound: nat)
    requires 1 + PropEntriesSize(ps) <= bound
    ensures AllBelow(PropertiesTokens(ps, identifier), bound)
  {
    var objs := PropertyObjs(ps, identifier);
    forall x | x in objs
      ensures ObjSize(x) < bound
    {
      var j :| 0 <= j < |objs| && objs[j] == x;
      PropEntryInPropEntries(ps, j);
    }
    AllBelowInterleave(objs, [StrObj(", ")], bound);
  }

  lemma ExprTokensBelow(es: seq<Obj>, separator: string, bound: nat)
    requires ObjsSize(es) < bound
    ensures AllBelow(ExprTokens(es, separator), bound)
  {
    AllBelowObjs(es, bound);
    AllBelowInterleave(es, [StrObj(separator)], bound);
  }

  lemma PredicateTokensBelow(es: seq<Obj>, op: Obj, bound: nat)
    requires ObjsSize(es) + ObjSize(op) < bound
    ensures AllBelow(PredicateTokens(es, op), bound)
  {
    AllBelowObjs(es, bound);
    if |es| >= 2 {
      AllBelowInterleave(es, [StrObj(" "), op, StrObj(" ")], bound);
      var inter := Interleave(es, [StrObj(" "), op, StrObj(" ")]);
      AllBelowAppend([StrObj("(")], inter, bound);
      AllBelowAppend([StrObj("(")] + inter, [StrObj(")")], bound);
    }
  }

  lemma PagingTokensBelow(ob: Obj, sk: Obj, li: Obj, bound: nat)
    requires ObjSize(ob) < bound && ObjSize(sk) < bound && ObjSize(li) < bound
    ensures AllBelow(PagingTokens(ob, sk, li), bound)
  {
  }

  lemma ReturnTokensBelow(es: seq<Obj>, ob: Obj, sk: Obj, li: Obj, d: bool, bound: nat)
    requires ObjsSize(es) + ObjSize(ob) + ObjSize(sk) + ObjSize(li) < bound
    ensures AllBelow(ReturnTokens(es, ob, sk, li, d), bound)
  {
    ExprTokensBelow(es, ", ", bound);
    var base := StatementTokens("RETURN", es);
    AllBelowAppend([StrObj("RETURN"), StrObj(" ")], ExprTokens(es, ", "), bound);
    assert AllBelow(base[..1], bound) && AllBelow(base[1..], bound);
    PagingTokensBelow(ob, sk, li, bound);
    AllBelowAppend(base[..1], [StrObj(" DISTINCT ")], bound);
    AllBelowAppend(base[..1] + [StrObj(" DISTINCT ")], base[1..], bound);
    AllBelowAppend(base[..1] + [StrObj(" DISTINCT ")] + base[1..], PagingTokens(ob, sk, li), bound);
  }

  lemma WithTokensBelow(es: seq<Obj>, ob: Obj, sk: Obj, li: Obj, bound: nat)
    requires ObjsSize(es) + ObjSize(ob) + ObjSize(sk) + ObjSize(li) < bound
    ensures AllBelow(WithTokens(es, ob, sk, li), bound)
  {
    ExprTokensBelow(es, ", ", bound);
    AllBelowAppend([StrObj("WITH"), StrObj(" ")], ExprTokens(es, ", "), bound);
    PagingTokensBelow(ob, sk, li, bound);
    AllBelowAppend(StatementTokens("WITH", es), PagingTokens(ob, sk, li), bound);
  }

  lemma SetClauseTokensBelow(keyword: string, items: seq<Obj>, bound: nat)
    requires ObjsSize(items) < bound
    ensures AllBelow(SetClauseTokens(keyword, items), bound)
  {
    if items != [] {
      ExprTokensBelow(items, ", ", bound);
      AllBelowAppend([StrObj(" "), StrObj(keyword), StrObj(" ")], ExprTokens(items, ", "), bound);
    }
  }

  lemma MergeTokensBelow(e: Obj, oc: seq<Obj>, om: seq<Obj>, bound: nat)
    requires ObjSize(e) + ObjsSize(oc) + ObjsSize(om) < bound
    ensures AllBelow(MergeTokens(e, oc, om), bound)
  {
    SetClauseTokensBelow("ON CREATE SET", oc, bound);
    SetClauseTokensBelow("ON MATCH SET", om, bound);
    var head := [StrObj("MERGE"), StrObj(" "), e];
    AllBelowAppend(head, SetClauseTokens("ON CREATE SET", oc), bound);
    AllBelowAppend(head + SetClauseTokens("ON CREATE SET", oc), SetClauseTokens("ON MATCH SET", om), bound);
  }

  lemma PropertyTokensBelow(key: string, value: Obj, identifier: string)
    ensures AllBelow(PropertyTokens(key, value, identifier), 2 + ObjSize(value))
  {
    assert ObjSize(Cystr(value)) <= ObjSize(value) + 1;
  }

  lemma StatementTokensBelow(keyword: string, es: seq<Obj>, bound: nat)
    requires ObjsSize(es) < bound
    ensures AllBelow(StatementTokens(keyword, es), bound)
  {
    ExprTokensBelow(es, ", ", bound);
    AllBelowAppend([StrObj(keyword), StrObj(" ")], ExprTokens(es, ", "), bound);
  }

  /** Every token object in `t`'s token list is strictly smaller than `t`,
      so `Render` terminates. */
  lemma NestedTokensSmaller(t: Token)
    ensures Tokens(t).Ok? ==> AllBelow(Tokens(t).value, Size(t))
  {
    var b := Size(t);
    match t
    case Plain(o) =>
    case Identifier(_) =>
    case Map(es, id) =>
      MapTokensBelow(es, id, b);
    case Collection(_, _) =>
    case Node(ps, id, ls) =>
      NodeTokensBelow(ps, id, ls);
    case Rel(r) =>
      RelTokensBelow(r, b);
    case Path(rels, id) =>
      ChainTokensBelow(rels, None, b);
    case Expr(es) =>
      ExprTokensBelow(es, ", ", b);
    case Property(k, v, id) =>
      PropertyTokensBelow(k, v, id);
    case Properties(ps, id) =>
      PropertiesTokensBelow(ps, id, b);
    case Predicate(es, op) =>
      PredicateTokensBelow(es, op, b);
    case Statement(kw, es) =>
      StatementTokensBelow(kw.Text(), es, b);
    case Return(es, ob, sk, li, d) =>
      ReturnTokensBelow(es, ob, sk, li, d, b);
    case With(es, ob, sk, li) =>
      WithTokensBelow(es, ob, sk, li, b);
    case Merge(e, oc, om) =>
      MergeTokensBelow(e, oc, om, b);
    case Query(es) =>
      ExprTokensBelow(es, " ", b);
  }
}
