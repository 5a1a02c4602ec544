/**
 * The `tokenize` methods of cypher/syntax.py as they are written: each
 * builds a local `toks` list step by step (append, extend, insert, pop),
 * with the `last` index deciding where a separator goes. Each method is
 * proved to return the token list its class's function in `Syntax` gives.
 */
module Tokenizers {
  import opened Utils
  import opened Literals
  import opened Syntax

  /** The conversion `Map.tokenize` applies to each value: a dict becomes a
      nested `Map`, a list or tuple a `Collection`, anything else `cystr`. */
  method ConvertValue(v: Value) returns (value: Obj)
    ensures value == Convert(v)
  {
    if v.Dict? {
      value := TokenObj(Map(v.entries, ""));
    } else if v.List? {
      value := TokenObj(Collection(v.items, ""));
    } else {
      value := Cystr(v.obj);
    }
  }

  /** `Map.tokenize`: optional `ident = `, then `{`, the `key: value`
      items separated by `, `, then `}`. */
  method TokenizeMap(entries: seq<Entry>, identifier: string) returns (toks: seq<Obj>)
    ensures toks == MapTokens(entries, identifier)
  {
    toks := [];
    if identifier != "" {
      toks := toks + [TokenObj(Identifier(identifier)), StrObj(" = ")];
    }
    toks := toks + [StrObj("{")];
    var last := |entries| - 1;
    ghost var head := IdentPrefix(identifier, " = ") + [StrObj("{")];
    assert toks == head;
    ghost var groups := EntryGroups(entries);
    ghost var sep := [[StrObj(", ")]];
    var i := 0;
    while i < |entries|
      invariant 0 <= i <= |entries| == |groups|
      invariant toks == head + Flatten(InterleavedUpTo(groups, i, sep))
    {
      var value := ConvertValue(entries[i].value);
      var group := [TokenObj(Identifier(entries[i].key)), StrObj(": "), value];
      assert group == groups[i];
      PrefixedInterleavedStep(head, groups, i, [StrObj(", ")]);
      toks := toks + group;
      if i < last {
        toks := toks + [StrObj(", ")];
      }
      i := i + 1;
    }
    InterleavedAll(groups, sep);
    toks := toks + [StrObj("}")];
  }

  /** `Collection.tokenize`: it computes `len(self.props)`, an attribute a
      `Collection` never has, so it always raises `AttributeError`. */
  method TokenizeCollection(values: seq<Value>, identifier: string) returns (r: Result<seq<Obj>>)
    ensures r == Err(AttributeError)
  {
    var toks: seq<Obj> := [];
    if identifier != "" {
      toks := toks + [TokenObj(Identifier(identifier)), StrObj(" = ")];
    }
    toks := toks + [StrObj("[")];
    return Err(AttributeError);
  }

  /** `Node.tokenize`: `(`, identifier, `:labels`, a space only when
      something came before the props map, the map, `)`. */
  method TokenizeNode(props: seq<Entry>, identifier: string, labels: seq<string>) returns (toks: seq<Obj>)
    ensures toks == NodeTokens(props, identifier, labels)
  {
    toks := [StrObj("(")];
    var space := false;
    if identifier != "" {
      toks := toks + [TokenObj(Identifier(identifier))];
      space := true;
    }
    if labels != [] {
      toks := toks + [StrObj(":")];
      toks := toks + [StrObj(Join(labels, ":"))];
      space := true;
    }
    if props != [] {
      if space {
        toks := toks + [StrObj(" ")];
      }
      toks := toks + [TokenObj(Map(props, ""))];
    }
    toks := toks + [StrObj(")")];
  }

  /** The optional `[identifier:type {props}]` segment of `Rel.tokenize`,
      appended to `toks0`. */
  method AppendBracket(toks0: seq<Obj>, r: RelSpec) returns (toks: seq<Obj>)
    ensures toks == toks0 + BracketTokens(r)
  {
    toks := toks0;
    if !(r.identifier != "" || TypeTruthy(r.relType) || r.props != []) {
      return;
    }
    toks := toks + [StrObj("[")];
    var space := false;
    if r.identifier != "" {
      space := true;
      toks := toks + [TokenObj(Identifier(r.identifier))];
    }
    if TypeTruthy(r.relType) {
      space := true;
      var text: string;
      match r.relType {
        case TypeList(names) =>
          text := ":" + Join(names, "|");
        case TypeName(name) =>
          if name[0] == '*' {
            text := name;
          } else {
            text := ":" + name;
          }
      }
      assert text == TypeText(r.relType);
      toks := toks + [StrObj(text)];
    }
    if r.props != [] {
      if space {
        toks := toks + [StrObj(" ")];
      }
      toks := toks + [TokenObj(Map(r.props, ""))];
    }
    toks := toks + [StrObj("]")];
  }

  /** `Rel.tokenize`: start, left arrow, optional `[...]` segment, right
      arrow, end. */
  method TokenizeRel(r: RelSpec) returns (toks: seq<Obj>)
    ensures toks == RelTokens(r)
  {
    toks := [];
    toks := toks + [r.start.obj];
    if r.reverse == BoolObj(true) {
      toks := toks + [StrObj("<-")];
    } else {
      toks := toks + [StrObj("-")];
    }
    assert toks == [r.start.obj, StrObj(LeftArrow(r.reverse))];
    toks := AppendBracket(toks, r);
    ghost var bracketed := toks;
    if r.reverse == BoolObj(false) {
      toks := toks + [StrObj("->")];
    } else {
      toks := toks + [StrObj("-")];
    }
    toks := toks + [r.end.obj];
    assert toks == bracketed + [StrObj(RightArrow(r.reverse)), r.end.obj];
  }

  lemma PrependTwice(a: seq<Obj>, b: seq<Obj>, r: Result<seq<Obj>>)
    ensures Prepend(a, Prepend(b, r)) == Prepend(a + b, r)
  {
    if r.Ok? {
      assert a + (b + r.value) == (a + b) + r.value;
    }
  }

  /** `Path.tokenize`: each rel's tokens in turn; after the first rel whose
      running `end` is not `None`, the next rel's first token is popped and
      must be that very object, or `ValueError` is raised. */
  method TokenizePath(rels: seq<RelSpec>, identifier: string) returns (r: Result<seq<Obj>>)
    ensures r == PathTokens(rels, identifier)
  {
    var toks: seq<Obj> := [];
    if identifier != "" {
      toks := toks + [TokenObj(Identifier(identifier))];
      toks := toks + [StrObj("=")];
    }
    assert toks == IdentPrefix(identifier, "=");
    var end: Option<Endpoint> := None;
    var i := 0;
    assert rels[0..] == rels;
    while i < |rels|
      invariant 0 <= i <= |rels|
      invariant PathTokens(rels, identifier) == Prepend(toks, ChainTokens(rels[i..], end))
    {
      var rel := rels[i];
      var rtoks := TokenizeRel(rel);
      assert rels[i..][0] == rel && rels[i..][1..] == rels[i + 1..];
      if Live(end) {
        var start := rel.start;     // the object `rtoks.pop(0)` returns
        rtoks := rtoks[1..];
        if start.oid != end.value.oid {
          return Err(ValueError);
        }
      }
      PrependTwice(toks, rtoks, ChainTokens(rels[i + 1..], Some(rel.end)));
      toks := toks + rtoks;
      end := Some(rel.end);         // `rtoks[-1]`
      i := i + 1;
    }
    assert rels[i..] == [];
    assert toks + [] == toks;
    return Ok(toks);
  }

  /** `Expr.tokenize` with the class's `expr_separator`. */
  method TokenizeExpr(exprs: seq<Obj>, separator: string) returns (toks: seq<Obj>)
    ensures toks == ExprTokens(exprs, separator)
  {
    toks := [];
    if |exprs| == 0 {
      return;
    }
    var last := |exprs| - 1;
    var i := 0;
    while i < |exprs|
      invariant 0 <= i <= |exprs|
      invariant toks == InterleavedUpTo(exprs, i, [StrObj(separator)])
    {
      InterleaveStep(exprs, i, [StrObj(separator)]);
      toks := toks + [exprs[i]];
      if i < last {
        toks := toks + [StrObj(separator)];
      }
      i := i + 1;
    }
    InterleavedAll(exprs, [StrObj(separator)]);
  }

  /** `Property.tokenize`: optional `ident.`, the key, and ` = value` unless
      the value is `None`. */
  method TokenizeProperty(key: string, value: Obj, identifier: string) returns (toks: seq<Obj>)
    ensures toks == PropertyTokens(key, value, identifier)
  {
    toks := [];
    if identifier != "" {
      toks := toks + [TokenObj(Identifier(identifier)), StrObj(".")];
    }
    toks := toks + [TokenObj(Identifier(key))];
    if !value.NoneObj? {
      toks := toks + [StrObj(" = "), Cystr(value)];
    }
  }

  /** `Properties.tokenize`: one `Property` per dict item, separated by `, `. */
  method TokenizeProperties(ps: seq<PropEntry>, identifier: string) returns (toks: seq<Obj>)
    ensures toks == PropertiesTokens(ps, identifier)
  {
    toks := [];
    var last := |ps| - 1;
    ghost var objs := PropertyObjs(ps, identifier);
    var i := 0;
    while i < |ps|
      invariant 0 <= i <= |ps|
      invariant toks == InterleavedUpTo(objs, i, [StrObj(", ")])
    {
      InterleaveStep(objs, i, [StrObj(", ")]);
      toks := toks + [TokenObj(Property(ps[i].key, ps[i].value, identifier))];
      if i < last {
        toks := toks + [StrObj(", ")];
      }
      i := i + 1;
    }
    InterleavedAll(objs, [StrObj(", ")]);
  }

  /** `Predicate.tokenize`: nothing, the lone expression, or the
      expressions in parentheses separated by ` OP `. */
  method TokenizePredicate(exprs: seq<Obj>, operator: Obj) returns (toks: seq<Obj>)
    ensures toks == PredicateTokens(exprs, operator)
  {
    toks := [];
    if |exprs| == 0 {
      return;
    }
    var last := |exprs| - 1;
    if last == 0 {
      toks := toks + [exprs[0]];
      return;
    }
    toks := toks + [StrObj("(")];
    ghost var delim := [StrObj(" "), operator, StrObj(" ")];
    var i := 0;
    while i < |exprs|
      invariant 0 <= i <= |exprs|
      invariant toks == [StrObj("(")] + InterleavedUpTo(exprs, i, delim)
    {
      PrefixedInterleaveStep([StrObj("(")], exprs, i, delim);
      toks := toks + [exprs[i]];
      if i < last {
        ghost var before := toks;
        toks := toks + [StrObj(" ")];
        toks := toks + [operator];
        toks := toks + [StrObj(" ")];
        assert toks == before + delim;
      }
      i := i + 1;
    }
    InterleavedAll(exprs, delim);
    toks := toks + [StrObj(")")];
  }

  /** `Statement.tokenize`: the keyword, a space, then `Expr.tokenize`. */
  method TokenizeStatement(keyword: string, exprs: seq<Obj>) returns (toks: seq<Obj>)
    ensures toks == StatementTokens(keyword, exprs)
  {
    toks := [StrObj(keyword), StrObj(" ")];
    var rest := TokenizeExpr(exprs, ", ");
    toks := toks + rest;
  }

  /** The ORDER BY / SKIP / LIMIT tail `Return` and `With` append. */
  method AppendPaging(toks0: seq<Obj>, orderBy: Obj, skip: Obj, limit: Obj) returns (toks: seq<Obj>)
    ensures toks == toks0 + PagingTokens(orderBy, skip, limit)
  {
    toks := toks0;
    if Truthy(orderBy) {
      toks := toks + [StrObj(" "), orderBy];
    }
    if Truthy(skip) {
      toks := toks + [StrObj(" "), StrObj("SKIP"), StrObj(" "), skip];
    }
    if !limit.NoneObj? {
      toks := toks + [StrObj(" "), StrObj("LIMIT"), StrObj(" "), limit];
    }
  }

  /** `Return.tokenize`: the statement's tokens with `" DISTINCT "`
      inserted at index 1, whatever `distinct` is, then the paging tail. */
  method TokenizeReturn(exprs: seq<Obj>, orderBy: Obj, skip: Obj, limit: Obj, distinct: bool)
    returns (toks: seq<Obj>)
    ensures toks == ReturnTokens(exprs, orderBy, skip, limit, distinct)
  {
    toks := TokenizeStatement("RETURN", exprs);
    toks := toks[..1] + [StrObj(" DISTINCT ")] + toks[1..];   // toks.insert(1, ' DISTINCT ')
    toks := AppendPaging(toks, orderBy, skip, limit);
  }

  method TokenizeWith(exprs: seq<Obj>, orderBy: Obj, skip: Obj, limit: Obj) returns (toks: seq<Obj>)
    ensures toks == WithTokens(exprs, orderBy, skip, limit)
  {
    toks := TokenizeStatement("WITH", exprs);
    toks := AppendPaging(toks, orderBy, skip, limit);
  }

  /** One `ON ... SET` clause of `Merge.tokenize`: nothing for an empty
      list, else ` KEYWORD ` and the items separated by `, `. */
  method AppendSetClause(toks0: seq<Obj>, keyword: string, items: seq<Obj>) returns (toks: seq<Obj>)
    ensures toks == toks0 + SetClauseTokens(keyword, items)
  {
    toks := toks0;
    if items == [] {
      assert toks0 + [] == toks0;
      return;
    }
    toks := toks + [StrObj(" ")];
    toks := toks + [StrObj(keyword)];
    toks := toks + [StrObj(" ")];
    ghost var opening := [StrObj(" "), StrObj(keyword), StrObj(" ")];
    ghost var head := toks;
    assert head == toks0 + opening;
    ghost var sep := [StrObj(", ")];
    var last := |items| - 1;
    var i := 0;
    while i < |items|
      invariant 0 <= i <= |items|
      invariant toks == head + InterleavedUpTo(items, i, sep)
    {
      PrefixedInterleaveStep(head, items, i, sep);
      toks := toks + [items[i]];
      if i < last {
        toks := toks + [StrObj(", ")];
      }
      i := i + 1;
    }
    InterleavedAll(items, sep);
    assert toks0 + opening + Interleave(items, sep) == toks0 + (opening + Interleave(items, sep));
  }

  /** `Merge.tokenize`: `MERGE expr`, then the `ON CREATE SET` and the
      `ON MATCH SET` clause. */
  method TokenizeMerge(expr: Obj, onCreate: seq<Obj>, onMatch: seq<Obj>) returns (toks: seq<Obj>)
    ensures toks == MergeTokens(expr, onCreate, onMatch)
  {
    toks := [StrObj("MERGE"), StrObj(" "), expr];
    toks := AppendSetClause(toks, "ON CREATE SET", onCreate);
    toks := AppendSetClause(toks, "ON MATCH SET", onMatch);
  }

  /** `t.tokenize()` for any node, by its class. */
  method Tokenize(t: Token) returns (r: Result<seq<Obj>>)
    ensures r == Tokens(t)
  {
    match t {
      case Plain(o) =>
        r := Ok([o]);
      case Identifier(name) =>
        r := Ok(IdentifierTokens(name));
      case Map(es, id) =>
        var toks := TokenizeMap(es, id);
        r := Ok(toks);
      case Collection(vs, id) =>
        r := TokenizeCollection(vs, id);
      case Node(ps, id, ls) =>
        var toks := TokenizeNode(ps, id, ls);
        r := Ok(toks);
      case Rel(rel) =>
        var toks := TokenizeRel(rel);
        r := Ok(toks);
      case Path(rels, id) =>
        r := TokenizePath(rels, id);
      case Expr(es) =>
        var toks := TokenizeExpr(es, ", ");
        r := Ok(toks);
      case Property(k, v, id) =>
        var toks := TokenizeProperty(k, v, id);
        r := Ok(toks);
      case Properties(ps, id) =>
        var toks := TokenizeProperties(ps, id);
        r := Ok(toks);
      case Predicate(es, op) =>
        var toks := TokenizePredicate(es, op);
        r := Ok(toks);
      case Statement(kw, es) =>
        var toks := TokenizeStatement(kw.Text(), es);
        r := Ok(toks);
      case Return(es, ob, sk, li, d) =>
        var toks := TokenizeReturn(es, ob, sk, li, d);
        r := Ok(toks);
      case With(es, ob, sk, li) =>
        var toks := TokenizeWith(es, ob, sk, li);
        r := Ok(toks);
      case Merge(e, oc, om) =>
        var toks := TokenizeMerge(e, oc, om);
        r := Ok(toks);
      case Query(es) =>
        var toks := TokenizeExpr(es, " ");
        r := Ok(toks);
    }
  }
}
