/**
 * The text each clause and pattern class of cypher/syntax.py renders to,
 * given the texts of the objects it holds.
 */
module ClauseRendering {
  import opened Utils
  import opened Literals
  import opened Syntax
  import opened Rendering

  /** The texts of a list of objects, item by item. */
  predicate ShowsAs(es: seq<Obj>, texts: seq<string>)
  {
    |texts| == |es| && forall i :: 0 <= i < |es| ==> Show(es[i]) == Ok(texts[i])
  }

  // ---------------------------------------------------------------------
  // Node
  // ---------------------------------------------------------------------

  lemma NodeIdentifierShows(identifier: string)
    ensures ShowAll(if identifier != "" then [TokenObj(Identifier(identifier))] else [])
            == Ok(if identifier != "" then IdentifierText(identifier) else "")
  {
    if identifier != "" {
      ShowAllOne(TokenObj(Identifier(identifier)));
      IdentifierRender(identifier);
    } else {
      ShowAllNil();
    }
  }

  lemma NodeLabelsShow(labels: seq<string>)
    ensures ShowAll(if labels != [] then [StrObj(":"), StrObj(Join(labels, ":"))] else [])
            == Ok(if labels != [] then ":" + Join(labels, ":") else "")
  {
    if labels != [] {
      ShowPair(StrObj(":"), StrObj(Join(labels, ":")));
    } else {
      ShowAllNil();
    }
  }

  lemma NodePropsShow(ps: seq<Entry>, space: bool, mapText: string)
    requires ps != [] ==> Render(Map(ps, "")) == Ok(mapText)
    ensures ShowAll(if ps != [] then (if space then [StrObj(" ")] else []) + [TokenObj(Map(ps, ""))] else [])
            == Ok(if ps != [] then (if space then " " else "") + mapText else "")
  {
    if ps != [] {
      var m := TokenObj(Map(ps, ""));
      ShowToken(Map(ps, ""));
      if space {
        ShowPair(StrObj(" "), m);
        assert [StrObj(" ")] + [m] == [StrObj(" "), m];
      } else {
        ShowAllOne(m);
        assert [] + [m] == [m];
        assert "" + mapText == mapText;
      }
    } else {
      ShowAllNil();
    }
  }

  /** `Node` renders `(`, the identifier, `:` and the labels joined by `:`,
      a space only when one of those came before the props map, the map,
      and `)`. */
  lemma NodeRender(ps: seq<Entry>, identifier: string, labels: seq<string>, mapText: string)
    requires ps != [] ==> Render(Map(ps, "")) == Ok(mapText)
    ensures Render(Node(ps, identifier, labels))
            == Ok("("
                  + (if identifier != "" then IdentifierText(identifier) else "")
                  + (if labels != [] then ":" + Join(labels, ":") else "")
                  + (if ps != [] then (if identifier != "" || labels != [] then " " else "") + mapText else "")
                  + ")")
  {
    RenderByTokens(Node(ps, identifier, labels));
    var space := identifier != "" || labels != [];
    var b := if identifier != "" then [TokenObj(Identifier(identifier))] else [];
    var c := if labels != [] then [StrObj(":"), StrObj(Join(labels, ":"))] else [];
    var d := if ps != [] then (if space then [StrObj(" ")] else []) + [TokenObj(Map(ps, ""))] else [];
    var bt := if identifier != "" then IdentifierText(identifier) else "";
    var ct := if labels != [] then ":" + Join(labels, ":") else "";
    var dt := if ps != [] then (if space then " " else "") + mapText else "";
    NodeIdentifierShows(identifier);
    NodeLabelsShow(labels);
    NodePropsShow(ps, space, mapText);
    ShowAllAppend3(b, c, d, bt, ct, dt);
    ShowSurrounded("(", b + c + d, ")", bt + ct + dt);
    assert NodeTokens(ps, identifier, labels) == [StrObj("(")] + b + c + d + [StrObj(")")];
    RegroupMiddle([StrObj("(")], b, c, d, [StrObj(")")]);
    RegroupMiddle("(", bt, ct, dt, ")");
  }

  /** `Node()` renders `()`. */
  lemma EmptyNodeRender()
    ensures Render(Node([], "", [])) == Ok("()")
  {
    NodeRender([], "", [], "");
    assert "(" + "" + "" + "" + ")" == "()";
  }

  // ---------------------------------------------------------------------
  // Expr, Statement, Query
  // ---------------------------------------------------------------------

  /** `Expr` joins its items' texts with `, `; `Query` joins them with a
      space. */
  lemma ExprRender(es: seq<Obj>, texts: seq<string>)
    requires ShowsAs(es, texts)
    ensures Render(Expr(es)) == Ok(Join(texts, ", "))
    ensures Render(Query(es)) == Ok(Join(texts, " "))
  {
    RenderByTokens(Expr(es));
    RenderByTokens(Query(es));
    ShowText(", ");
    ShowText(" ");
    ShowInterleave(es, [StrObj(", ")], texts, ", ");
    ShowInterleave(es, [StrObj(" ")], texts, " ");
  }

  lemma ShowStatement(keyword: string, es: seq<Obj>, texts: seq<string>)
    requires ShowsAs(es, texts)
    ensures ShowAll(StatementTokens(keyword, es)) == Ok(keyword + " " + Join(texts, ", "))
  {
    ShowText(", ");
    ShowInterleave(es, [StrObj(", ")], texts, ", ");
    ShowAllAppend([StrObj(keyword), StrObj(" ")], ExprTokens(es, ", "));
    ShowPair(StrObj(keyword), StrObj(" "));
  }

  /** A `Statement` renders its keyword, a space, then its items joined
      with `, `. */
  lemma StatementRender(keyword: Keyword, es: seq<Obj>, texts: seq<string>)
    requires ShowsAs(es, texts)
    ensures Render(Statement(keyword, es)) == Ok(keyword.Text() + " " + Join(texts, ", "))
  {
    RenderByTokens(Statement(keyword, es));
    ShowStatement(keyword.Text(), es, texts);
  }

  // ---------------------------------------------------------------------
  // Return, With
  // ---------------------------------------------------------------------

  /** The ORDER BY / SKIP / LIMIT tail: the order-by text when it is
      truthy, SKIP when `skip` is truthy (so never for 0), LIMIT whenever
      `limit` is not `None` (so also for 0). */
  function PagingText(orderBy: Obj, orderText: string, skip: Obj, skipText: string,
                      limit: Obj, limitText: string): string
  {
    (if Truthy(orderBy) then " " + orderText else "")
    + (if Truthy(skip) then " SKIP " + skipText else "")
    + (if !limit.NoneObj? then " LIMIT " + limitText else "")
  }

  predicate PagingShows(orderBy: Obj, orderText: string, skip: Obj, skipText: string,
                        limit: Obj, limitText: string)
  {
    (Truthy(orderBy) ==> Show(orderBy) == Ok(orderText))
    && (Truthy(skip) ==> Show(skip) == Ok(skipText))
    && (!limit.NoneObj? ==> Show(limit) == Ok(limitText))
  }

  lemma OrderShows(orderBy: Obj, orderText: string)
    requires Truthy(orderBy) ==> Show(orderBy) == Ok(orderText)
    ensures ShowAll(if Truthy(orderBy) then [StrObj(" "), orderBy] else [])
            == Ok(if Truthy(orderBy) then " " + orderText else "")
  {
    if Truthy(orderBy) {
      ShowPair(StrObj(" "), orderBy);
    } else {
      ShowAllNil();
    }
  }

  lemma KeywordShows(present: bool, keyword: string, x: Obj, text: string)
    requires present ==> Show(x) == Ok(text)
    ensures ShowAll(if present then [StrObj(" "), StrObj(keyword), StrObj(" "), x] else [])
            == Ok(if present then " " + keyword + " " + text else "")
  {
    if present {
      ShowKeywordValue(keyword, x, text);
    } else {
      ShowAllNil();
    }
  }

  // Only joins string literals; it spells the step out for the solver.
  lemma SpacedKeywords(text: string)
    ensures " " + "SKIP" + " " + text == " SKIP " + text
    ensures " " + "LIMIT" + " " + text == " LIMIT " + text
  {
  }

  lemma ShowPaging(orderBy: Obj, orderText: string, skip: Obj, skipText: string,
                   limit: Obj, limitText: string)
    requires PagingShows(orderBy, orderText, skip, skipText, limit, limitText)
    ensures ShowAll(PagingTokens(orderBy, skip, limit))
            == Ok(PagingText(orderBy, orderText, skip, skipText, limit, limitText))
  {
    var a := if Truthy(orderBy) then [StrObj(" "), orderBy] else [];
    var b := if Truthy(skip) then [StrObj(" "), StrObj("SKIP"), StrObj(" "), skip] else [];
    var c := if !limit.NoneObj? then [StrObj(" "), StrObj("LIMIT"), StrObj(" "), limit] else [];
    OrderShows(orderBy, orderText);
    KeywordShows(Truthy(skip), "SKIP", skip, skipText);
    KeywordShows(!limit.NoneObj?, "LIMIT", limit, limitText);
    SpacedKeywords(skipText);
    SpacedKeywords(limitText);
    ShowAllAppend3(a, b, c, if Truthy(orderBy) then " " + orderText else "",
                   if Truthy(skip) then " SKIP " + skipText else "",
                   if !limit.NoneObj? then " LIMIT " + limitText else "");
  }

  lemma ShowKeywordValue(keyword: string, x: Obj, text: string)
    requires Show(x) == Ok(text)
    ensures ShowAll([StrObj(" "), StrObj(keyword), StrObj(" "), x]) == Ok(" " + keyword + " " + text)
  {
    assert [StrObj(" "), StrObj(keyword), StrObj(" "), x]
           == [StrObj(" "), StrObj(keyword)] + [StrObj(" "), x];
    ShowAllAppend([StrObj(" "), StrObj(keyword)], [StrObj(" "), x]);
    ShowPair(StrObj(" "), StrObj(keyword));
    ShowPair(StrObj(" "), x);
    assert (" " + keyword) + (" " + text) == " " + keyword + " " + text;
  }

  lemma ReturnTokensParts(es: seq<Obj>, orderBy: Obj, skip: Obj, limit: Obj, distinct: bool)
    ensures ReturnTokens(es, orderBy, skip, limit, distinct)
            == [StrObj("RETURN"), StrObj(" DISTINCT ")] + ([StrObj(" ")] + ExprTokens(es, ", "))
               + PagingTokens(orderBy, skip, limit)
  {
    var base := StatementTokens("RETURN", es);
    assert base[..1] == [StrObj("RETURN")] && base[1..] == [StrObj(" ")] + ExprTokens(es, ", ");
    assert [StrObj("RETURN")] + [StrObj(" DISTINCT ")] == [StrObj("RETURN"), StrObj(" DISTINCT ")];
  }

  lemma ShowSpacedItems(es: seq<Obj>, texts: seq<string>)
    requires ShowsAs(es, texts)
    ensures ShowAll([StrObj(" ")] + ExprTokens(es, ", ")) == Ok(" " + Join(texts, ", "))
  {
    ShowText(", ");
    ShowInterleave(es, [StrObj(", ")], texts, ", ");
    ShowAllAppend([StrObj(" ")], ExprTokens(es, ", "));
    ShowText(" ");
  }

  /** `Return` renders `RETURN`, then ` DISTINCT ` whatever its flag says,
      then the space that followed the keyword, the items joined with `, `,
      and the paging tail. */
  lemma ReturnRender(es: seq<Obj>, texts: seq<string>, orderBy: Obj, orderText: string,
                     skip: Obj, skipText: string, limit: Obj, limitText: string, distinct: bool)
    requires ShowsAs(es, texts)
    requires PagingShows(orderBy, orderText, skip, skipText, limit, limitText)
    ensures Render(Return(es, orderBy, skip, limit, distinct))
            == Ok("RETURN" + " DISTINCT " + " " + Join(texts, ", ")
                  + PagingText(orderBy, orderText, skip, skipText, limit, limitText))
  {
    RenderByTokens(Return(es, orderBy, skip, limit, distinct));
    var spaced := [StrObj(" ")] + ExprTokens(es, ", ");
    var joined := Join(texts, ", ");
    ReturnTokensParts(es, orderBy, skip, limit, distinct);
    ShowSpacedItems(es, texts);
    ShowPair(StrObj("RETURN"), StrObj(" DISTINCT "));
    ShowPaging(orderBy, orderText, skip, skipText, limit, limitText);
    var paging := PagingText(orderBy, orderText, skip, skipText, limit, limitText);
    ShowAllAppend3([StrObj("RETURN"), StrObj(" DISTINCT ")], spaced, PagingTokens(orderBy, skip, limit),
                   "RETURN" + " DISTINCT ", " " + joined, paging);
    RegroupPair("RETURN" + " DISTINCT ", " ", joined, paging);
  }

  /** `With` renders like a statement with the paging tail and no DISTINCT. */
  lemma WithRender(es: seq<Obj>, texts: seq<string>, orderBy: Obj, orderText: string,
                   skip: Obj, skipText: string, limit: Obj, limitText: string)
    requires ShowsAs(es, texts)
    requires PagingShows(orderBy, orderText, skip, skipText, limit, limitText)
    ensures Render(With(es, orderBy, skip, limit))
            == Ok("WITH " + Join(texts, ", ")
                  + PagingText(orderBy, orderText, skip, skipText, limit, limitText))
  {
    RenderByTokens(With(es, orderBy, skip, limit));
    ShowStatement("WITH", es, texts);
    ShowPaging(orderBy, orderText, skip, skipText, limit, limitText);
    ShowAllAppend(StatementTokens("WITH", es), PagingTokens(orderBy, skip, limit));
    assert "WITH" + " " == "WITH ";
  }

  // ---------------------------------------------------------------------
  // Merge
  // ---------------------------------------------------------------------

  function SetClauseText(keyword: string, texts: seq<string>): string
  {
    if texts != [] then " " + keyword + " " + Join(texts, ", ") else ""
  }

  lemma ShowSetClause(keyword: string, items: seq<Obj>, texts: seq<string>)
    requires ShowsAs(items, texts)
    ensures ShowAll(SetClauseTokens(keyword, items)) == Ok(SetClauseText(keyword, texts))
  {
    if items != [] {
      var head := [StrObj(" "), StrObj(keyword), StrObj(" ")];
      ShowText(", ");
      ShowInterleave(items, [StrObj(", ")], texts, ", ");
      ShowAllAppend(head, Interleave(items, [StrObj(", ")]));
      assert head == [StrObj(" "), StrObj(keyword)] + [StrObj(" ")];
      ShowAllAppend([StrObj(" "), StrObj(keyword)], [StrObj(" ")]);
      ShowPair(StrObj(" "), StrObj(keyword));
      ShowText(" ");
    } else {
      ShowAllNil();
    }
  }

  /** `Merge` renders `MERGE` and its pattern, then each non-empty
      `ON CREATE SET` / `ON MATCH SET` list joined with `, `. */
  lemma MergeRender(e: Obj, eText: string, onCreate: seq<Obj>, createTexts: seq<string>,
                    onMatch: seq<Obj>, matchTexts: seq<string>)
    requires Show(e) == Ok(eText)
    requires ShowsAs(onCreate, createTexts) && ShowsAs(onMatch, matchTexts)
    ensures Render(Merge(e, onCreate, onMatch))
            == Ok("MERGE " + eText + SetClauseText("ON CREATE SET", createTexts)
                  + SetClauseText("ON MATCH SET", matchTexts))
  {
    RenderByTokens(Merge(e, onCreate, onMatch));
    var head := [StrObj("MERGE"), StrObj(" "), e];
    ShowSetClause("ON CREATE SET", onCreate, createTexts);
    ShowSetClause("ON MATCH SET", onMatch, matchTexts);
    ShowAllAppend(head + SetClauseTokens("ON CREATE SET", onCreate), SetClauseTokens("ON MATCH SET", onMatch));
    ShowAllAppend(head, SetClauseTokens("ON CREATE SET", onCreate));
    assert head == [StrObj("MERGE"), StrObj(" ")] + [e];
    ShowAllAppend([StrObj("MERGE"), StrObj(" ")], [e]);
    ShowPair(StrObj("MERGE"), StrObj(" "));
    ShowAllOne(e);
    assert "MERGE" + " " == "MERGE ";
  }

  // ---------------------------------------------------------------------
  // Predicate
  // ---------------------------------------------------------------------

  /** No expressions render nothing, one renders bare, and two or more are
      parenthesised and joined with ` OP `. */
  lemma PredicateRender(es: seq<Obj>, texts: seq<string>, operator: Obj, opText: string)
    requires ShowsAs(es, texts)
    requires |es| >= 2 ==> Show(operator) == Ok(opText)
    ensures |es| == 0 ==> Render(Predicate(es, operator)) == Ok("")
    ensures |es| == 1 ==> Render(Predicate(es, operator)) == Ok(texts[0])
    ensures |es| >= 2 ==> Render(Predicate(es, operator)) == Ok("(" + Join(texts, " " + opText + " ") + ")")
  {
    RenderByTokens(Predicate(es, operator));
    if |es| == 1 {
      ShowAllOne(es[0]);
    } else if |es| >= 2 {
      var d := [StrObj(" "), operator, StrObj(" ")];
      ShowAllOne(operator);
      ShowSurrounded(" ", [operator], " ", opText);
      assert [StrObj(" ")] + [operator] + [StrObj(" ")] == d;
      ShowInterleave(es, d, texts, " " + opText + " ");
      ShowSurrounded("(", Interleave(es, d), ")", Join(texts, " " + opText + " "));
    }
  }

  // ---------------------------------------------------------------------
  // Property, Properties
  // ---------------------------------------------------------------------

  /** `Property` renders the optional `owner.`, the key, and ` = value`
      unless the value is `None`. */
  lemma PropertyRender(key: string, value: Obj, identifier: string, vtext: string)
    requires !value.NoneObj? ==> Show(Cystr(value)) == Ok(vtext)
    ensures Render(Property(key, value, identifier))
            == Ok(IdentPrefixText(identifier, ".") + IdentifierText(key)
                  + (if value.NoneObj? then "" else " = " + vtext))
  {
    PropertyTokensShow(key, value, identifier, vtext);
    RenderByTokens(Property(key, value, identifier));
  }

  // The tokens of a `Property`, shown one after another.
  lemma PropertyTokensShow(key: string, value: Obj, identifier: string, vtext: string)
    requires !value.NoneObj? ==> Show(Cystr(value)) == Ok(vtext)
    ensures ShowAll(PropertyTokens(key, value, identifier))
            == Ok(IdentPrefixText(identifier, ".") + IdentifierText(key)
                  + (if value.NoneObj? then "" else " = " + vtext))
  {
    var pk := IdentPrefix(identifier, ".") + [TokenObj(Identifier(key))];
    var v := if !value.NoneObj? then [StrObj(" = "), Cystr(value)] else [];
    PropertyKeyShows(key, identifier);
    PropertyValueShows(value, vtext);
    ShowAllAppend(pk, v);
  }

  // The owner prefix and the key of a `Property`.
  lemma PropertyKeyShows(key: string, identifier: string)
    ensures ShowAll(IdentPrefix(identifier, ".") + [TokenObj(Identifier(key))])
            == Ok(IdentPrefixText(identifier, ".") + IdentifierText(key))
  {
    ShowIdentPrefix(identifier, ".");
    ShowAllAppend(IdentPrefix(identifier, "."), [TokenObj(Identifier(key))]);
    ShowAllOne(TokenObj(Identifier(key)));
    IdentifierRender(key);
  }

  // The ` = value` part of a `Property`, absent for `None`.
  lemma PropertyValueShows(value: Obj, vtext: string)
    requires !value.NoneObj? ==> Show(Cystr(value)) == Ok(vtext)
    ensures ShowAll(if !value.NoneObj? then [StrObj(" = "), Cystr(value)] else [])
            == Ok(if value.NoneObj? then "" else " = " + vtext)
  {
    if !value.NoneObj? {
      ShowPair(StrObj(" = "), Cystr(value));
    } else {
      ShowAllNil();
    }
  }

  /** `Properties` renders one `Property` per item, joined with `, `. */
  lemma PropertiesRender(ps: seq<PropEntry>, identifier: string, texts: seq<string>)
    requires |texts| == |ps|
    requires forall i :: 0 <= i < |ps| ==> Render(Property(ps[i].key, ps[i].value, identifier)) == Ok(texts[i])
    ensures Render(Properties(ps, identifier)) == Ok(Join(texts, ", "))
  {
    RenderByTokens(Properties(ps, identifier));
    var objs := PropertyObjs(ps, identifier);
    forall i | 0 <= i < |objs|
      ensures Show(objs[i]) == Ok(texts[i])
    {
      ShowToken(Property(ps[i].key, ps[i].value, identifier));
    }
    ShowText(", ");
    ShowInterleave(objs, [StrObj(", ")], texts, ", ");
  }
}
