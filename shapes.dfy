/**
 * The shape of the token lists of cypher/syntax.py: where the endpoints,
 * arrows and brackets of a relationship sit, when a path is accepted and
 * which tokens it keeps, how predicates and RETURN lay out their items,
 * and how the constructors normalise their arguments.
 */
module TokenShapes {
  import opened Utils
  import opened Literals
  import opened Syntax

  // ---------------------------------------------------------------------
  // Rel
  // ---------------------------------------------------------------------

  /** The first token is `start` and the last is `end`, both unchanged;
      `reverse is True` gives `<-` ... `-`, `reverse is False` gives
      `-` ... `->`, any other value `-` ... `-`; the `[...]` segment sits
      between the arrows and is there exactly when the identifier, the type
      or the props are truthy. */
  lemma RelShape(r: RelSpec)
    ensures var toks := RelTokens(r);
      && |toks| >= 4
      && toks[0] == r.start.obj && toks[|toks| - 1] == r.end.obj
      && (r.reverse == BoolObj(true) ==> toks[1] == StrObj("<-") && toks[|toks| - 2] == StrObj("-"))
      && (r.reverse == BoolObj(false) ==> toks[1] == StrObj("-") && toks[|toks| - 2] == StrObj("->"))
      && (!r.reverse.BoolObj? ==> toks[1] == StrObj("-") && toks[|toks| - 2] == StrObj("-"))
      && (|toks| > 4 <==> HasBracket(r))
      && (HasBracket(r) ==> toks[2] == StrObj("[") && toks[|toks| - 3] == StrObj("]"))
  {
    var toks := RelTokens(r);
    var b := BracketTokens(r);
    assert toks == [r.start.obj, StrObj(LeftArrow(r.reverse))] + b + [StrObj(RightArrow(r.reverse)), r.end.obj];
    if HasBracket(r) {
      assert |b| >= 2 && b[0] == StrObj("[") && b[|b| - 1] == StrObj("]");
      assert toks[2] == b[0];
      assert toks[|toks| - 3] == b[|b| - 1];
    }
  }

  /** Inside the brackets the props map is preceded by a space exactly when
      an identifier or a type came first. */
  lemma BracketPropsSpace(r: RelSpec)
    requires r.props != []
    ensures var b := BracketTokens(r);
      && |b| >= 3 && b[|b| - 2] == TokenObj(Map(r.props, ""))
      && (b[|b| - 3] == StrObj(" ") <==> r.identifier != "" || TypeTruthy(r.relType))
  {
  }

  /** A list of one type renders like that type given as a string, unless
      the string starts with `*` (a variable-length spec, kept verbatim). */
  lemma TypeListOfOne(name: string)
    requires name != ""
    ensures name[0] != '*' ==> TypeText(TypeList([name])) == TypeText(TypeName(name))
    ensures name[0] == '*' ==> TypeText(TypeName(name)) == name
    ensures TypeText(TypeList([name])) == ":" + name
  {
    JoinOne(name, "|");
  }

  // ---------------------------------------------------------------------
  // Path
  // ---------------------------------------------------------------------

  /** The rels chain up: wherever the previous rel's end is not `None`, the
      next rel starts at that very object. */
  predicate Linked(rels: seq<RelSpec>)
  {
    forall i :: 0 < i < |rels| && !rels[i - 1].end.obj.NoneObj? ==> rels[i].start.oid == rels[i - 1].end.oid
  }

  /** The same, also demanding that the first rel starts at `end` when
      `end` is live. */
  predicate LinkedFrom(rels: seq<RelSpec>, end: Option<Endpoint>)
  {
    (|rels| > 0 && Live(end) ==> rels[0].start.oid == end.value.oid) && Linked(rels)
  }

  lemma {:induction false} ChainOkIff(rels: seq<RelSpec>, end: Option<Endpoint>)
    ensures ChainTokens(rels, end).Ok? <==> LinkedFrom(rels, end)
    decreases |rels|
  {
    if |rels| > 0 {
      var rest := rels[1..];
      var next := Some(rels[0].end);
      ChainOkIff(rest, next);
      if LinkedFrom(rels, end) {
        forall i | 0 < i < |rest| && !rest[i - 1].end.obj.NoneObj?
          ensures rest[i].start.oid == rest[i - 1].end.oid
        {
          assert rest[i] == rels[i + 1] && rest[i - 1] == rels[i];
        }
        if |rest| > 0 && Live(next) {
          assert rest[0] == rels[1];
        }
      }
      if ChainTokens(rels, end).Ok? {
        assert LinkedFrom(rest, next);
        forall i | 0 < i < |rels| && !rels[i - 1].end.obj.NoneObj?
          ensures rels[i].start.oid == rels[i - 1].end.oid
        {
          if i > 1 {
            assert rels[i] == rest[i - 1] && rels[i - 1] == rest[i - 2];
          }
        }
      }
    }
  }

  /** A path renders exactly when its rels chain up by identity; otherwise
      it raises `ValueError`. */
  lemma PathOkIff(rels: seq<RelSpec>, identifier: string)
    ensures PathTokens(rels, identifier).Ok? <==> Linked(rels)
    ensures !Linked(rels) ==> PathTokens(rels, identifier) == Err(ValueError)
  {
    ChainOkIff(rels, None);
    ChainErrIsValueError(rels, None);
  }

  lemma {:induction false} ChainErrIsValueError(rels: seq<RelSpec>, end: Option<Endpoint>)
    ensures ChainTokens(rels, end).Err? ==> ChainTokens(rels, end).error == ValueError
    decreases |rels|
  {
    if |rels| > 0 {
      ChainErrIsValueError(rels[1..], Some(rels[0].end));
    }
  }

  /** Each rel's tokens without its first one (its start). */
  function Dropped(rels: seq<RelSpec>): seq<Obj>
    decreases |rels|
  {
    if |rels| == 0 then [] else RelTokens(rels[0])[1..] + Dropped(rels[1..])
  }

  /** Every rel but the last ends at an object that is not `None`. */
  predicate InnerEndsPresent(rels: seq<RelSpec>)
  {
    forall i :: 0 <= i < |rels| - 1 ==> !rels[i].end.obj.NoneObj?
  }

  lemma {:induction false} ChainDropsStarts(rels: seq<RelSpec>, end: Endpoint)
    requires !end.obj.NoneObj? && LinkedFrom(rels, Some(end)) && InnerEndsPresent(rels)
    ensures ChainTokens(rels, Some(end)) == Ok(Dropped(rels))
    decreases |rels|
  {
    if |rels| > 0 {
      var rest := rels[1..];
      if |rest| > 0 {
        assert !rels[0].end.obj.NoneObj?;
        assert rest[0] == rels[1];
        forall i | 0 < i < |rest| && !rest[i - 1].end.obj.NoneObj?
          ensures rest[i].start.oid == rest[i - 1].end.oid
        {
          assert rest[i] == rels[i + 1] && rest[i - 1] == rels[i];
        }
        forall i | 0 <= i < |rest| - 1
          ensures !rest[i].end.obj.NoneObj?
        {
          assert rest[i] == rels[i + 1];
        }
        ChainDropsStarts(rest, rels[0].end);
      } else {
        assert ChainTokens(rest, Some(rels[0].end)) == Ok([]);
      }
    }
  }

  /** When the rels chain up and every shared endpoint is a real object,
      the path is its first rel's tokens followed by every later rel's
      tokens without their start: each shared endpoint appears once. */
  lemma PathKeepsEachEndpointOnce(rels: seq<RelSpec>, identifier: string)
    requires |rels| > 0 && Linked(rels) && InnerEndsPresent(rels)
    ensures PathTokens(rels, identifier)
            == Ok(IdentPrefix(identifier, "=") + RelTokens(rels[0]) + Dropped(rels[1..]))
  {
    var rest := rels[1..];
    if |rest| > 0 {
      assert rest[0] == rels[1];
      forall i | 0 < i < |rest| && !rest[i - 1].end.obj.NoneObj?
        ensures rest[i].start.oid == rest[i - 1].end.oid
      {
        assert rest[i] == rels[i + 1] && rest[i - 1] == rels[i];
      }
      forall i | 0 <= i < |rest| - 1
        ensures !rest[i].end.obj.NoneObj?
      {
        assert rest[i] == rels[i + 1];
      }
      ChainDropsStarts(rest, rels[0].end);
    } else {
      assert ChainTokens(rest, Some(rels[0].end)) == Ok([]);
    }
    var r0 := RelTokens(rels[0]);
    assert ChainTokens(rels, None) == Ok(r0 + Dropped(rest));
    assert IdentPrefix(identifier, "=") + (r0 + Dropped(rest))
           == IdentPrefix(identifier, "=") + r0 + Dropped(rest);
  }

  /** Total number of tokens of the rels, taken one by one. */
  function RelTokenTotal(rels: seq<RelSpec>): nat
    decreases |rels|
  {
    if |rels| == 0 then 0 else |RelTokens(rels[0])| + RelTokenTotal(rels[1..])
  }

  lemma {:induction false} DroppedLength(rels: seq<RelSpec>)
    ensures |Dropped(rels)| + |rels| == RelTokenTotal(rels)
    decreases |rels|
  {
    if |rels| > 0 {
      DroppedLength(rels[1..]);
    }
  }

  /** So n chained rels give one token fewer per junction than they have
      between them. */
  lemma PathTokenCount(rels: seq<RelSpec>, identifier: string)
    requires |rels| > 0 && Linked(rels) && InnerEndsPresent(rels)
    ensures PathTokens(rels, identifier).Ok?
    ensures |PathTokens(rels, identifier).value|
            == |IdentPrefix(identifier, "=")| + RelTokenTotal(rels) - (|rels| - 1)
  {
    PathKeepsEachEndpointOnce(rels, identifier);
    DroppedLength(rels[1..]);
  }

  /** After a rel whose end is `None` nothing is checked or dropped: the
      next rel is emitted whole, whatever it starts at. */
  lemma NoneEndSkipsCheck(r1: RelSpec, r2: RelSpec, identifier: string)
    requires r1.end.obj.NoneObj?
    ensures PathTokens([r1, r2], identifier)
            == Ok(IdentPrefix(identifier, "=") + RelTokens(r1) + RelTokens(r2))
  {
    assert [r1, r2][0] == r1 && [r1, r2][1..] == [r2];
    assert [r2][0] == r2 && [r2][1..] == [];
    assert ChainTokens([r2], Some(r1.end)) == Ok(RelTokens(r2) + []);
    assert RelTokens(r2) + [] == RelTokens(r2);
    assert ChainTokens([r1, r2], None) == Ok(RelTokens(r1) + RelTokens(r2));
    var p := IdentPrefix(identifier, "=");
    assert p + (RelTokens(r1) + RelTokens(r2)) == p + RelTokens(r1) + RelTokens(r2);
  }

  /** A lone rel and a one-element list make the same path, which is the
      rel's tokens after the optional `ident=` prefix. */
  lemma SingleRelPath(r: RelSpec, identifier: string)
    ensures MakePath(One(r), identifier) == MakePath(Many([r]), identifier)
    ensures PathTokens([r], identifier) == Ok(IdentPrefix(identifier, "=") + RelTokens(r))
  {
    assert [r][0] == r && [r][1..] == [];
    assert ChainTokens([r], None) == Ok(RelTokens(r) + []);
    assert RelTokens(r) + [] == RelTokens(r);
  }

  // ---------------------------------------------------------------------
  // Expr, Predicate, Return
  // ---------------------------------------------------------------------

  /** `Expr.tokenize` is `delimit` with the class's separator. */
  lemma ExprIsDelimited(es: seq<Obj>, separator: string)
    ensures |ExprTokens(es, separator)| == if |es| == 0 then 0 else 2 * |es| - 1
    ensures Strip(ExprTokens(es, separator), 1) == es
  {
    InterleaveLength(es, [StrObj(separator)]);
    StripInterleave(es, [StrObj(separator)]);
  }

  /** A list between two markers: its length, its ends and its inside. */
  lemma Wrapped(open: Obj, xs: seq<Obj>, close: Obj)
    requires |xs| > 0
    ensures var w := [open] + xs + [close];
      && |w| == |xs| + 2 && w[0] == open && w[|w| - 1] == close
      && w[1] == xs[0] && w[|w| - 2] == xs[|xs| - 1] && w[1..|w| - 1] == xs
  {
  }

  /** Two or more expressions: the delimited expressions in parentheses. */
  lemma PredicateParenthesised(es: seq<Obj>, operator: Obj)
    requires |es| >= 2
    ensures var d := [StrObj(" "), operator, StrObj(" ")];
      PredicateTokens(es, operator) == [StrObj("(")] + Interleave(es, d) + [StrObj(")")]
      && |Interleave(es, d)| == |es| + 3 * (|es| - 1)
      && Interleave(es, d)[0] == es[0]
      && Interleave(es, d)[|Interleave(es, d)| - 1] == es[|es| - 1]
      && Strip(Interleave(es, d), 3) == es
  {
    var d := [StrObj(" "), operator, StrObj(" ")];
    InterleaveLength(es, d);
    InterleaveEnds(es, d);
    StripInterleave(es, d);
  }

  /** Two or more expressions are parenthesised and separated by exactly
      n - 1 runs of ` OP `; deleting those runs gives back the expressions. */
  lemma PredicateShape(es: seq<Obj>, operator: Obj)
    ensures |es| == 0 ==> PredicateTokens(es, operator) == []
    ensures |es| == 1 ==> PredicateTokens(es, operator) == es
    ensures |es| >= 2 ==>
      var toks := PredicateTokens(es, operator);
      && |toks| == 2 + |es| + 3 * (|es| - 1)
      && toks[0] == StrObj("(") && toks[|toks| - 1] == StrObj(")")
      && toks[1] == es[0] && toks[|toks| - 2] == es[|es| - 1]
      && Strip(toks[1..|toks| - 1], 3) == es
  {
    if |es| == 1 {
      assert es == [es[0]];
    }
    if |es| >= 2 {
      PredicateParenthesised(es, operator);
      Wrapped(StrObj("("), Interleave(es, [StrObj(" "), operator, StrObj(" ")]), StrObj(")"));
    }
  }

  /** `Return` tokens do not depend on its `distinct` flag; `" DISTINCT "`
      always sits at index 1, right after the keyword, and the rest is the
      statement's tokens and the paging tail. */
  lemma ReturnAlwaysDistinct(es: seq<Obj>, orderBy: Obj, skip: Obj, limit: Obj, distinct: bool)
    ensures ReturnTokens(es, orderBy, skip, limit, distinct) == ReturnTokens(es, orderBy, skip, limit, !distinct)
    ensures var toks := ReturnTokens(es, orderBy, skip, limit, distinct);
      && toks[0] == StrObj("RETURN") && toks[1] == StrObj(" DISTINCT ") && toks[2] == StrObj(" ")
      && toks[3..] == ExprTokens(es, ", ") + PagingTokens(orderBy, skip, limit)
  {
  }

  /** SKIP is emitted only for a truthy `skip` (never for 0) and LIMIT for
      every `limit` that is not `None` (0 included). */
  lemma PagingRule(orderBy: Obj, skip: Obj, limit: Obj)
    ensures |PagingTokens(orderBy, skip, limit)|
            == (if Truthy(orderBy) then 2 else 0) + (if Truthy(skip) then 4 else 0)
               + (if !limit.NoneObj? then 4 else 0)
    ensures PagingTokens(orderBy, NoneObj, IntObj(0)) == PagingTokens(orderBy, IntObj(0), IntObj(0))
    ensures PagingTokens(NoneObj, IntObj(0), IntObj(0)) == [StrObj(" "), StrObj("LIMIT"), StrObj(" "), IntObj(0)]
  {
  }

  // ---------------------------------------------------------------------
  // Constructors
  // ---------------------------------------------------------------------

  /** Every constructor that accepts "one or a list" treats a lone item as
      the one-element list holding it. */
  lemma LoneItemIsList(x: Obj, k: Keyword, op: Obj, ob: Obj, sk: Obj, li: Obj, d: bool)
    ensures MakeExpr(One(x)) == MakeExpr(Many([x]))
    ensures MakePredicate(One(x), op) == MakePredicate(Many([x]), op)
    ensures MakeStatement(k, One(x)) == MakeStatement(k, Many([x]))
    ensures MakeReturn(One(x), ob, sk, li, d) == MakeReturn(Many([x]), ob, sk, li, d)
    ensures MakeWith(One(x), ob, sk, li) == MakeWith(Many([x]), ob, sk, li)
    ensures MakeQuery(One(x)) == MakeQuery(Many([x]))
  {
  }

  /** `Merge` wraps a truthy lone `oncreate`/`onmatch` in a list; a falsy
      one renders like no clause at all. */
  lemma MergeLoneItems(e: Obj, x: Obj, y: Obj)
    ensures Truthy(x) && Truthy(y) ==> MakeMerge(e, One(x), One(y)) == MakeMerge(e, Many([x]), Many([y]))
    ensures !Truthy(x) ==> Tokens(MakeMerge(e, One(x), Many([]))) == Ok([StrObj("MERGE"), StrObj(" "), e])
  {
    var head := [StrObj("MERGE"), StrObj(" "), e];
    assert head + [] + [] == head;
  }

  /** A `Rel` given only its endpoints has no bracket and, by `reverse=False`,
      points forward: `start`, `-`, `->`, `end`. */
  lemma PlainRelIsForward(start: Endpoint, end: Endpoint)
    ensures !HasBracket(RelSpec(start, end))
    ensures RelTokens(RelSpec(start, end)) == [start.obj, StrObj("-"), StrObj("->"), end.obj]
  {
  }

  /** Without an operator, a `Predicate` of two or more items joins them
      with ` AND `. */
  lemma DefaultOperatorIsAnd(es: seq<Obj>)
    requires |es| >= 2
    ensures Tokens(MakePredicate(Many(es)))
            == Ok([StrObj("(")] + Interleave(es, [StrObj(" "), StrObj("AND"), StrObj(" ")]) + [StrObj(")")])
  {
    assert MakePredicate(Many(es)) == Predicate(es, StrObj("AND"));
  }

  /** Without `order_by`, `skip` and `limit`, `Return` and `With` have no
      paging tail, and the default `distinct=False` gives the same tokens
      as `distinct=True`. */
  lemma DefaultPagingIsEmpty(es: seq<Obj>)
    ensures Tokens(MakeReturn(Many(es)))
            == Ok(StatementTokens("RETURN", es)[..1] + [StrObj(" DISTINCT ")] + StatementTokens("RETURN", es)[1..])
    ensures Tokens(MakeReturn(Many(es))) == Tokens(MakeReturn(Many(es), distinct := true))
    ensures Tokens(MakeWith(Many(es))) == Ok(StatementTokens("WITH", es))
  {
    var base := StatementTokens("RETURN", es);
    assert PagingTokens(NoneObj, NoneObj, NoneObj) == [];
    assert MakeReturn(Many(es)) == Return(es, NoneObj, NoneObj, NoneObj, false);
    assert base[..1] + [StrObj(" DISTINCT ")] + base[1..] + [] == base[..1] + [StrObj(" DISTINCT ")] + base[1..];
    assert MakeWith(Many(es)) == With(es, NoneObj, NoneObj, NoneObj);
    assert StatementTokens("WITH", es) + [] == StatementTokens("WITH", es);
  }

  /** `Merge(expr)` has no set clause. */
  lemma DefaultMergeHasNoClause(e: Obj)
    ensures Tokens(MakeMerge(e)) == Ok([StrObj("MERGE"), StrObj(" "), e])
  {
    var head := [StrObj("MERGE"), StrObj(" "), e];
    assert MakeMerge(e) == Merge(e, [], []);
    assert head + [] + [] == head;
  }

  /** `Property(key)` has no owner prefix and no assignment. */
  lemma DefaultPropertyIsKey(key: string)
    ensures Tokens(Property(key)) == Ok([TokenObj(Identifier(key))])
  {
    assert [] + [TokenObj(Identifier(key))] + [] == [TokenObj(Identifier(key))];
  }

  /** `Node()` has nothing between its parentheses. */
  lemma DefaultNodeIsEmpty()
    ensures Tokens(Node()) == Ok([StrObj("("), StrObj(")")])
  {
    assert [StrObj("(")] + [] + [] + [] + [StrObj(")")] == [StrObj("("), StrObj(")")];
  }

  /** `Path(rel)` has no `identifier=` prefix: it is that rel's tokens. */
  lemma DefaultPathIsItsRel(r: RelSpec)
    ensures Tokens(MakePath(One(r))) == Ok(RelTokens(r))
  {
    SingleRelPath(r, "");
    assert [] + RelTokens(r) == RelTokens(r);
  }
}
