/**
 * Concrete renderings of small trees, each proved from the general lemmas,
 * with the exact text the code produces for them.
 * `Spelled` holds the text facts about the literals involved, kept apart
 * so that they are checked without the rendering definitions in scope.
 */
module Spelled {
  import opened Utils
  import opened Literals

  lemma JoinTwo(a: string, b: string, sep: string)
    ensures Join([a, b], sep) == a + sep + b
  {
    JoinSnoc([a, b], sep);
    assert [a, b][..1] == [a];
    JoinOne(a, sep);
  }

  lemma BobQuoted()
    ensures Quote("Bob") == "'Bob'" && IntText(30) == "30"
  {
    assert Escape("Bob", '\'') == "Bob";
  }

  lemma BobKeys()
    ensures IdentifierText("name") == "name" && IdentifierText("age") == "age"
  {
    assert MatchedPart("name") == "name";
    assert MatchedPart("age") == "age";
  }

  // Only joins string literals; it spells the step out for the solver.
  lemma BobItems()
    ensures "name" + ": " + "'Bob'" == "name: 'Bob'"
    ensures "age" + ": " + "30" == "age: 30"
  {
  }

  lemma BobJoined()
    ensures Join(["name" + ": " + "'Bob'", "age" + ": " + "30"], ", ") == "name: 'Bob', age: 30"
  {
    BobItems();
    JoinTwo("name: 'Bob'", "age: 30", ", ");
  }

  // Only joins string literals; it spells the step out for the solver.
  lemma BobBraced()
    ensures "" + "{" + "name: 'Bob', age: 30" + "}" == "{name: 'Bob', age: 30}"
  {
  }

  lemma OrTexts()
    ensures " " + "OR" + " " == " OR "
    ensures "(" + Join(["p1", "p2"], " OR ") + ")" == "(p1 OR p2)"
  {
    JoinTwo("p1", "p2", " OR ");
  }

  // Only joins string literals; it spells the step out for the solver.
  lemma PlainRelText()
    ensures "()" + ("-" + "" + "->" + "()") == "()-->()"
  {
  }

  // Only joins string literals; it spells the step out for the solver.
  lemma AndTexts()
    ensures " " + "AND" + " " == " AND "
    ensures "(" + Join(["a", "b"], " AND ") + ")" == "(a AND b)"
  {
    JoinTwo("a", "b", " AND ");
  }

  lemma DigitTexts()
    ensures IdentifierText("a1") == "`a1`"
    ensures IdentifierText("a0") == "a0"
  {
    DigitForcesQuotes("a1", 1);
    assert MatchedPart("a0") == "a0";
  }

  lemma NodeNTexts()
    ensures MatchesIdentifierPattern("n") && IdentifierText("n") == "n"
    ensures "(" + "n" + ")" == "(n)"
    ensures Join(["(n)"], ", ") == "(n)" && Join(["n"], ", ") == "n"
  {
    assert MatchedPart("n") == "n";
    JoinOne("(n)", ", ");
    JoinOne("n", ", ");
  }

  // Only joins string literals; it spells the step out for the solver.
  lemma ReturnTexts()
    ensures "RETURN" + " DISTINCT " + " " + "(n)" + "" == "RETURN DISTINCT  (n)"
    ensures "RETURN" + " DISTINCT " + " " + "n" + (" LIMIT " + "0") == "RETURN DISTINCT  n LIMIT 0"
    ensures "RETURN" + " DISTINCT " + " " + "n" + (" LIMIT " + "10") == "RETURN DISTINCT  n LIMIT 10"
    ensures IntText(0) == "0" && IntText(10) == "10"
  {
  }

  // Only joins string literals; it spells the step out for the solver.
  lemma MatchText()
    ensures "MATCH" + " " + "(n)" == "MATCH (n)"
  {
  }

  lemma QueryText()
    ensures Join(["MATCH (n)", "RETURN DISTINCT  n LIMIT 10"], " ") == "MATCH (n) RETURN DISTINCT  n LIMIT 10"
  {
    JoinTwo("MATCH (n)", "RETURN DISTINCT  n LIMIT 10", " ");
  }

  /** The node names of the path example are bare; its rel names are not. */
  lemma PathNames()
    ensures MatchesIdentifierPattern("A") && MatchesIdentifierPattern("B") && MatchesIdentifierPattern("C")
    ensures IdentifierText("r1") == "`r1`" && IdentifierText("r2") == "`r2`"
  {
    assert MatchedPart("A") == "A" && MatchedPart("B") == "B" && MatchedPart("C") == "C";
    DigitForcesQuotes("r1", 1);
    DigitForcesQuotes("r2", 1);
  }

  // Only joins string literals; it spells the step out for the solver.
  lemma PathPieces()
    ensures "(" + "A" + ")" == "(A)" && "(" + "B" + ")" == "(B)" && "(" + "C" + ")" == "(C)"
    ensures "[" + "`r1`" + "]" == "[`r1`]" && "[" + "`r2`" + "]" == "[`r2`]"
  {
  }

  // Only joins string literals; it spells the step out for the solver.
  lemma PathTexts()
    ensures "-" + "[`r1`]" + "->" + "(B)" == "-[`r1`]->(B)"
    ensures "-" + "[`r2`]" + "->" + "(C)" == "-[`r2`]->(C)"
    ensures "" + ("(A)" + "-[`r1`]->(B)") + "-[`r2`]->(C)" == "(A)-[`r1`]->(B)-[`r2`]->(C)"
  {
  }
}

module Scenarios {
  import opened Utils
  import opened Literals
  import opened Syntax
  import opened Rendering
  import opened ClauseRendering
  import opened PatternRendering
  import opened TokenShapes
  import Spelled

  lemma TwoScalarsShow(es: seq<Entry>, o1: Obj, o2: Obj)
    requires !o1.TokenObj? && !o2.TokenObj?
    requires |es| == 2 && es[0].value == Scalar(o1) && es[1].value == Scalar(o2)
    ensures forall j :: 0 <= j < |es| ==> Show(Convert(es[j].value)) == Ok([ScalarText(o1), ScalarText(o2)][j])
  {
    CystrRender(o1);
    CystrRender(o2);
  }

  lemma TwoEntryTexts(k1: string, o1: Obj, k2: string, o2: Obj)
    requires !o1.TokenObj? && !o2.TokenObj?
    ensures EntryTexts([Entry(k1, Scalar(o1)), Entry(k2, Scalar(o2))], [ScalarText(o1), ScalarText(o2)])
            == [IdentifierText(k1) + ": " + ScalarText(o1), IdentifierText(k2) + ": " + ScalarText(o2)]
  {
  }

  /** A two-item dict of scalars renders both items, in order. */
  lemma TwoScalarMapRender(k1: string, o1: Obj, k2: string, o2: Obj)
    requires !o1.TokenObj? && !o2.TokenObj?
    ensures Render(Map([Entry(k1, Scalar(o1)), Entry(k2, Scalar(o2))], ""))
            == Ok("" + "{" + Join([IdentifierText(k1) + ": " + ScalarText(o1),
                                   IdentifierText(k2) + ": " + ScalarText(o2)], ", ") + "}")
  {
    var es := [Entry(k1, Scalar(o1)), Entry(k2, Scalar(o2))];
    TwoScalarsShow(es, o1, o2);
    MapRender(es, "", [ScalarText(o1), ScalarText(o2)]);
    TwoEntryTexts(k1, o1, k2, o2);
  }

  /** `Map({"name": "Bob", "age": 30})` renders `{name: 'Bob', age: 30}`. */
  lemma BobMapRender()
    ensures Render(Map([Entry("name", Scalar(StrObj("Bob"))), Entry("age", Scalar(IntObj(30)))], ""))
            == Ok("{name: 'Bob', age: 30}")
  {
    TwoScalarMapRender("name", StrObj("Bob"), "age", IntObj(30));
    Spelled.BobQuoted();
    Spelled.BobKeys();
    Spelled.BobJoined();
    Spelled.BobBraced();
  }

  /** Two predicates joined with `OR` render `(p1 OR p2)`; one renders bare. */
  lemma OrPredicateRender()
    ensures Render(Predicate([StrObj("p1"), StrObj("p2")], StrObj("OR"))) == Ok("(p1 OR p2)")
    ensures Render(Predicate([StrObj("p1")], StrObj("OR"))) == Ok("p1")
  {
    Spelled.OrTexts();
    PredicateRender([StrObj("p1"), StrObj("p2")], ["p1", "p2"], StrObj("OR"), "OR");
    PredicateRender([StrObj("p1")], ["p1"], StrObj("OR"), "OR");
  }

  /** Without an operator, `Predicate(['a', 'b'])` joins with `AND`. */
  lemma DefaultPredicateRender()
    ensures Render(MakePredicate(Many([StrObj("a"), StrObj("b")]))) == Ok("(a AND b)")
  {
    Spelled.AndTexts();
    PredicateRender([StrObj("a"), StrObj("b")], ["a", "b"], StrObj("AND"), "AND");
  }

  /** `Rel(a, b)` between two empty nodes renders as `()-->()`. */
  lemma PlainRelRender()
    ensures Render(Rel(RelSpec(Endpoint(1, TokenObj(Node())), Endpoint(2, TokenObj(Node())))))
            == Ok("()-->()")
  {
    var r := RelSpec(Endpoint(1, TokenObj(Node())), Endpoint(2, TokenObj(Node())));
    EmptyNodeRender();
    ShowToken(Node());
    RelRender(r, "()", "()", "");
    assert BracketText(r, "") == "";
    Spelled.PlainRelText();
  }

  /** A name holding a digit other than 0 is backticked; `0` is the one
      digit the pattern lets through. */
  lemma DigitNamesRender()
    ensures Render(Identifier("a1")) == Ok("`a1`")
    ensures Render(Identifier("a0")) == Ok("a0")
  {
    Spelled.DigitTexts();
    IdentifierRender("a1");
    IdentifierRender("a0");
  }

  function NamedNode(name: string): Token
  {
    Node([], name, [])
  }

  lemma NodeNRender()
    ensures Show(TokenObj(NamedNode("n"))) == Ok("(n)")
  {
    Spelled.NodeNTexts();
    NodeRender([], "n", [], "");
    assert "(" + "n" + "" + "" + ")" == "(" + "n" + ")";
  }

  /** RETURN of a node `n` renders the whole node pattern, after DISTINCT and
      a doubled space, with the `distinct` flag off as well as on. */
  lemma ReturnNodeRender(distinct: bool)
    ensures Render(Return([TokenObj(NamedNode("n"))], NoneObj, NoneObj, NoneObj, distinct))
            == Ok("RETURN DISTINCT  (n)")
  {
    NodeNRender();
    Spelled.NodeNTexts();
    Spelled.ReturnTexts();
    ReturnRender([TokenObj(NamedNode("n"))], ["(n)"], NoneObj, "", NoneObj, "", NoneObj, "", distinct);
  }

  /** SKIP 0 is dropped while LIMIT 0 is kept. */
  lemma ZeroPagingRender()
    ensures Render(Return([StrObj("n")], NoneObj, IntObj(0), IntObj(0), false))
            == Ok("RETURN DISTINCT  n LIMIT 0")
  {
    Spelled.NodeNTexts();
    Spelled.ReturnTexts();
    ReturnRender([StrObj("n")], ["n"], NoneObj, "", IntObj(0), "0", IntObj(0), "0", false);
    assert PagingText(NoneObj, "", IntObj(0), "0", IntObj(0), "0") == " LIMIT " + "0";
  }

  lemma MatchNodeRender()
    ensures Render(Statement(Match, [TokenObj(NamedNode("n"))])) == Ok("MATCH (n)")
  {
    NodeNRender();
    Spelled.NodeNTexts();
    Spelled.MatchText();
    StatementRender(Match, [TokenObj(NamedNode("n"))], ["(n)"]);
  }

  lemma ReturnLimitRender()
    ensures Render(Return([StrObj("n")], NoneObj, NoneObj, IntObj(10), true))
            == Ok("RETURN DISTINCT  n LIMIT 10")
  {
    Spelled.NodeNTexts();
    Spelled.ReturnTexts();
    ReturnRender([StrObj("n")], ["n"], NoneObj, "", NoneObj, "", IntObj(10), "10", true);
    assert PagingText(NoneObj, "", NoneObj, "", IntObj(10), "10") == " LIMIT " + "10";
  }

  /** A whole query: the clauses joined with single spaces. */
  lemma MatchReturnQueryRender()
    ensures Render(Query([TokenObj(Statement(Match, [TokenObj(NamedNode("n"))])),
                          TokenObj(Return([StrObj("n")], NoneObj, NoneObj, IntObj(10), true))]))
            == Ok("MATCH (n) RETURN DISTINCT  n LIMIT 10")
  {
    var m := Statement(Match, [TokenObj(NamedNode("n"))]);
    var r := Return([StrObj("n")], NoneObj, NoneObj, IntObj(10), true);
    MatchNodeRender();
    ReturnLimitRender();
    ShowToken(m);
    ShowToken(r);
    Spelled.QueryText();
    ExprRender([TokenObj(m), TokenObj(r)], ["MATCH (n)", "RETURN DISTINCT  n LIMIT 10"]);
  }

  function Arrow(from: nat, fromName: string, to: nat, toName: string, name: string): RelSpec
  {
    RelSpec(Endpoint(from, TokenObj(NamedNode(fromName))), Endpoint(to, TokenObj(NamedNode(toName))),
            NoType, name, [], BoolObj(false))
  }

  /** `A-[r1]->B` followed by `B-[r2]->C` keeps `B` once; followed by
      `C-[r2]->D` instead, the path raises `ValueError`. */
  lemma PathExamples()
    ensures PathTokens([Arrow(1, "A", 2, "B", "r1"), Arrow(2, "B", 3, "C", "r2")], "")
            == Ok(RelTokens(Arrow(1, "A", 2, "B", "r1")) + RelTokens(Arrow(2, "B", 3, "C", "r2"))[1..])
    ensures PathTokens([Arrow(1, "A", 2, "B", "r1"), Arrow(3, "C", 4, "D", "r2")], "") == Err(ValueError)
  {
    var ab := Arrow(1, "A", 2, "B", "r1");
    var bc := Arrow(2, "B", 3, "C", "r2");
    var cd := Arrow(3, "C", 4, "D", "r2");
    assert Linked([ab, bc]);
    assert InnerEndsPresent([ab, bc]);
    PathKeepsEachEndpointOnce([ab, bc], "");
    assert [ab, bc][1..] == [bc];
    assert [bc][1..] == [];
    assert Dropped([bc]) == RelTokens(bc)[1..] + Dropped([]);
    assert RelTokens(bc)[1..] + [] == RelTokens(bc)[1..];
    assert IdentPrefix("", "=") == [];
    assert [] + RelTokens(ab) == RelTokens(ab);
    assert !Linked([ab, cd]) by {
      assert [ab, cd][1].start.oid != [ab, cd][0].end.oid;
    }
    PathOkIff([ab, cd], "");
  }

  /** A node whose name the identifier pattern accepts renders as `(name)`. */
  lemma NamedNodeShows(name: string)
    requires MatchesIdentifierPattern(name)
    ensures Show(TokenObj(NamedNode(name))) == Ok("(" + name + ")")
  {
    NodeRender([], name, [], "");
    assert "(" + name + "" + "" + ")" == "(" + name + ")";
  }

  /** An arrow between two named nodes renders as `(from)-[name]->(to)`,
      the name back-ticked when the pattern rejects it. */
  lemma ArrowRender(from: nat, fromName: string, to: nat, toName: string, name: string)
    requires MatchesIdentifierPattern(fromName) && MatchesIdentifierPattern(toName) && name != ""
    ensures ShowAll(RelTokens(Arrow(from, fromName, to, toName, name))[1..])
            == Ok("-" + ("[" + IdentifierText(name) + "]") + "->" + ("(" + toName + ")"))
    ensures Render(Rel(Arrow(from, fromName, to, toName, name)))
            == Ok("(" + fromName + ")" + ("-" + ("[" + IdentifierText(name) + "]") + "->" + ("(" + toName + ")")))
  {
    var r := Arrow(from, fromName, to, toName, name);
    NamedNodeShows(fromName);
    NamedNodeShows(toName);
    assert BracketText(r, "") == "[" + IdentifierText(name) + "]" by {
      assert "[" + IdentifierText(name) + "" + "" + "]" == "[" + IdentifierText(name) + "]";
    }
    RelRender(r, "(" + fromName + ")", "(" + toName + ")", "");
  }

  /** The first two arrows of the path example share `B` by identity; the
      third starts at another object. */
  lemma ArrowsLinked()
    ensures Linked([Arrow(1, "A", 2, "B", "r1"), Arrow(2, "B", 3, "C", "r2")])
    ensures InnerEndsPresent([Arrow(1, "A", 2, "B", "r1"), Arrow(2, "B", 3, "C", "r2")])
    ensures !Linked([Arrow(1, "A", 2, "B", "r1"), Arrow(3, "C", 4, "D", "r2")])
  {
    var ab := Arrow(1, "A", 2, "B", "r1");
    var cd := Arrow(3, "C", 4, "D", "r2");
    assert [ab, cd][1].start.oid != [ab, cd][0].end.oid;
  }

  /** `A-[r1]->B` followed by `B-[r2]->C` renders with `(B)` written once
      and both rel names back-ticked, since the identifier pattern admits
      no digit but `0`; followed by `C-[r2]->D` instead, `str` raises. */
  lemma PathTextExample()
    ensures Render(Path([Arrow(1, "A", 2, "B", "r1"), Arrow(2, "B", 3, "C", "r2")], ""))
            == Ok("(A)-[`r1`]->(B)-[`r2`]->(C)")
    ensures Render(Path([Arrow(1, "A", 2, "B", "r1"), Arrow(3, "C", 4, "D", "r2")], "")) == Err(ValueError)
  {
    var ab := Arrow(1, "A", 2, "B", "r1");
    var bc := Arrow(2, "B", 3, "C", "r2");
    var first := "(A)" + "-[`r1`]->(B)";
    var tails := ["-[`r2`]->(C)"];
    Spelled.PathNames();
    Spelled.PathPieces();
    Spelled.PathTexts();
    ArrowRender(1, "A", 2, "B", "r1");
    ArrowRender(2, "B", 3, "C", "r2");
    assert Render(Rel(ab)) == Ok(first);
    assert ShowAll(RelTokens(bc)[1..]) == Ok(tails[0]);
    ArrowsLinked();
    assert forall i :: 0 <= i < |tails| ==> ShowAll(RelTokens([ab, bc][i + 1])[1..]) == Ok(tails[i]) by {
      assert [ab, bc][1] == bc;
    }
    PathRender([ab, bc], "", first, tails);
    assert IdentPrefixText("", "=") == "";
    assert Flatten(tails) == "-[`r2`]->(C)" by {
      assert tails[..0] == [];
      assert Flatten(tails) == [] + tails[0];
    }
    assert IdentPrefixText("", "=") + first + Flatten(tails)
           == "" + ("(A)" + "-[`r1`]->(B)") + "-[`r2`]->(C)";
    UnlinkedPathRender([ab, Arrow(3, "C", 4, "D", "r2")], "");
  }
}
