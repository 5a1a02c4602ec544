/**
 * The text the relationship and path classes of cypher/syntax.py render
 * to, given the texts of their endpoints and props maps.
 */
module PatternRendering {
  import opened Utils
  import opened Literals
  import opened Syntax
  import opened Rendering
  import opened ClauseRendering
  import opened TokenShapes

  /** The text of a `Rel`'s bracket, given the text of its props map:
      nothing when no part is set, else `[`, the identifier, the type, the
      map after a space when something came first, and `]`. */
  function BracketText(r: RelSpec, mapText: string): string
  {
    if !HasBracket(r) then ""
    else
      var space := r.identifier != "" || TypeTruthy(r.relType);
      "["
      + (if r.identifier != "" then IdentifierText(r.identifier) else "")
      + (if TypeTruthy(r.relType) then TypeText(r.relType) else "")
      + (if r.props != [] then (if space then " " else "") + mapText else "")
      + "]"
  }

  lemma ShowBracket(r: RelSpec, mapText: string)
    requires r.props != [] ==> Render(Map(r.props, "")) == Ok(mapText)
    ensures ShowAll(BracketTokens(r)) == Ok(BracketText(r, mapText))
  {
    if !HasBracket(r) {
      ShowAllNil();
      return;
    }
    var space := r.identifier != "" || TypeTruthy(r.relType);
    var b := if r.identifier != "" then [TokenObj(Identifier(r.identifier))] else [];
    var c := if TypeTruthy(r.relType) then [StrObj(TypeText(r.relType))] else [];
    var d := if r.props != [] then (if space then [StrObj(" ")] else []) + [TokenObj(Map(r.props, ""))] else [];
    var bt := if r.identifier != "" then IdentifierText(r.identifier) else "";
    var ct := if TypeTruthy(r.relType) then TypeText(r.relType) else "";
    var dt := if r.props != [] then (if space then " " else "") + mapText else "";
    NodeIdentifierShows(r.identifier);
    if TypeTruthy(r.relType) {
      ShowText(TypeText(r.relType));
    } else {
      ShowAllNil();
    }
    NodePropsShow(r.props, space, mapText);
    ShowAllAppend3(b, c, d, bt, ct, dt);
    ShowSurrounded("[", b + c + d, "]", bt + ct + dt);
    assert BracketTokens(r) == [StrObj("[")] + b + c + d + [StrObj("]")];
    RegroupMiddle([StrObj("[")], b, c, d, [StrObj("]")]);
    RegroupMiddle("[", bt, ct, dt, "]");
  }

  /** What a `Rel` renders after its start: the left arrow, the bracket,
      the right arrow and the end. */
  function RelTailText(r: RelSpec, mapText: string, endText: string): string
  {
    LeftArrow(r.reverse) + BracketText(r, mapText) + RightArrow(r.reverse) + endText
  }

  lemma RelTokensParts(r: RelSpec)
    ensures RelTokens(r) == [r.start.obj] + RelTokens(r)[1..]
    ensures RelTokens(r)[1..]
            == [StrObj(LeftArrow(r.reverse))] + BracketTokens(r) + [StrObj(RightArrow(r.reverse)), r.end.obj]
  {
  }

  lemma RelTailShows(r: RelSpec, endText: string, mapText: string)
    requires Show(r.end.obj) == Ok(endText)
    requires r.props != [] ==> Render(Map(r.props, "")) == Ok(mapText)
    ensures ShowAll(RelTokens(r)[1..]) == Ok(RelTailText(r, mapText, endText))
  {
    ShowBracket(r, mapText);
    var left := [StrObj(LeftArrow(r.reverse))];
    var right := [StrObj(RightArrow(r.reverse)), r.end.obj];
    ShowText(LeftArrow(r.reverse));
    ShowPair(StrObj(RightArrow(r.reverse)), r.end.obj);
    ShowAllAppend3(left, BracketTokens(r), right,
                   LeftArrow(r.reverse), BracketText(r, mapText), RightArrow(r.reverse) + endText);
    assert LeftArrow(r.reverse) + BracketText(r, mapText) + (RightArrow(r.reverse) + endText)
           == RelTailText(r, mapText, endText);
    RelTokensParts(r);
  }

  /** `Rel` renders its start, `<-` or `-`, the bracket, `->` or `-`, and its
      end. The part after the start is what a path keeps of every rel but
      its first. */
  lemma RelRender(r: RelSpec, startText: string, endText: string, mapText: string)
    requires Show(r.start.obj) == Ok(startText) && Show(r.end.obj) == Ok(endText)
    requires r.props != [] ==> Render(Map(r.props, "")) == Ok(mapText)
    ensures ShowAll(RelTokens(r)[1..]) == Ok(RelTailText(r, mapText, endText))
    ensures Render(Rel(r)) == Ok(startText + RelTailText(r, mapText, endText))
  {
    RelTailShows(r, endText, mapText);
    RelTokensParts(r);
    ShowAllCons(r.start.obj, RelTokens(r)[1..]);
    RenderByTokens(Rel(r));
  }

  lemma DroppedConcat(rels: seq<RelSpec>)
    requires |rels| > 0
    ensures ShowAll(Dropped(rels)) == Concat(ShowAll(RelTokens(rels[0])[1..]), ShowAll(Dropped(rels[1..])))
  {
    var head := RelTokens(rels[0])[1..];
    assert Dropped(rels) == head + Dropped(rels[1..]);
    ShowAllAppend(head, Dropped(rels[1..]));
  }

  lemma {:induction false} ShowDropped(rels: seq<RelSpec>, tails: seq<string>)
    requires |tails| == |rels|
    requires forall i :: 0 <= i < |rels| ==> ShowAll(RelTokens(rels[i])[1..]) == Ok(tails[i])
    ensures ShowAll(Dropped(rels)) == Ok(Flatten(tails))
    decreases |rels|
  {
    if |rels| == 0 {
      ShowAllNil();
    } else {
      forall i | 0 <= i < |rels| - 1
        ensures ShowAll(RelTokens(rels[1..][i])[1..]) == Ok(tails[1..][i])
      {
        assert rels[1..][i] == rels[i + 1];
      }
      ShowDropped(rels[1..], tails[1..]);
      DroppedConcat(rels);
      assert ShowAll(RelTokens(rels[0])[1..]) == Ok(tails[0]);
      FlattenAppend([tails[0]], tails[1..]);
      assert [tails[0]] + tails[1..] == tails;
      assert [tails[0]][..0] == [];
      assert Flatten([tails[0]]) == [] + tails[0] == tails[0];
      assert Flatten(tails) == tails[0] + Flatten(tails[1..]);
    }
  }

  /** The rels after the first, each without its start, render as their
      tail texts one after the other. */
  lemma ShowLaterRels(rels: seq<RelSpec>, tails: seq<string>)
    requires |rels| > 0 && |tails| == |rels| - 1
    requires forall i :: 0 <= i < |tails| ==> ShowAll(RelTokens(rels[i + 1])[1..]) == Ok(tails[i])
    ensures ShowAll(Dropped(rels[1..])) == Ok(Flatten(tails))
  {
    forall i | 0 <= i < |rels| - 1
      ensures ShowAll(RelTokens(rels[1..][i])[1..]) == Ok(tails[i])
    {
      assert rels[1..][i] == rels[i + 1];
    }
    ShowDropped(rels[1..], tails);
  }

  lemma PathRenderFromParts(rels: seq<RelSpec>, identifier: string, first: string, restText: string)
    requires |rels| > 0 && Linked(rels) && InnerEndsPresent(rels)
    requires Render(Rel(rels[0])) == Ok(first)
    requires ShowAll(Dropped(rels[1..])) == Ok(restText)
    ensures Render(Path(rels, identifier)) == Ok(IdentPrefixText(identifier, "=") + first + restText)
  {
    var prefix := IdentPrefix(identifier, "=");
    var whole := RelTokens(rels[0]);
    var rest := Dropped(rels[1..]);
    RenderByTokens(Rel(rels[0]));
    assert ShowAll(whole) == Ok(first);
    ShowIdentPrefix(identifier, "=");
    ShowAllAppend3(prefix, whole, rest, IdentPrefixText(identifier, "="), first, restText);
    PathKeepsEachEndpointOnce(rels, identifier);
    RenderByTokens(Path(rels, identifier));
  }

  /** A linked path whose inner ends are not `None` renders as the optional
      `identifier=`, the whole text of its first rel, then the text of each
      later rel without its start: every shared endpoint is written once. */
  lemma PathRender(rels: seq<RelSpec>, identifier: string, first: string, tails: seq<string>)
    requires |rels| > 0 && Linked(rels) && InnerEndsPresent(rels)
    requires Render(Rel(rels[0])) == Ok(first)
    requires |tails| == |rels| - 1
    requires forall i :: 0 <= i < |tails| ==> ShowAll(RelTokens(rels[i + 1])[1..]) == Ok(tails[i])
    ensures Render(Path(rels, identifier)) == Ok(IdentPrefixText(identifier, "=") + first + Flatten(tails))
  {
    ShowLaterRels(rels, tails);
    PathRenderFromParts(rels, identifier, first, Flatten(tails));
  }

  /** A path that is not linked renders nothing: `str` raises `ValueError`. */
  lemma UnlinkedPathRender(rels: seq<RelSpec>, identifier: string)
    requires !Linked(rels)
    ensures Render(Path(rels, identifier)) == Err(ValueError)
  {
    PathOkIff(rels, identifier);
    RenderByTokens(Path(rels, identifier));
  }
}
