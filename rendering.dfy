/**
 * What `str()` of a node renders: facts about `Syntax.Render` that follow
 * from the token lists. `Show` is Python's `str()` of one item and
 * `ShowAll` is `''.join(str(x) for x in toks)`; the bound the definitions
 * in `Syntax` carry only measures termination and never changes the text.
 */
module Rendering {
  import opened Utils
  import opened Literals
  import opened Syntax

  /** `str(o)` for one item of a token list: `Syntax.Str` with a bound large
      enough to be irrelevant. `Show` and `ShowAll` are `Str` and `RenderAll`
      without the termination bound; `RenderByTokens` ties them to `Render`. */
  function Show(o: Obj): Result<string>
  {
    Str(o, ObjSize(o) + 1)
  }

  /** `''.join([str(x) for x in toks])`. */
  function ShowAll(toks: seq<Obj>): Result<string>
  {
    AllBelowObjs(toks, ObjsSize(toks) + 1);
    RenderAll(toks, ObjsSize(toks) + 1)
  }

  /** Joining two renderings; the first error wins. */
  function Concat(a: Result<string>, b: Result<string>): Result<string>
  {
    match a
    case Err(e) => Err(e)
    case Ok(x) =>
      match b
      case Err(e) => Err(e)
      case Ok(y) => Ok(x + y)
  }

  lemma ConcatAssoc(x: Result<string>, y: Result<string>, z: Result<string>)
    ensures Concat(x, Concat(y, z)) == Concat(Concat(x, y), z)
  {
    if x.Ok? && y.Ok? && z.Ok? {
      assert x.value + (y.value + z.value) == (x.value + y.value) + z.value;
    }
  }

  lemma ConcatEmpty(r: Result<string>)
    ensures Concat(Ok(""), r) == r && Concat(r, Ok("")) == r
  {
    if r.Ok? {
      assert "" + r.value == r.value && r.value + "" == r.value;
    }
  }

  /** The termination bound does not change what a list renders to. */
  lemma {:induction false} RenderAllBound(toks: seq<Obj>, b1: nat, b2: nat)
    requires AllBelow(toks, b1) && AllBelow(toks, b2)
    ensures RenderAll(toks, b1) == RenderAll(toks, b2)
    decreases |toks|
  {
    if |toks| > 0 {
      assert toks[0] in toks;
      assert forall x :: x in toks[1..] ==> x in toks;
      RenderAllBound(toks[1..], b1, b2);
    }
  }

  lemma ShowAllAnyBound(toks: seq<Obj>, bound: nat)
    requires AllBelow(toks, bound)
    ensures RenderAll(toks, bound) == ShowAll(toks)
  {
    AllBelowObjs(toks, ObjsSize(toks) + 1);
    RenderAllBound(toks, bound, ObjsSize(toks) + 1);
  }

  /** `str(t)` is the join of `str()` of the items `tokenize()` returns,
      or the exception `tokenize()` raised. */
  lemma RenderByTokens(t: Token)
    ensures Tokens(t).Err? ==> Render(t) == Err(Tokens(t).error)
    ensures Tokens(t).Ok? ==> Render(t) == ShowAll(Tokens(t).value)
  {
    if Tokens(t).Ok? {
      NestedTokensSmaller(t);
      ShowAllAnyBound(Tokens(t).value, Size(t));
    }
  }

  lemma ShowAnyBound(o: Obj, bound: nat)
    requires ObjSize(o) < bound
    ensures Str(o, bound) == Show(o)
  {
    match o {
      case TokenObj(t) =>
      case _ =>
    }
  }

  lemma ShowToken(t: Token)
    ensures Show(TokenObj(t)) == Render(t)
  {
  }

  lemma ShowAllNil()
    ensures ShowAll([]) == Ok("")
  {
  }

  lemma {:induction false} ShowAllCons(o: Obj, rest: seq<Obj>)
    ensures ShowAll([o] + rest) == Concat(Show(o), ShowAll(rest))
  {
    var toks := [o] + rest;
    var b := ObjsSize(toks) + 1;
    AllBelowObjs(toks, b);
    assert toks[0] == o && toks[1..] == rest;
    assert forall x :: x in rest ==> x in toks;
    assert o in toks;
    ShowAnyBound(o, b);
    ShowAllAnyBound(rest, b);
  }

  /** Rendering distributes over concatenation of token lists. */
  lemma {:induction false} ShowAllAppend(a: seq<Obj>, b: seq<Obj>)
    ensures ShowAll(a + b) == Concat(ShowAll(a), ShowAll(b))
    decreases |a|
  {
    if |a| == 0 {
      assert a + b == b;
      ShowAllNil();
      ConcatEmpty(ShowAll(b));
    } else {
      assert a + b == [a[0]] + (a[1..] + b);
      assert a == [a[0]] + a[1..];
      ShowAllCons(a[0], a[1..] + b);
      ShowAllAppend(a[1..], b);
      ShowAllCons(a[0], a[1..]);
      ConcatAssoc(Show(a[0]), ShowAll(a[1..]), ShowAll(b));
    }
  }

  lemma ShowAllOne(o: Obj)
    ensures ShowAll([o]) == Show(o)
  {
    ShowAllCons(o, []);
    assert [o] + [] == [o];
    ShowAllNil();
    ConcatEmpty(Show(o));
  }

  lemma ShowText(s: string)
    ensures ShowAll([StrObj(s)]) == Ok(s)
  {
    ShowAllOne(StrObj(s));
  }

  /** A list of tokens between two texts renders between those texts. */
  lemma ShowSurrounded(open: string, inner: seq<Obj>, close: string, innerText: string)
    requires ShowAll(inner) == Ok(innerText)
    ensures ShowAll([StrObj(open)] + inner + [StrObj(close)]) == Ok(open + innerText + close)
  {
    ShowAllAppend([StrObj(open)] + inner, [StrObj(close)]);
    ShowAllAppend([StrObj(open)], inner);
    ShowText(open);
    ShowText(close);
  }

  lemma ShowAllAppend3(a: seq<Obj>, b: seq<Obj>, c: seq<Obj>, at: string, bt: string, ct: string)
    requires ShowAll(a) == Ok(at) && ShowAll(b) == Ok(bt) && ShowAll(c) == Ok(ct)
    ensures ShowAll(a + b + c) == Ok(at + bt + ct)
  {
    ShowAllAppend(a + b, c);
    ShowAllAppend(a, b);
  }

  /** A list with an item whose `str()` raises raises too. */
  lemma {:induction false} ShowAllErr(toks: seq<Obj>, x: Obj)
    requires x in toks && Show(x).Err?
    ensures ShowAll(toks).Err?
    decreases |toks|
  {
    assert toks == [toks[0]] + toks[1..];
    ShowAllCons(toks[0], toks[1..]);
    if toks[0] != x {
      ShowAllErr(toks[1..], x);
    }
  }

  /** Interleaving items with a delimiter renders as the join of their
      texts with the delimiter's text. */
  lemma {:induction false} ShowInterleave(xs: seq<Obj>, d: seq<Obj>, texts: seq<string>, dt: string)
    requires |texts| == |xs|
    requires forall i :: 0 <= i < |xs| ==> Show(xs[i]) == Ok(texts[i])
    requires ShowAll(d) == Ok(dt)
    ensures ShowAll(Interleave(xs, d)) == Ok(Join(texts, dt))
    decreases |xs|
  {
    var n := |xs|;
    if n == 0 {
      ShowAllNil();
    } else if n == 1 {
      assert xs == [xs[0]] && texts == [texts[0]];
      ShowAllOne(xs[0]);
      JoinOne(texts[0], dt);
    } else {
      var init := xs[..n - 1];
      var inter := Interleave(init, d);
      ShowInterleave(init, d, texts[..n - 1], dt);
      assert Interleave(xs, d) == inter + d + [xs[n - 1]];
      ShowAllAppend(inter + d, [xs[n - 1]]);
      ShowAllAppend(inter, d);
      ShowAllOne(xs[n - 1]);
      JoinSnoc(texts, dt);
    }
  }

  /** The same for groups of tokens, flattened after interleaving. */
  lemma {:induction false} ShowGroups(parts: seq<seq<Obj>>, d: seq<Obj>, texts: seq<string>, dt: string)
    requires |texts| == |parts|
    requires forall i :: 0 <= i < |parts| ==> ShowAll(parts[i]) == Ok(texts[i])
    requires ShowAll(d) == Ok(dt)
    ensures ShowAll(Flatten(Interleave(parts, [d]))) == Ok(Join(texts, dt))
    decreases |parts|
  {
    var n := |parts|;
    if n == 0 {
      ShowAllNil();
    } else if n == 1 {
      assert parts == [parts[0]] && texts == [texts[0]];
      assert Flatten([parts[0]]) == Flatten([]) + parts[0];
      assert parts[0] == [] + parts[0];
      JoinOne(texts[0], dt);
    } else {
      var inter := Interleave(parts[..n - 1], [d]);
      ShowGroups(parts[..n - 1], d, texts[..n - 1], dt);
      assert Interleave(parts, [d]) == inter + [d] + [parts[n - 1]];
      FlattenAppend(inter + [d], [parts[n - 1]]);
      FlattenAppend(inter, [d]);
      assert Flatten([d]) == d by {
        assert [d][..0] == [];
      }
      assert Flatten([parts[n - 1]]) == parts[n - 1] by {
        assert [parts[n - 1]][..0] == [];
      }
      ShowAllAppend(Flatten(inter) + d, parts[n - 1]);
      ShowAllAppend(Flatten(inter), d);
      JoinSnoc(texts, dt);
    }
  }

  // ---------------------------------------------------------------------
  // Identifiers, prefixes and cystr
  // ---------------------------------------------------------------------

  /** `Identifier(name)` renders as the name, bare or in backticks. */
  lemma IdentifierRender(name: string)
    ensures Render(Identifier(name)) == Ok(IdentifierText(name))
    ensures Show(TokenObj(Identifier(name))) == Ok(IdentifierText(name))
  {
    RenderByTokens(Identifier(name));
    ShowText(IdentifierText(name));
  }

  /** The text of an optional `identifier<sep>` prefix. */
  function IdentPrefixText(identifier: string, sep: string): string
  {
    if identifier != "" then IdentifierText(identifier) + sep else ""
  }

  lemma ShowPair(a: Obj, b: Obj)
    ensures ShowAll([a, b]) == Concat(Show(a), Show(b))
  {
    assert [a, b] == [a] + [b];
    ShowAllAppend([a], [b]);
    ShowAllOne(a);
    ShowAllOne(b);
  }

  lemma ShowIdentPrefix(identifier: string, sep: string)
    ensures ShowAll(IdentPrefix(identifier, sep)) == Ok(IdentPrefixText(identifier, sep))
  {
    if identifier != "" {
      ShowPair(TokenObj(Identifier(identifier)), StrObj(sep));
      IdentifierRender(identifier);
    }
  }

  /** The text `str(cystr(o))` gives for an object that is not a token. */
  function ScalarText(o: Obj): string
    requires !o.TokenObj?
  {
    match o
    case NoneObj => "NULL"
    case BoolObj(_) => "true"
    case IntObj(i) => IntText(i)
    case StrObj(s) => Quote(s)
  }

  /** `None` renders as `NULL`, every bool as `true` (the `False` case
      included), an int in decimal and a text as its quoted literal, which
      reads back to the text. */
  lemma CystrRender(o: Obj)
    requires !o.TokenObj?
    ensures Show(Cystr(o)) == Ok(ScalarText(o))
    ensures o.StrObj? ==> Unquote(ScalarText(o)) == Some(o.s)
    ensures o == BoolObj(false) ==> ScalarText(o) == "true"
  {
  }

  // ---------------------------------------------------------------------
  // Map and Collection
  // ---------------------------------------------------------------------

  /** The `key: value` texts of a dict's items, given each value's text. */
  function EntryTexts(es: seq<Entry>, vtexts: seq<string>): seq<string>
    requires |vtexts| == |es|
  {
    seq(|es|, j requires 0 <= j < |es| => IdentifierText(es[j].key) + ": " + vtexts[j])
  }

  lemma ShowEntryGroup(e: Entry, vtext: string)
    requires Show(Convert(e.value)) == Ok(vtext)
    ensures ShowAll(EntryGroup(e)) == Ok(IdentifierText(e.key) + ": " + vtext)
  {
    var k := TokenObj(Identifier(e.key));
    assert EntryGroup(e) == [k] + [StrObj(": "), Convert(e.value)];
    ShowAllAppend([k], [StrObj(": "), Convert(e.value)]);
    ShowPair(StrObj(": "), Convert(e.value));
    ShowAllOne(k);
    IdentifierRender(e.key);
    var it := IdentifierText(e.key);
    assert it + (": " + vtext) == it + ": " + vtext;
  }

  /** `Map` renders its optional `ident = ` prefix, then `{`, the items as
      `key: value` in order separated by `, `, then `}`. */
  lemma MapRender(es: seq<Entry>, identifier: string, vtexts: seq<string>)
    requires |vtexts| == |es|
    requires forall j :: 0 <= j < |es| ==> Show(Convert(es[j].value)) == Ok(vtexts[j])
    ensures Render(Map(es, identifier))
            == Ok(IdentPrefixText(identifier, " = ") + "{" + Join(EntryTexts(es, vtexts), ", ") + "}")
  {
    RenderByTokens(Map(es, identifier));
    var groups := EntryGroups(es);
    var texts := EntryTexts(es, vtexts);
    forall j | 0 <= j < |groups|
      ensures ShowAll(groups[j]) == Ok(texts[j])
    {
      ShowEntryGroup(es[j], vtexts[j]);
    }
    ShowText(", ");
    ShowGroups(groups, [StrObj(", ")], texts, ", ");
    ShowIdentPrefix(identifier, " = ");
    var p := IdentPrefix(identifier, " = ");
    var body := Flatten(Interleave(groups, [[StrObj(", ")]]));
    ShowAllAppend(p + [StrObj("{")] + body, [StrObj("}")]);
    ShowAllAppend(p + [StrObj("{")], body);
    ShowAllAppend(p, [StrObj("{")]);
    ShowText("{");
    ShowText("}");
  }

  /** An empty map renders `{}`, after the prefix if there is one. */
  lemma MapEmptyRender(identifier: string)
    ensures Render(Map([], identifier)) == Ok(IdentPrefixText(identifier, " = ") + "{}")
  {
    MapRender([], identifier, []);
    assert EntryTexts([], []) == [];
    JoinNone(", ");
    var p := IdentPrefixText(identifier, " = ");
    assert p + "{" + "" + "}" == p + "{}";
  }

  /** A value is or contains, at any depth of nested dicts, a list. */
  predicate HoldsList(v: Value)
  {
    match v
    case Scalar(_) => false
    case List(_) => true
    case Dict(es) => exists j :: 0 <= j < |es| && HoldsList(es[j].value)
  }

  /** `Collection` never renders: it always raises `AttributeError`. */
  lemma CollectionRender(values: seq<Value>, identifier: string)
    ensures Render(Collection(values, identifier)) == Err(AttributeError)
  {
  }

  /** So a map holding a list, directly or in a nested dict, never renders
      either. */
  lemma {:induction false} MapHoldingListFails(es: seq<Entry>, identifier: string, j: nat)
    requires j < |es| && HoldsList(es[j].value)
    ensures Render(Map(es, identifier)).Err?
    decreases es
  {
    RenderByTokens(Map(es, identifier));
    var v := es[j].value;
    var x := Convert(v);
    assert Show(x).Err? by {
      match v {
        case List(vs) =>
          CollectionRender(vs, "");
        case Dict(inner) =>
          var k :| 0 <= k < |inner| && HoldsList(inner[k].value);
          MapHoldingListFails(inner, "", k);
      }
    }
    var groups := EntryGroups(es);
    var sep := [[StrObj(", ")]];
    var inter := Interleave(groups, sep);
    assert x in groups[j];
    InterleaveElements(groups, sep, groups[j]);
    var m :| 0 <= m < |inter| && inter[m] == groups[j];
    FlattenMember(inter, x);
    var toks := MapTokens(es, identifier);
    assert toks == IdentPrefix(identifier, " = ") + [StrObj("{")] + Flatten(inter) + [StrObj("}")];
    assert x in toks;
    ShowAllErr(toks, x);
  }
}
