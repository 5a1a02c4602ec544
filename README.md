# cypher token trees in Dafny

This project models the core of `cypher`, a small Python library. The library
builds Cypher query text from a tree of token objects. Every node of the tree
(`Identifier`, `Map`, `Collection`, `Node`, `Rel`, `Path`, `Expr`, `Property`,
`Properties`, `Predicate`, the keyword statements, `Return`, `With`, `Merge`,
`Query`) has a `tokenize` method. It returns a flat list of strings, scalars
and child tokens. `str(token)` joins the `str` of each list item, recursing
into child tokens. Scalars held in maps and properties pass through `cystr`,
which turns `None` into `NULL` and quotes strings the way Python's `repr`
does.

The model has these files:

- `utils.dfy` (module `Utils`) models `delimit`, the interleaving of values
  with a delimiter. Every clause of the library uses the same shape, so this
  module also holds the `Interleave` function and its laws: length, ends,
  membership, splitting, and stripping the delimiters back out.
- `literals.dfy` (module `Literals`) models the text of literals:
  - Python `repr` quoting of strings, with the quote character chosen as
    `repr` chooses it;
  - the identifier pattern that decides whether a name needs back-ticks;
  - decimal text of integers.
- `syntax.dfy` (module `Syntax`) models the tree and its semantics:
  - one `Token` datatype with a variant per class of `cypher/syntax.py`;
  - the objects that can sit in a token list (`Obj`: `None`, booleans,
    integers, strings, nested tokens);
  - `cystr`;
  - one specification function per `tokenize` (`MapTokens`, `RelTokens`,
    `PathTokens`, ...), with `Tokens` dispatching on the variant;
  - `Render`, the value of `str(token)`, and a size measure under which
    every nested token is smaller than its parent, which gives the recursion
    of `str` its termination argument.
- `tokenize.dfy` (module `Tokenizers`) holds the `tokenize` methods as the
  library writes them: loops that append to a list. Each is proved to build
  exactly the list its specification function describes.
- `rendering.dfy` (module `Rendering`), `clauses.dfy` (module
  `ClauseRendering`) and `patterns.dfy` (module `PatternRendering`, for
  relationships and paths) compute the rendered text of each kind of token
  from the rendered text of its parts.
- `shapes.dfy` (module `TokenShapes`) holds structural facts about the token
  lists:
  - the arrows and brackets of a relationship;
  - when a path is accepted;
  - the parenthesised predicate;
  - the `Return` paging tail;
  - the wrapping of a lone argument into a list.
- `token.dfy` (module `TextTokens`) models the separate `Token` class of
  `cypher/token.py`, with its text-based `==` and `!=`.
- `scenarios.dfy` (modules `Spelled` and `Scenarios`) proves the exact text
  of small concrete trees: maps, nodes, predicates, statements, a query and
  a two-relationship path. The path is also given as its exact token list.

Python exceptions become values. `Render` returns `Result<string>`, and a
`tokenize` that raises yields `Err(AttributeError)` or `Err(ValueError)`.
Every parameter that a constructor of the library gives a default keeps that
default in the model: `operator='AND'`, `reverse=False`, `distinct=False`,
and `None` for identifiers, props, labels, types and the paging arguments.
`Path` compares relationship endpoints with `is`. The model therefore gives
each endpoint an object identity (`Endpoint.oid`) next to its value.

### Behaviour the code has as written

In the places below, the code does something that its own parameter names,
flags or expressions suggest it was not meant to do: a `distinct` flag that
is never read, `'true' if True else 'false'`, a digit range `0-0`, an
attribute the class never sets. The model follows the code, and the lemmas
named below state the code's behaviour.

- `Return.tokenize` inserts `' DISTINCT '` at index 1 whatever its `distinct`
  flag says (`cypher/syntax.py:426`). The keyword is followed by both
  `' DISTINCT '` and the statement's own `' '`, so a node renders as
  `RETURN DISTINCT  (n)`, with two spaces. `TokenShapes.ReturnAlwaysDistinct`
  and `Scenarios.ReturnNodeRender` state this. `Return` renders its items as
  given; it substitutes no identifiers.
- `cystr` renders every boolean, `False` included, as `true`
  (`cypher/syntax.py:48-49`). See `Syntax.Cystr` and
  `Rendering.CystrRender`.
- The identifier pattern is `^[_a-z][_a-z0-0]*$` (`cypher/syntax.py:73`), so
  the only digit it admits is `0`. A name such as `r1` or `a1` is
  back-ticked. See `Literals.DigitForcesQuotes` and
  `Scenarios.DigitNamesRender`. Python's `$` also matches before one
  trailing newline (`Literals.TrailingNewlineStaysBare`).
- `Collection.tokenize` reads `self.props`, which a `Collection` never sets
  (`cypher/syntax.py:128`). Rendering a collection, or a map holding a
  list, therefore raises `AttributeError`. See `Rendering.CollectionRender`
  and `Rendering.MapHoldingListFails`.
- `Path` compares endpoints by identity, not by text, and it skips the check
  after a relationship whose end is `None` (`cypher/syntax.py:259-263`). See
  `TokenShapes.ChainOkIff` and `TokenShapes.NoneEndSkipsCheck`.
- `SKIP` appears only for a truthy `skip`, so `skip=0` is dropped. `LIMIT`
  appears for every `limit` that is not `None`, `0` included
  (`TokenShapes.PagingRule`).
- The library has no `SKIP`/`LIMIT` validation, no `UNIQUE`, no DDL
  statements and no `UNION`, so the model has none either.

## Model

| member | source | states |
|---|---|---|
| Utils.Delimit | cypher/utils.py:4-22 | the result is empty for no values and the lone value for one value; otherwise the values interleaved with the delimiter, where a lone delimiter and a list of delimiters are both accepted |
| Utils.DelimitText | cypher/utils.py:4-22 | `delimit` on text items with the default delimiter `', '` when none is given: the values interleaved with the delimiter |
| Utils.InterleaveStep | cypher/utils.py:16-20 | one loop iteration appends the value and, except after the last value, the delimiter |
| Utils.InterleaveLength | cypher/utils.py:16-20 | the interleaved list has `n + (n-1)·d` items for `n` values and a delimiter of `d` items |
| Utils.InterleaveEnds | cypher/utils.py:16-20 | a non-empty interleaving starts with the first value and ends with the last value |
| Utils.StripInterleave | cypher/utils.py:16-20 | removing the delimiter after each value gives back the values exactly: the inverse of `delimit` |
| Utils.InterleaveElements | cypher/utils.py:16-20 | an item occurs in the result iff it is one of the values, or is in the delimiter when there are at least two values |
| Utils.InterleaveSplit | cypher/utils.py:16-20 | an interleaving splits at any inner value into two interleavings joined by one delimiter |
| Utils.JoinSnoc | cypher/syntax.py:165 | `sep.join` of two or more parts is the join of all but the last, the separator, then the last |
| Literals.QuoteRoundTrip | cypher/syntax.py:45-46 | `repr` of a string starts and ends with the same quote character, and unquoting it gives back the string |
| Literals.UnescapeEscape | cypher/syntax.py:45-46 | unescaping the escaped body of a string gives back the string, for either quote character |
| Literals.HexRoundTrip | cypher/syntax.py:45-46 | a control character written as `\xHH` is recovered from its two hex digits |
| Literals.QuoteCharChoice | cypher/syntax.py:45-46 | `repr` uses double quotes iff the string contains a single quote and no double quote, and whenever the string lacks one kind of quote the chosen delimiter is one it does not contain |
| Literals.QuoteChar | cypher/syntax.py:45-46 | definition: the quote character `repr` picks |
| Literals.Escape | cypher/syntax.py:45-46 | definition: the body of `repr`: the backslash and the chosen quote behind a backslash, tab, newline and return as `\t`, `\n`, `\r`, the other ASCII control characters and DEL as `\xHH` |
| Literals.Quote | cypher/syntax.py:45-46 | definition: `repr(s)`, the escaped body between two chosen quote characters |
| Literals.MatchesIdentifierPattern | cypher/syntax.py:73 | definition: a `_` or letter, then `_`, letters or `0`, compared case-insensitively, with an optional final newline |
| Literals.IdentifierText | cypher/syntax.py:72-78 | definition: the name bare when it matches the pattern, otherwise between back-ticks |
| Literals.IdentifierRoundTrip | cypher/syntax.py:72-78 | removing back-ticks gives back the name, and a name renders bare iff it matches the identifier pattern |
| Literals.DigitForcesQuotes | cypher/syntax.py:73 | a name containing any digit `1`-`9` is always back-ticked |
| Literals.TrailingNewlineStaysBare | cypher/syntax.py:73-77 | a matching name followed by one newline still renders bare, because `$` matches before a final newline |
| Literals.NatText | cypher/syntax.py:61-62 | the decimal text of a natural number is non-empty, made only of digits, spells the number back, and starts with `0` only for zero itself |
| Literals.IntText | cypher/syntax.py:61-62 | `str` of an integer: its digits spell it when it is not negative, and a negative integer is `-` followed by the digits of its magnitude |
| Syntax.Cystr | cypher/syntax.py:37-51 | `None` becomes `NULL`, every boolean becomes `true`, a string becomes a literal that unquotes to it, and integers and tokens pass unchanged |
| Syntax.Truthy | cypher/syntax.py:159-168 | definition: Python's truth value, false for `None`, `False`, `0` and the empty string, and true for every token object |
| Syntax.Convert | cypher/syntax.py:98-104 | definition: a dict value becomes a `Map`, a list a `Collection`, anything else its `cystr` |
| Syntax.MakePath | cypher/syntax.py:240-245 | definition: a lone rel argument is wrapped into a one-item list; `identifier` defaults to none |
| Syntax.MakeExpr | cypher/syntax.py:274-278 | definition: a lone expression argument is wrapped into a one-item list |
| Syntax.MakePredicate | cypher/syntax.py:337-339 | definition: the `Expr` constructor plus the operator, which defaults to `'AND'` |
| Syntax.MakeStatement | cypher/syntax.py:274-278 | definition: the `Expr` constructor for a keyword statement |
| Syntax.MakeReturn | cypher/syntax.py:414-421 | definition: the `Expr` constructor plus `order_by`, `skip`, `limit` (each defaulting to `None`) and `distinct` (defaulting to `False`) |
| Syntax.MakeWith | cypher/syntax.py:443-448 | definition: the `Expr` constructor plus `order_by`, `skip` and `limit`, each defaulting to `None` |
| Syntax.MakeQuery | cypher/syntax.py:510-511 | definition: the `Expr` constructor for a query |
| Syntax.SetItems | cypher/syntax.py:468-473 | definition: a truthy lone set item becomes a one-item list, a falsy one an empty list |
| Syntax.MakeMerge | cypher/syntax.py:468-477 | definition: `Merge` with both set-item arguments normalised, each defaulting to `None` |
| Syntax.IdentPrefix | cypher/syntax.py:89-90 | definition: the identifier and a separator, only when the identifier is truthy |
| Syntax.IdentifierTokens | cypher/syntax.py:75-78 | definition: `Identifier.tokenize` |
| Syntax.MapTokens | cypher/syntax.py:86-113 | definition: `Map.tokenize` |
| Syntax.NodeTokens | cypher/syntax.py:155-175 | definition: `Node.tokenize` |
| Syntax.LeftArrow | cypher/syntax.py:193-196 | definition: `<-` when `reverse is True`, otherwise `-` |
| Syntax.RightArrow | cypher/syntax.py:225-228 | definition: `->` when `reverse is False`, otherwise `-` |
| Syntax.TypeText | cypher/syntax.py:207-215 | definition: the text of a rel type |
| Syntax.BracketTokens | cypher/syntax.py:198-223 | definition: the bracket part of `Rel.tokenize` |
| Syntax.RelTokens | cypher/syntax.py:188-232 | definition: `Rel.tokenize` |
| Syntax.ChainTokens | cypher/syntax.py:254-266 | definition: the loop over the rels of a path |
| Syntax.PathTokens | cypher/syntax.py:247-268 | definition: `Path.tokenize` |
| Syntax.ExprTokens | cypher/syntax.py:280-294 | definition: `Expr.tokenize` |
| Syntax.PropertyTokens | cypher/syntax.py:303-314 | definition: `Property.tokenize` |
| Syntax.PropertiesTokens | cypher/syntax.py:322-333 | definition: `Properties.tokenize` |
| Syntax.PredicateTokens | cypher/syntax.py:341-365 | definition: `Predicate.tokenize` |
| Syntax.StatementTokens | cypher/syntax.py:369-372 | definition: `Statement.tokenize` |
| Syntax.PagingTokens | cypher/syntax.py:428-435 | definition: the paging tail: a space and `order_by` itself for a truthy `order_by`, ` SKIP ` and the skip for a truthy skip, ` LIMIT ` and the limit for a limit that is not `None` |
| Syntax.ReturnTokens | cypher/syntax.py:423-437 | definition: `Return.tokenize` |
| Syntax.WithTokens | cypher/syntax.py:450-462 | definition: `With.tokenize` |
| Syntax.SetClauseTokens | cypher/syntax.py:482-505 | definition: one `ON … SET` clause of `Merge.tokenize` |
| Syntax.MergeTokens | cypher/syntax.py:479-507 | definition: `Merge.tokenize` |
| Syntax.Tokens | cypher/syntax.py:58-59 | definition: `tokenize`, dispatched on the kind of token |
| Syntax.Render | cypher/syntax.py:61-62 | definition: `str(token)`, the error of `tokenize` or the join of the `str` of its items |
| Syntax.RenderAll | cypher/syntax.py:62 | definition: the join of the `str` of a list of items, failing at the first item that fails |
| Syntax.Str | cypher/syntax.py:62 | definition: `str` of one item: `None`, `True`/`False`, decimal digits, the string itself, or the nested token's `str` |
| Syntax.NestedTokensSmaller | cypher/syntax.py:61-62 | every item of a token's list is smaller than the token, so the recursion of `str` terminates |
| Tokenizers.ConvertValue | cypher/syntax.py:98-104 | a dict becomes a `Map`, a list becomes a `Collection`, and anything else goes through `cystr` |
| Tokenizers.TokenizeMap | cypher/syntax.py:86-113 | the loop builds the optional `identifier = ` prefix, then `{`, the `key: value` groups separated by `, `, then `}` |
| Tokenizers.TokenizeCollection | cypher/syntax.py:121-146 | tokenizing a collection always raises `AttributeError` |
| Tokenizers.TokenizeNode | cypher/syntax.py:155-175 | builds `(`, the identifier, `:` with the joined labels, a space only when something came before the props map, the map, then `)` |
| Tokenizers.AppendBracket | cypher/syntax.py:198-223 | appends the bracket with identifier, type (`:a\|b` for a list, verbatim for `*…`, `:t` otherwise) and spaced props, only when one of them is truthy |
| Tokenizers.TokenizeRel | cypher/syntax.py:188-232 | builds start, `<-` only when `reverse is True`, the bracket, `->` only when `reverse is False`, then end |
| Tokenizers.TokenizePath | cypher/syntax.py:247-268 | the loop computes the path's specification, including the `ValueError` for an unlinked path |
| Tokenizers.TokenizeExpr | cypher/syntax.py:280-294 | builds the expressions separated by the class separator, and nothing for no expressions |
| Tokenizers.TokenizeProperty | cypher/syntax.py:303-314 | builds `identifier.`, the key, and ` = ` with the `cystr` of a value that is not `None` |
| Tokenizers.TokenizeProperties | cypher/syntax.py:322-333 | builds one `Property` per entry sharing the identifier, separated by `, ` |
| Tokenizers.TokenizePredicate | cypher/syntax.py:341-365 | builds nothing for no expressions, the lone expression unwrapped, or the parenthesised expressions joined by ` op ` |
| Tokenizers.TokenizeStatement | cypher/syntax.py:368-408 | builds the keyword, a space, then the comma-separated expressions |
| Tokenizers.AppendPaging | cypher/syntax.py:428-435 | appends a space and `order_by` itself for a truthy `order_by`, `SKIP` with the skip for a truthy skip, and `LIMIT` with the limit for a limit that is not `None` |
| Tokenizers.TokenizeReturn | cypher/syntax.py:423-437 | builds the statement's tokens with ` DISTINCT ` inserted at index 1, then the paging tail |
| Tokenizers.TokenizeWith | cypher/syntax.py:450-462 | builds the statement's tokens, then the paging tail |
| Tokenizers.AppendSetClause | cypher/syntax.py:482-505 | appends ` ON … SET ` and the comma-separated items when the list is non-empty |
| Tokenizers.TokenizeMerge | cypher/syntax.py:479-507 | builds `MERGE`, the expression, then the `ON CREATE SET` and `ON MATCH SET` clauses |
| Tokenizers.Tokenize | cypher/syntax.py:58-59 | dispatching on the kind of token gives that kind's specification, errors included |
| TextTokens.Str | cypher/token.py:11-12 | definition: `str` of a token, the join of the `str` of its list |
| TextTokens.Eq | cypher/token.py:14-17 | definition: `==`, false for other kinds, otherwise a comparison of texts |
| TextTokens.Ne | cypher/token.py:19-20 | definition: `!=`, the negation of `==` |
| TextTokens.Repr | cypher/token.py:22-23 | definition: `repr` of a token is its `str` |
| TextTokens.Tokenize | cypher/token.py:8-9 | a token's list is exactly its wrapped value |
| TextTokens.StrIsValueText | cypher/token.py:11-12 | `str` of a token is the text of its value |
| TextTokens.EqByText | cypher/token.py:14-17 | `==` holds iff the other side is a token or a string and the two texts are equal |
| TextTokens.EqRejectsOtherKinds | cypher/token.py:14-16 | against anything that is neither a token nor a string, `==` is false and `!=` is true |
| TextTokens.IntOperandVersusText | cypher/token.py:14-17 | a token is never `==` to the raw integer it wraps, but is `==` to its decimal text |
| TextTokens.EqReflexive | cypher/token.py:14-17 | every token equals itself |
| TextTokens.EqSymmetric | cypher/token.py:14-17 | between two tokens, `==` is symmetric |
| TextTokens.EqTransitive | cypher/token.py:14-17 | `==` is transitive through a token |
| TextTokens.EqOwnText | cypher/token.py:14-17 | a token equals its own `str`, and a token wrapping a token equals the inner token |
| TextTokens.EqWrappedText | cypher/token.py:14-17 | a token wrapping a string equals that string, and a token wrapping `None` equals `"None"` |
| TextTokens.NeByText | cypher/token.py:19-20 | `!=` holds iff the other side is neither a token nor a string, or the two texts differ, which makes it the negation of `==` |
| TextTokens.ReprIsStr | cypher/token.py:22-23 | `repr` of a token is its `str` |
| Rendering.RenderByTokens | cypher/syntax.py:61-62 | `str` of a token joins the `str` of its list items, and an error from `tokenize` propagates |
| Rendering.ShowToken | cypher/syntax.py:61-62 | a nested token renders as its own `str` |
| Rendering.ShowAllAppend | cypher/syntax.py:61-62 | the text of a concatenated list is the concatenation of the texts |
| Rendering.ShowAllErr | cypher/syntax.py:61-62 | if any item fails to render, the whole list fails |
| Rendering.ShowInterleave | cypher/syntax.py:61-62 | rendering interleaved items gives their texts joined by the delimiter's text |
| Rendering.IdentifierRender | cypher/syntax.py:72-78 | an identifier renders as its name, back-ticked unless it matches the pattern |
| Rendering.CystrRender | cypher/syntax.py:37-51 | a scalar renders as its Cypher literal, a string unquotes to itself, and `False` renders as `true` |
| Rendering.MapRender | cypher/syntax.py:86-113 | a map renders as `{k1: v1, k2: v2}` with back-ticked keys where needed, after `identifier = ` when one is given |
| Rendering.MapEmptyRender | cypher/syntax.py:86-113 | an empty map renders as `{}` after the optional prefix |
| Rendering.CollectionRender | cypher/syntax.py:121-128 | rendering any collection fails with `AttributeError` |
| Rendering.MapHoldingListFails | cypher/syntax.py:101-102 | a map with a list value, at any depth of its entries, fails to render |
| Rendering.Show | cypher/syntax.py:62 | definition: `str` of one item, without a termination bound |
| Rendering.ShowAll | cypher/syntax.py:62 | definition: the join of `str` of a list of items, without a termination bound |
| ClauseRendering.NodeRender | cypher/syntax.py:155-175 | a node renders as `(` identifier `:`labels, a space only when needed, props map, `)` |
| ClauseRendering.EmptyNodeRender | cypher/syntax.py:155-175 | a node with nothing set renders as `()` |
| ClauseRendering.ExprRender | cypher/syntax.py:271-294 | an `Expr` renders as its items joined by `, `, and a `Query` as its items joined by a space |
| ClauseRendering.StatementRender | cypher/syntax.py:368-408 | a keyword statement renders as keyword, space, then the items joined by `, ` |
| ClauseRendering.ShowPaging | cypher/syntax.py:428-435 | the paging tail renders as ` order`, ` SKIP s`, ` LIMIT l`, each present under its own condition |
| ClauseRendering.ReturnRender | cypher/syntax.py:423-437 | `Return` renders as `RETURN DISTINCT  ` plus the items and the paging tail, whatever `distinct` is |
| ClauseRendering.WithRender | cypher/syntax.py:450-462 | `With` renders as `WITH ` plus the items and the paging tail |
| ClauseRendering.ShowSetClause | cypher/syntax.py:482-505 | a set clause renders as ` ON … SET ` plus the items joined by `, `, or as nothing when there are no items |
| ClauseRendering.MergeRender | cypher/syntax.py:479-507 | `Merge` renders as `MERGE expr` followed by its two set clauses |
| ClauseRendering.PredicateRender | cypher/syntax.py:341-365 | a predicate renders as empty, as its lone item, or as `(a op b op …)` |
| ClauseRendering.PropertyRender | cypher/syntax.py:303-314 | a property renders as `id.key = literal`, leaving out the prefix and the assignment when unset |
| ClauseRendering.PropertiesRender | cypher/syntax.py:322-333 | properties render as their property texts joined by `, ` |
| PatternRendering.ShowBracket | cypher/syntax.py:198-223 | the bracket renders as `[`, the identifier, the type text, a space only after an identifier or type, the props map, then `]`, and as nothing when none of them is truthy |
| PatternRendering.RelRender | cypher/syntax.py:188-232 | a rel renders as the start's text, `<-` or `-`, the bracket, `->` or `-`, then the end's text |
| PatternRendering.ShowDropped | cypher/syntax.py:256-266 | the later rels, each without its start, render as their tail texts one after another |
| PatternRendering.PathRender | cypher/syntax.py:247-268 | a linked path renders as the optional `identifier=`, the first rel's full text, then the text of each later rel without its start |
| PatternRendering.UnlinkedPathRender | cypher/syntax.py:262-263 | a path that is not linked fails to render with `ValueError` |
| TokenShapes.RelShape | cypher/syntax.py:188-232 | a relationship list starts at `start` and ends at `end`, has arrows chosen by `reverse is True`/`is False`, and has a bracket iff something goes inside it |
| TokenShapes.BracketPropsSpace | cypher/syntax.py:217-221 | the props map in a bracket is preceded by a space iff an identifier or a type came first |
| TokenShapes.TypeListOfOne | cypher/syntax.py:210-215 | a one-name type list renders like the name itself, except that a list keeps the `:` before a `*` name |
| TokenShapes.ChainOkIff | cypher/syntax.py:254-266 | the rel loop succeeds iff each start is the previous end by identity, wherever that end is not `None` |
| TokenShapes.PathOkIff | cypher/syntax.py:247-268 | a path tokenizes iff it is linked, and otherwise raises `ValueError` |
| TokenShapes.ChainErrIsValueError | cypher/syntax.py:262-263 | the only error a path raises is `ValueError` |
| TokenShapes.ChainDropsStarts | cypher/syntax.py:256-266 | after the first rel, each rel contributes its tokens without its start |
| TokenShapes.PathKeepsEachEndpointOnce | cypher/syntax.py:247-268 | a linked path is the first rel in full followed by the others without their starts, so shared endpoints appear once |
| TokenShapes.DroppedLength | cypher/syntax.py:260 | dropping the starts removes exactly one token per rel |
| TokenShapes.PathTokenCount | cypher/syntax.py:247-268 | a linked path has the prefix plus all rel tokens minus one per shared endpoint |
| TokenShapes.NoneEndSkipsCheck | cypher/syntax.py:259 | after a rel ending in `None`, the next rel is kept whole, whatever it starts at |
| TokenShapes.SingleRelPath | cypher/syntax.py:240-245 | a lone rel is wrapped into a list, and its path is the prefix followed by its tokens |
| TokenShapes.ExprIsDelimited | cypher/syntax.py:280-294 | an expression list has `2n-1` tokens, and stripping the separators gives the expressions back |
| TokenShapes.PredicateShape | cypher/syntax.py:341-365 | a predicate of two or more items is parenthesised, with the items in order and three tokens between each pair |
| TokenShapes.ReturnAlwaysDistinct | cypher/syntax.py:423-426 | `Return` tokens do not depend on `distinct`, and ` DISTINCT ` always sits at index 1 |
| TokenShapes.PagingRule | cypher/syntax.py:428-435 | the tail length counts each present part, `skip=0` is dropped and `limit=0` is kept |
| TokenShapes.LoneItemIsList | cypher/syntax.py:274-278 | a lone expression argument is treated as a one-item list by every `Expr` subclass |
| TokenShapes.MergeLoneItems | cypher/syntax.py:468-473 | a truthy lone set item becomes a one-item list, and a falsy one produces no clause |
| TokenShapes.PlainRelIsForward | cypher/syntax.py:179-180 | a `Rel` given only its endpoints has no bracket and, through `reverse=False`, tokenizes as start, `-`, `->`, end |
| TokenShapes.DefaultOperatorIsAnd | cypher/syntax.py:337 | a `Predicate` of two or more items built without an operator is parenthesised and joined with ` AND ` |
| TokenShapes.DefaultPagingIsEmpty | cypher/syntax.py:414-415 | `Return` and `With` built without `order_by`, `skip` and `limit` have no paging tail, and `Return`'s default `distinct=False` gives the same tokens as `True` |
| TokenShapes.DefaultMergeHasNoClause | cypher/syntax.py:468 | `Merge(expr)` tokenizes as `MERGE`, a space and the expression, with no set clause |
| TokenShapes.DefaultPropertyIsKey | cypher/syntax.py:298 | `Property(key)` tokenizes as the key alone, with no owner prefix and no assignment |
| TokenShapes.DefaultNodeIsEmpty | cypher/syntax.py:150 | `Node()` tokenizes as `(` and `)` alone |
| TokenShapes.DefaultPathIsItsRel | cypher/syntax.py:240-245 | `Path(rel)` tokenizes as exactly that rel's tokens, with no `identifier=` prefix |
| Scenarios.TwoScalarMapRender | cypher/syntax.py:86-113 | a two-entry map of scalars renders as `{k1: v1, k2: v2}` |
| Scenarios.BobMapRender | cypher/syntax.py:86-113 | `{'name': 'Bob', 'age': 30}` renders as `{name: 'Bob', age: 30}` |
| Scenarios.OrPredicateRender | cypher/syntax.py:341-365 | `Predicate(['p1', 'p2'], 'OR')` renders as `(p1 OR p2)`, and a single item as itself |
| Scenarios.DefaultPredicateRender | cypher/syntax.py:337 | `Predicate(['a', 'b'])` renders as `(a AND b)` |
| Scenarios.PlainRelRender | cypher/syntax.py:179-180 | `Rel(Node(), Node())` renders as `()-->()` |
| Scenarios.DigitNamesRender | cypher/syntax.py:73 | `a1` renders as `` `a1` ``, while `a0` stays bare |
| Scenarios.NodeNRender | cypher/syntax.py:155-175 | `Node(identifier='n')` renders as `(n)` |
| Scenarios.ReturnNodeRender | cypher/syntax.py:423-437 | returning that node renders `RETURN DISTINCT  (n)` for either `distinct` |
| Scenarios.ZeroPagingRender | cypher/syntax.py:431-435 | `skip=0, limit=0` renders `RETURN DISTINCT  n LIMIT 0` |
| Scenarios.MatchNodeRender | cypher/syntax.py:368-384 | `Match(node)` renders as `MATCH (n)` |
| Scenarios.ReturnLimitRender | cypher/syntax.py:434-435 | `limit=10` renders as `RETURN DISTINCT  n LIMIT 10` |
| Scenarios.MatchReturnQueryRender | cypher/syntax.py:510-511 | a query of a match and a return renders its statements joined by one space |
| Scenarios.PathExamples | cypher/syntax.py:247-268 | two rels sharing an endpoint object give that endpoint's token once, and two rels with different objects raise `ValueError` |
| Scenarios.NamedNodeShows | cypher/syntax.py:155-175 | a node holding only a bare name renders as `(name)` |
| Scenarios.ArrowRender | cypher/syntax.py:188-232 | a forward rel with an identifier between two named nodes renders as ``(A)-[`r`]->(B)``, the name back-ticked when the pattern rejects it |
| Scenarios.ArrowsLinked | cypher/syntax.py:259-263 | `A→B` then `B→C` sharing the `B` object is linked, and `A→B` then `C→D` is not |
| Scenarios.PathTextExample | cypher/syntax.py:247-268 | the two-rel path renders exactly as ``(A)-[`r1`]->(B)-[`r2`]->(C)``, with `(B)` once, and the unlinked pair fails with `ValueError` |

## Left out

- The model follows Python 3. `setup.py:18-21` also declares Python 2.6 and 2.7. Under Python 2 the `unicode_literals` import of `cypher/token.py:1` makes the text literals `unicode`, and `isinstance(other, (Token, str))` at `cypher/token.py:15` then rejects them, so `Token('x') == u'x'` is false there while `TextTokens.EqWrappedText` proves it true. Python 2's `repr` also escapes every non-ASCII character. Neither Python 2 behaviour is modelled.
- Floating-point values and `bytes` are not modelled. Values are `None`, booleans, integers, strings and tokens. The `str = unicode` shim and `.lstrip('u')` exist only for Python 2 (`cypher/syntax.py:5-8, 42-43, 46`).
- Literals.Escape: escapes only ASCII control characters (`\t`, `\n`, `\r`, `\xHH`), the backslash and the quote. Python's `repr` also escapes non-printable non-ASCII characters as `\x`, `\u` or `\U`, and the model passes those through, because Unicode printability tables are outside the model.
- Literals.MatchesIdentifierPattern: matches ASCII letters only. Python's case-insensitive matching also accepts the Unicode characters that fold to ASCII letters (such as U+212A KELVIN SIGN or U+017F LONG S), which Unicode case folding would be needed to capture.
- Dict keys are strings, and a dict is its entries in iteration order. Duplicate keys are not excluded.
- Node labels are a list of strings. A single string passed as `labels` would be joined character by character by Python, and that case is not modelled.
- A `Rel` type is absent, a string, or a list of strings. A type of any other class is not modelled, and neither are items of a `Path` that are not `Rel` objects.
- Endpoint identity is an explicit number. The model does not force two endpoints with the same number to hold the same value, as Python object identity would.
- The `Statement` base class used directly has no `keyword` and is not modelled, and neither are other subclasses beyond those listed.
- The `__repr__` debug format of the syntax tokens (`cypher/syntax.py:64-65`) is not modelled.
- `VALID_TYPES` and `FUNCTIONS` (`cypher/syntax.py:13-34`) are not modelled. No code in the core reads them.
- `cypher/shortcuts.py`, `cypher/operators.py`, `cypher/functions.py` and `cypher/constants.py` are not part of this model.
- Delimit: takes its delimiter explicitly, because its items may be of any type; the `', '` default applies to text items through `DelimitText`.
- TextTokens.Eq: models `token == other` with the token on the left. Python's reflected comparison (`'x' == token`) and the `__hash__` that Python 3 drops when `__eq__` is defined are not modelled.
