/**
 * Model of cypher/token.py: a `Token` wraps one value, renders as Python's
 * `str` of that value, and compares equal to another `Token` or to a `str`
 * exactly when the rendered texts agree.
 */
module TextTokens {
  import opened Utils
  import opened Literals

  /** The Python objects a `Token` may hold or be compared with. `Other`
      stands for any object of another class, given by the text its `str`
      produces. */
  datatype Value =
    | NoneValue
    | BoolValue(b: bool)
    | IntValue(i: int)
    | StrValue(s: string)
    | TokenValue(t: Token)
    | Other(text: string)

  datatype Token = Token(value: Value)

  /** `Token.tokenize`: the one-element list holding the value. */
  function Tokenize(t: Token): (r: seq<Value>)
    ensures |r| == 1 && r[0] == t.value
  {
    [t.value]
  }

  /** Python's `str(v)`. */
  function Text(v: Value): string
    decreases v, 0
  {
    match v
    case NoneValue => "None"
    case BoolValue(b) => if b then "True" else "False"
    case IntValue(i) => IntText(i)
    case StrValue(s) => s
    case TokenValue(t) => Str(t)
    case Other(text) => text
  }

  /** `Token.__str__`: `''.join` of `str` of each token of `tokenize()`. */
  function Str(t: Token): (r: string)
    decreases t, 1
  {
    var toks := Tokenize(t);
    Flatten(seq(|toks|, i requires 0 <= i < |toks| => Text(toks[i])))
  }

  /** `isinstance(other, (Token, str))`. */
  predicate IsTokenOrStr(other: Value)
  {
    other.TokenValue? || other.StrValue?
  }

  /** `Token.__eq__`. */
  predicate Eq(t: Token, other: Value)
  {
    if !IsTokenOrStr(other) then false else Str(t) == Text(other)
  }

  /** `Token.__ne__`. */
  predicate Ne(t: Token, other: Value)
  {
    !Eq(t, other)
  }

  /** `Token.__repr__`. */
  function Repr(t: Token): string
  {
    Str(t)
  }

  /** A token renders as the `str` of the one value it wraps. */
  lemma StrIsValueText(t: Token)
    ensures Str(t) == Text(t.value)
  {
    var parts := seq(1, i requires 0 <= i < 1 => Text(Tokenize(t)[i]));
    assert parts == [Text(t.value)];
    assert Flatten(parts) == Flatten(parts[..0]) + parts[0];
  }

  /** Equality is decided by text alone: the operand must be a token or a
      text, and then the rendered strings must agree. */
  lemma EqByText(t: Token, other: Value)
    ensures Eq(t, other) <==> IsTokenOrStr(other) && Text(t.value) == Text(other)
  {
    StrIsValueText(t);
  }

  /** Any operand that is neither a `Token` nor a `str` compares unequal,
      even one whose `str` is the same text. */
  lemma EqRejectsOtherKinds(t: Token, other: Value)
    requires !other.TokenValue? && !other.StrValue?
    ensures !Eq(t, other) && Ne(t, other)
  {
  }

  /** So an int never equals a token, while its decimal text does. */
  lemma IntOperandVersusText(n: int)
    ensures !Eq(Token(IntValue(n)), IntValue(n))
    ensures Eq(Token(IntValue(n)), StrValue(IntText(n)))
  {
    StrIsValueText(Token(IntValue(n)));
  }

  lemma EqReflexive(t: Token)
    ensures Eq(t, TokenValue(t))
  {
  }

  lemma EqSymmetric(a: Token, b: Token)
    ensures Eq(a, TokenValue(b)) == Eq(b, TokenValue(a))
  {
  }

  lemma EqTransitive(a: Token, b: Token, c: Value)
    requires Eq(a, TokenValue(b)) && Eq(b, c)
    ensures Eq(a, c)
  {
  }

  /** A token equals its own rendered text, and a token wrapping another
      token equals the token it wraps. */
  lemma EqOwnText(t: Token)
    ensures Eq(t, StrValue(Str(t)))
    ensures Eq(Token(TokenValue(t)), TokenValue(t))
  {
    StrIsValueText(Token(TokenValue(t)));
  }

  /** A token holding a text equals that text, and one holding `None`
      equals the text "None". */
  lemma EqWrappedText(s: string)
    ensures Eq(Token(StrValue(s)), StrValue(s))
    ensures Eq(Token(NoneValue), StrValue("None"))
  {
    StrIsValueText(Token(StrValue(s)));
    StrIsValueText(Token(NoneValue));
  }

  /** `!=` holds iff the other side is neither a token nor a string, or its
      text differs from the token's. */
  lemma NeByText(t: Token, other: Value)
    ensures Ne(t, other) <==> !Eq(t, other)
    ensures Ne(t, other) <==> !IsTokenOrStr(other) || Text(t.value) != Text(other)
  {
    EqByText(t, other);
  }

  lemma ReprIsStr(t: Token)
    ensures Repr(t) == Str(t) == Text(t.value)
  {
    StrIsValueText(t);
  }
}
