/**
 * Model of cypher/utils.py: `delimit`, which interleaves a list of tokens
 * with a delimiter, and the sequence facts the rest of the model uses about
 * that interleaving.
 */
module Utils {

  /** An argument that the Python code accepts either as one object or as a
      list/tuple of objects (`isinstance(x, (list, tuple))`). */
  datatype OneOrMany<T> = One(item: T) | Many(items: seq<T>)
  {
    /** The list the callee works on: a lone object becomes a one-element list. */
    function AsSeq(): seq<T>
    {
      match this
      case One(x) => [x]
      case Many(xs) => xs
    }
  }

  datatype Option<T> = None | Some(value: T)

  /** The reference definition of delimiting: the values in order, with one
      copy of `delim` between each pair of neighbours and none at either end. */
  function Interleave<T>(values: seq<T>, delim: seq<T>): seq<T>
    decreases |values|
  {
    if |values| <= 1 then values
    else Interleave(values[..|values| - 1], delim) + delim + [values[|values| - 1]]
  }

  /** What a delimiting loop has built after handling the first `i` values:
      every value so far, and a trailing delimiter unless the last value of
      all has been handled. */
  function InterleavedUpTo<T>(values: seq<T>, i: nat, delim: seq<T>): seq<T>
    requires i <= |values|
  {
    if i == 0 then []
    else Interleave(values[..i], delim) + (if i < |values| then delim else [])
  }

  /** One iteration of a delimiting loop: append the value, then the
      delimiter when the value is not the last one. */
  lemma InterleaveStep<T>(values: seq<T>, i: nat, delim: seq<T>)
    requires i < |values|
    ensures InterleavedUpTo(values, i + 1, delim)
            == InterleavedUpTo(values, i, delim) + [values[i]] + (if i < |values| - 1 then delim else [])
  {
    if i > 0 {
      assert values[..i + 1][..i] == values[..i];
    }
  }

  /** The same step seen from a list that already holds `head` in front. */
  lemma PrefixedInterleaveStep<T>(head: seq<T>, values: seq<T>, i: nat, delim: seq<T>)
    requires i < |values|
    ensures head + InterleavedUpTo(values, i + 1, delim)
            == head + InterleavedUpTo(values, i, delim) + [values[i]] + (if i < |values| - 1 then delim else [])
  {
    InterleaveStep(values, i, delim);
    var done := InterleavedUpTo(values, i, delim);
    var tail := if i < |values| - 1 then delim else [];
    RegroupTail(head, done, [values[i]], tail);
  }

  /** When every value has been handled, the loop has built the interleaving. */
  lemma InterleavedAll<T>(values: seq<T>, delim: seq<T>)
    ensures InterleavedUpTo(values, |values|, delim) == Interleave(values, delim)
  {
    assert values[..|values|] == values;
  }

  /** `delimit(values, delimiter)`: the values interleaved with the delimiter,
      a non-list delimiter standing for the one-element list holding it. */
  method Delimit<T>(values: seq<T>, delimiter: OneOrMany<T>) returns (toks: seq<T>)
    ensures |values| == 0 ==> toks == []
    ensures |values| == 1 ==> toks == values
    ensures delimiter.One? ==> toks == Interleave(values, [delimiter.item])
    ensures delimiter.Many? ==> toks == Interleave(values, delimiter.items)
  {
    toks := [];
    if |values| == 0 {
      return;
    }
    var delim := delimiter.AsSeq();
    var last := |values| - 1;
    var i := 0;
    while i < |values|
      invariant 0 <= i <= |values|
      invariant toks == InterleavedUpTo(values, i, delim)
    {
      InterleaveStep(values, i, delim);
      toks := toks + [values[i]];
      if i < last {
        toks := toks + delim;
      }
      i := i + 1;
    }
    InterleavedAll(values, delim);
  }

  /** `delimit` on text items, where the source's default delimiter `', '`
      applies when none is given. */
  method DelimitText(values: seq<string>, delimiter: OneOrMany<string> := One(", ")) returns (toks: seq<string>)
    ensures toks == Interleave(values, delimiter.AsSeq())
  {
    toks := Delimit(values, delimiter);
  }

  /** Interleaving read from the front: the first value, a delimiter, then
      the interleaving of the rest. */
  lemma InterleaveCons<T>(values: seq<T>, delim: seq<T>)
    requires |values| >= 2
    ensures Interleave(values, delim) == [values[0]] + delim + Interleave(values[1..], delim)
  {
    InterleaveSplit(values, delim, 1);
    assert values[..1] == [values[0]];
  }

  /** n values and a k-token delimiter give n + (n - 1) * k tokens. */
  lemma {:induction false} InterleaveLength<T>(values: seq<T>, delim: seq<T>)
    ensures |Interleave(values, delim)|
            == if |values| == 0 then 0 else |values| + (|values| - 1) * |delim|
  {
    var n := |values|;
    if n > 1 {
      InterleaveLength(values[..n - 1], delim);
      assert (n - 2) * |delim| + |delim| == (n - 1) * |delim|;
    }
  }

  /** No leading or trailing delimiter: the ends are the first and last values. */
  lemma {:induction false} InterleaveEnds<T>(values: seq<T>, delim: seq<T>)
    requires |values| >= 1
    ensures |Interleave(values, delim)| >= 1
    ensures Interleave(values, delim)[0] == values[0]
    ensures Interleave(values, delim)[|Interleave(values, delim)| - 1] == values[|values| - 1]
  {
    if |values| >= 2 {
      InterleaveCons(values, delim);
    }
  }

  /** Delete the k-token delimiter runs: keep the first token, skip k, and go on. */
  function Strip<T>(toks: seq<T>, k: nat): seq<T>
    decreases |toks|
  {
    if |toks| == 0 then []
    else [toks[0]] + (if |toks| > k + 1 then Strip(toks[k + 1..], k) else [])
  }

  /** Deleting the delimiter runs recovers exactly the values, in order. */
  lemma {:induction false} StripInterleave<T>(values: seq<T>, delim: seq<T>)
    ensures Strip(Interleave(values, delim), |delim|) == values
    decreases |values|
  {
    var n := |values|;
    if n >= 2 {
      InterleaveCons(values, delim);
      var rest := Interleave(values[1..], delim);
      var toks := [values[0]] + delim + rest;
      InterleaveLength(values[1..], delim);
      assert |rest| >= 1 && toks[0] == values[0];
      assert toks[|delim| + 1..] == rest;
      StripInterleave(values[1..], delim);
      assert values == [values[0]] + values[1..];
    }
  }

  /** Every token of an interleaving is a value or a delimiter token, and
      delimiter tokens occur only between two values. */
  lemma {:induction false} InterleaveElements<T>(values: seq<T>, delim: seq<T>, x: T)
    ensures x in Interleave(values, delim) <==> x in values || (|values| >= 2 && x in delim)
    decreases |values|
  {
    var n := |values|;
    if n >= 2 {
      InterleaveElements(values[..n - 1], delim, x);
      assert values == values[..n - 1] + [values[n - 1]];
      if n - 1 >= 2 {
      } else {
        assert x in delim ==> x in Interleave(values, delim);
      }
    }
  }

  /** Between any two neighbouring values there is exactly one copy of the
      delimiter: the interleaving splits at every value boundary. */
  lemma {:induction false} InterleaveSplit<T>(values: seq<T>, delim: seq<T>, i: nat)
    requires 0 < i < |values|
    ensures Interleave(values, delim)
            == Interleave(values[..i], delim) + delim + Interleave(values[i..], delim)
    decreases |values|
  {
    var n := |values|;
    var init := values[..n - 1];
    var x := values[n - 1];
    assert Interleave(values, delim) == Interleave(init, delim) + delim + [x];
    if i < n - 1 {
      var tail := values[i..];
      InterleaveSplit(init, delim, i);
      assert init[..i] == values[..i];
      assert init[i..] == tail[..|tail| - 1];
      assert tail[|tail| - 1] == x;
      assert Interleave(tail, delim) == Interleave(init[i..], delim) + delim + [x];
      RegroupRight(Interleave(values[..i], delim), delim, Interleave(init[i..], delim), delim, [x]);
    } else {
      assert init == values[..i];
      assert values[i..] == [x];
    }
  }

  /** Concatenation of a list of sequences, as `''.join` and `list.extend` build it. */
  function Flatten<T>(parts: seq<seq<T>>): seq<T>
    decreases |parts|
  {
    if |parts| == 0 then [] else Flatten(parts[..|parts| - 1]) + parts[|parts| - 1]
  }

  lemma {:induction false} FlattenAppend<T>(a: seq<seq<T>>, b: seq<seq<T>>)
    ensures Flatten(a + b) == Flatten(a) + Flatten(b)
    decreases |b|
  {
    if |b| > 0 {
      var n := |b|;
      assert (a + b)[..|a + b| - 1] == a + b[..n - 1];
      FlattenAppend(a, b[..n - 1]);
    } else {
      assert a + b == a;
    }
  }

  /** One iteration of a loop that extends a list with a group of tokens and
      then, unless the group is the last, with the separator tokens `d`. */
  lemma FlattenInterleavedStep<T>(parts: seq<seq<T>>, i: nat, d: seq<T>)
    requires i < |parts|
    ensures Flatten(InterleavedUpTo(parts, i + 1, [d]))
            == Flatten(InterleavedUpTo(parts, i, [d])) + parts[i] + (if i < |parts| - 1 then d else [])
  {
    var before := InterleavedUpTo(parts, i, [d]);
    var tail: seq<seq<T>> := if i < |parts| - 1 then [d] else [];
    InterleaveStep(parts, i, [d]);
    FlattenAppend(before, [parts[i]]);
    FlattenAppend(before + [parts[i]], tail);
    assert Flatten([parts[i]]) == parts[i] by {
      assert [parts[i]][..0] == [];
    }
    if i < |parts| - 1 {
      assert Flatten([d]) == d by {
        assert [d][..0] == [];
      }
    }
  }

  /** The same step seen from a list that already holds `head` in front. */
  lemma PrefixedInterleavedStep<T>(head: seq<T>, parts: seq<seq<T>>, i: nat, d: seq<T>)
    requires i < |parts|
    ensures head + Flatten(InterleavedUpTo(parts, i + 1, [d]))
            == head + Flatten(InterleavedUpTo(parts, i, [d])) + parts[i] + (if i < |parts| - 1 then d else [])
  {
    FlattenInterleavedStep(parts, i, d);
    var done := Flatten(InterleavedUpTo(parts, i, [d]));
    var tail := if i < |parts| - 1 then d else [];
    RegroupTail(head, done, parts[i], tail);
  }

  /** Regrouping the last three parts of a four-part concatenation. */
  lemma RegroupTail<T>(a: seq<T>, b: seq<T>, c: seq<T>, d: seq<T>)
    ensures a + (b + c + d) == a + b + c + d
  {
  }

  /** Regrouping the last three parts of a five-part concatenation. */
  lemma RegroupRight<T>(a: seq<T>, b: seq<T>, c: seq<T>, d: seq<T>, e: seq<T>)
    ensures a + b + c + d + e == a + b + (c + d + e)
  {
  }

  /** Regrouping the middle of a five-part concatenation. */
  lemma RegroupMiddle<T>(a: seq<T>, b: seq<T>, c: seq<T>, d: seq<T>, e: seq<T>)
    ensures a + (b + c + d) + e == a + b + c + d + e
  {
  }

  /** Regrouping the second and third parts of a four-part concatenation. */
  lemma RegroupPair<T>(a: seq<T>, b: seq<T>, c: seq<T>, d: seq<T>)
    ensures a + (b + c) + d == a + b + c + d
  {
  }

  /** A token of a flattened list comes from one of its parts. */
  lemma {:induction false} FlattenMember<T>(parts: seq<seq<T>>, x: T)
    ensures x in Flatten(parts) <==> exists j :: 0 <= j < |parts| && x in parts[j]
    decreases |parts|
  {
    if |parts| > 0 {
      FlattenMember(parts[..|parts| - 1], x);
    }
  }

  /** Python's `sep.join(parts)`. */
  function Join(parts: seq<string>, sep: string): string
  {
    Flatten(Interleave(parts, [sep]))
  }

  /** Joining more than one part: the join of all but the last, the
      separator, then the last part. */
  lemma JoinSnoc(parts: seq<string>, sep: string)
    requires |parts| >= 2
    ensures Join(parts, sep) == Join(parts[..|parts| - 1], sep) + sep + parts[|parts| - 1]
  {
    var n := |parts|;
    var init := Interleave(parts[..n - 1], [sep]);
    assert Interleave(parts, [sep]) == init + [sep] + [parts[n - 1]];
    FlattenAppend(init + [sep], [parts[n - 1]]);
    FlattenAppend(init, [sep]);
    assert Flatten([sep]) == sep by {
      assert [sep][..0] == [];
    }
    assert Flatten([parts[n - 1]]) == parts[n - 1] by {
      assert [parts[n - 1]][..0] == [];
    }
  }

  lemma JoinNone(sep: string)
    ensures Join([], sep) == ""
  {
  }

  lemma JoinOne(part: string, sep: string)
    ensures Join([part], sep) == part
  {
    assert Flatten([part]) == Flatten([]) + part;
  }
}
