/**
 * The few pieces of JavaScript string behaviour the screens rely on:
 * `String.prototype.trim`, `Array.prototype.join` on strings, and the
 * substring / suffix relations used to state what a prompt contains.
 */
module JsText {

  /** A code point that `trim()` strips: ECMAScript WhiteSpace (section 12.2
      of ECMAScript 2023: TAB, VT, FF, SP, NBSP, ZWNBSP and every Unicode
      space separator) or LineTerminator (section 12.3: LF, CR, LS, PS). */
  predicate IsJsWhitespace(c: char)
  {
    || c == '\t' || c == '\U{000B}' || c == '\U{000C}' || c == ' '
    || c == '\U{00A0}' || c == '\U{FEFF}' || c == '\U{1680}'
    || ('\U{2000}' <= c <= '\U{200A}')
    || c == '\U{202F}' || c == '\U{205F}' || c == '\U{3000}'
    || c == '\n' || c == '\r' || c == '\U{2028}' || c == '\U{2029}'
  }

  predicate AllWhitespace(s: string)
  {
    forall i :: 0 <= i < |s| ==> IsJsWhitespace(s[i])
  }

  /** Strips leading whitespace: the result is a suffix of `s`, what was cut
      off is all whitespace, and the result does not start with whitespace. */
  function TrimStart(s: string): (r: string)
    ensures |r| <= |s| && r == s[|s| - |r|..]
    ensures forall i :: 0 <= i < |s| - |r| ==> IsJsWhitespace(s[i])
    ensures r == [] || !IsJsWhitespace(r[0])
  {
    if s != [] && IsJsWhitespace(s[0]) then TrimStart(s[1..]) else s
  }

  /** Strips trailing whitespace: the result is a prefix of `s`, what was cut
      off is all whitespace, and the result does not end with whitespace. */
  function TrimEnd(s: string): (r: string)
    ensures |r| <= |s| && r == s[..|r|]
    ensures forall i :: |r| <= i < |s| ==> IsJsWhitespace(s[i])
    ensures r == [] || !IsJsWhitespace(r[|r| - 1])
  {
    if s != [] && IsJsWhitespace(s[|s| - 1]) then TrimEnd(s[..|s| - 1]) else s
  }

  /** `s.trim()`. It is empty exactly when every character of `s` is
      whitespace, and otherwise neither starts nor ends with whitespace. */
  function Trim(s: string): (r: string)
    ensures |r| <= |s|
    ensures r == [] <==> AllWhitespace(s)
    ensures r != [] ==> !IsJsWhitespace(r[0]) && !IsJsWhitespace(r[|r| - 1])
  {
    TrimEmptyIff(s);
    TrimEnd(TrimStart(s))
  }

  lemma TrimEmptyIff(s: string)
    ensures var r := TrimEnd(TrimStart(s));
            && |r| <= |s|
            && (r == [] <==> AllWhitespace(s))
            && (r != [] ==> !IsJsWhitespace(r[0]) && !IsJsWhitespace(r[|r| - 1]))
  {
    var t := TrimStart(s);
    var r := TrimEnd(t);
    var k := |s| - |t|;
    if r == [] {
      if t != [] {
        assert false;
      }
    } else {
      assert r[0] == t[0];
      assert t[0] == s[k];
    }
  }

  /** `trim()` cuts off a whitespace prefix and a whitespace suffix and
      keeps what lies between them. */
  lemma TrimIsMiddle(s: string)
    ensures var a := |s| - |TrimStart(s)|;
            && a + |Trim(s)| <= |s|
            && Trim(s) == s[a..a + |Trim(s)|]
            && AllWhitespace(s[..a]) && AllWhitespace(s[a + |Trim(s)|..])
  {
    var t := TrimStart(s);
    var r := TrimEnd(t);
    var a := |s| - |t|;
    assert t == s[a..];
    SliceOfSuffix(s, a, |r|);
    WhitespaceSlice(s, 0, a);
    WhitespaceSlice(t, |r|, |t|);
    assert s[..a] == s[0..a];
    assert t[|r|..|t|] == s[a + |r|..];
  }

  lemma SliceOfSuffix(s: string, a: nat, n: nat)
    requires a + n <= |s|
    ensures s[a..][..n] == s[a..a + n]
  {
  }

  /** A run of whitespace characters is an all-whitespace slice. */
  lemma WhitespaceSlice(s: string, lo: nat, hi: nat)
    requires lo <= hi <= |s|
    requires forall i :: lo <= i < hi ==> IsJsWhitespace(s[i])
    ensures AllWhitespace(s[lo..hi])
  {
    forall i | 0 <= i < hi - lo ensures IsJsWhitespace(s[lo..hi][i]) {
      assert s[lo..hi][i] == s[lo + i];
    }
  }

  /** `xs.join(sep)`: the elements in order with `sep` between neighbours. */
  function Join(xs: seq<string>, sep: string): string
  {
    if xs == [] then "" else if |xs| == 1 then xs[0] else xs[0] + sep + Join(xs[1..], sep)
  }

  /** A template literal: its literal pieces and substitutions, in order,
      concatenated. */
  function Concat(parts: seq<string>): string
  {
    if parts == [] then "" else parts[0] + Concat(parts[1..])
  }

  lemma {:induction false} ConcatAppend(a: seq<string>, b: seq<string>)
    ensures Concat(a + b) == Concat(a) + Concat(b)
  {
    if a == [] {
      assert a + b == b;
    } else {
      assert (a + b)[1..] == a[1..] + b;
      ConcatAppend(a[1..], b);
    }
  }

  /** A character of the first part is a character of the whole. */
  lemma ConcatIndexInHead(parts: seq<string>, k: nat)
    requires parts != [] && k < |parts[0]|
    ensures k < |Concat(parts)| && Concat(parts)[k] == parts[0][k]
  {
  }

  lemma ConcatPair(x: string, y: string)
    ensures Concat([x]) == x
    ensures Concat([x, y]) == x + y
  {
    assert [x][1..] == [];
    assert [y][1..] == [];
    assert [x, y][1..] == [y];
    assert Concat([y]) == y + "";
    assert y + "" == y;
  }

  /** The text of a template around one of its pieces. */
  lemma ConcatSplit(a: seq<string>, x: string, b: seq<string>)
    ensures Concat(a + [x] + b) == Concat(a) + x + Concat(b)
  {
    ConcatAppend(a + [x], b);
    ConcatAppend(a, [x]);
    ConcatPair(x, "");
  }

  lemma SplitAt(parts: seq<string>, i: nat)
    requires i < |parts|
    ensures parts == parts[..i] + [parts[i]] + parts[i + 1..]
  {
  }

  /** Every piece of a template occurs in the text it builds. */
  lemma ConcatContainsPart(parts: seq<string>, i: nat)
    requires i < |parts|
    ensures Contains(Concat(parts), parts[i])
  {
    var before, after := parts[..i], parts[i + 1..];
    SplitAt(parts, i);
    ConcatSplit(before, parts[i], after);
    ContainsIn(Concat(before), parts[i], Concat(after));
  }

  /** A text ends with the pieces appended last. */
  lemma EndsWithLast(x: string, a: string, b: string, c: string)
    ensures EndsWith(x + a + b + c, a + b + c)
  {
    assert x + a + b + c == x + (a + b + c);
    assert (x + (a + b + c))[|x|..] == a + b + c;
  }

  /** The middle of two texts with the same frame is the same. */
  lemma FramedEqual(x: string, u1: string, u2: string, y: string)
    requires x + u1 + y == x + u2 + y
    ensures u1 == u2
  {
    var s1, s2 := x + u1 + y, x + u2 + y;
    assert |u1| == |u2|;
    assert s1[|x|..|x| + |u1|] == u1;
    assert s2[|x|..|x| + |u2|] == u2;
  }

  function TotalLength(xs: seq<string>): nat
  {
    if xs == [] then 0 else |xs[0]| + TotalLength(xs[1..])
  }

  /** `t` occurs in `s` starting at index `k`. */
  predicate OccursAt(s: string, t: string, k: int)
  {
    0 <= k <= |s| - |t| && s[k..k + |t|] == t
  }

  /** `s.includes(t)`. */
  predicate Contains(s: string, t: string)
  {
    exists k | 0 <= k <= |s| - |t| :: OccursAt(s, t, k)
  }

  /** `s.endsWith(t)`. */
  predicate EndsWith(s: string, t: string)
  {
    |t| <= |s| && s[|s| - |t|..] == t
  }

  /** Joining adds exactly one separator between each pair of neighbours. */
  lemma {:induction false} JoinLength(xs: seq<string>, sep: string)
    requires xs != []
    ensures |Join(xs, sep)| == TotalLength(xs) + (|xs| - 1) * |sep|
  {
    if |xs| > 1 {
      JoinLength(xs[1..], sep);
    } else {
      assert xs[1..] == [];
    }
  }

  /** Appending an element to a non-empty list appends the separator and the
      element to its join. */
  lemma {:induction false} JoinSnoc(xs: seq<string>, x: string, sep: string)
    requires xs != []
    ensures Join(xs + [x], sep) == Join(xs, sep) + sep + x
  {
    if |xs| == 1 {
      assert (xs + [x])[1..] == [x];
    } else {
      assert (xs + [x])[1..] == xs[1..] + [x];
      JoinSnoc(xs[1..], x, sep);
    }
  }

  /** Every element appears verbatim in the join. */
  lemma {:induction false} JoinContainsEach(xs: seq<string>, sep: string, i: nat)
    requires i < |xs|
    ensures Contains(Join(xs, sep), xs[i])
  {
    if |xs| == 1 {
      ContainsIn("", xs[0], "");
      assert "" + xs[0] + "" == Join(xs, sep);
    } else if i == 0 {
      ContainsIn("", xs[0], sep + Join(xs[1..], sep));
      assert "" + xs[0] + (sep + Join(xs[1..], sep)) == Join(xs, sep);
    } else {
      JoinContainsEach(xs[1..], sep, i - 1);
      ContainsInSuffix(xs[0] + sep, Join(xs[1..], sep), xs[i]);
    }
  }

  /** A string occurs in any string built around it. */
  lemma ContainsIn(a: string, t: string, b: string)
    ensures Contains(a + t + b, t)
  {
    var s := a + t + b;
    assert s[|a|..|a| + |t|] == t;
    assert OccursAt(s, t, |a|);
  }

  lemma ContainsInSuffix(a: string, s: string, t: string)
    requires Contains(s, t)
    ensures Contains(a + s, t)
  {
    var k :| 0 <= k <= |s| - |t| && OccursAt(s, t, k);
    assert (a + s)[|a| + k..|a| + k + |t|] == s[k..k + |t|];
    assert OccursAt(a + s, t, |a| + k);
  }
}
