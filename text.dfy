/** String operations of the JavaScript runtime that the generator relies on. */
module Text {

  predicate StartsWith(s: string, p: string)
  {
    |p| <= |s| && s[..|p|] == p
  }

  predicate EndsWith(s: string, p: string)
  {
    |p| <= |s| && s[|s| - |p|..] == p
  }

  /** `s.includes(t)`. */
  predicate Contains(s: string, t: string)
  {
    exists i | 0 <= i <= |s| :: StartsWith(s[i..], t)
  }

  /** `s.split(c)` for a one-character separator: never empty, `""` gives `[""]`. */
  function Split(s: string, c: char): (r: seq<string>)
    ensures |r| >= 1
  {
    if s == [] then [""]
    else
      var rest := Split(s[1..], c);
      if s[0] == c then [""] + rest else [[s[0]] + rest[0]] + rest[1..]
  }

  /** `xs.join(sep)`. */
  function Join(xs: seq<string>, sep: string): string
  {
    if |xs| == 0 then ""
    else if |xs| == 1 then xs[0]
    else xs[0] + sep + Join(xs[1..], sep)
  }

  /** `t` occurs in `a + t + b`. */
  lemma ContainsMiddle(a: string, t: string, b: string)
    ensures Contains(a + t + b, t)
  {
    var s := a + t + b;
    assert s[|a|..][..|t|] == t;
  }

  /** Each piece of a joined list lies between a prefix and a suffix of the text. */
  lemma {:induction false} JoinPiece(xs: seq<string>, sep: string, k: nat) returns (a: string, b: string)
    requires k < |xs|
    ensures Join(xs, sep) == a + xs[k] + b
  {
    if |xs| == 1 {
      a, b := "", "";
    } else if k == 0 {
      a, b := "", sep + Join(xs[1..], sep);
    } else {
      var a', b' := JoinPiece(xs[1..], sep, k - 1);
      a, b := xs[0] + sep + a', b';
    }
  }

  /** Each piece of a joined list occurs in any text around the join. */
  lemma ContainsJoined(pre: string, xs: seq<string>, sep: string, p1: string, p2: string, k: nat)
    requires k < |xs|
    ensures Contains(pre + Join(xs, sep) + p1 + p2, xs[k])
  {
    var a, b := JoinPiece(xs, sep, k);
    ContainsMiddle(a, xs[k], b);
    var j := Join(xs, sep);
    ContainsMiddle(pre, j, p1 + p2);
    assert pre + j + p1 + p2 == pre + j + (p1 + p2);
    ContainsTrans(pre + j + p1 + p2, j, xs[k]);
  }

  /** A text that starts with `p + q` starts with `p` and any start of `q`. */
  lemma StartsWithNarrow(s: string, p: string, q: string, r: string)
    requires StartsWith(s, p + q) && StartsWith(q, r)
    ensures StartsWith(s, p + r)
  {
    assert (p + q)[..|p + r|] == p + r;
  }

  /** Containment is transitive. */
  lemma ContainsTrans(s: string, t: string, u: string)
    requires Contains(s, t) && Contains(t, u)
    ensures Contains(s, u)
  {
    var i :| 0 <= i <= |s| && StartsWith(s[i..], t);
    var j :| 0 <= j <= |t| && StartsWith(t[j..], u);
    forall k | 0 <= k < |u| ensures s[i + j + k] == u[k] {
      assert t[j..][k] == u[k];
      assert s[i..][j + k] == t[j + k];
    }
    assert s[i + j..][..|u|] == u;
  }

  lemma {:induction false} SplitNoSeparator(s: string, c: char)
    ensures forall i | 0 <= i < |Split(s, c)| :: c !in Split(s, c)[i]
  {
    if s != [] {
      SplitNoSeparator(s[1..], c);
    }
  }

  lemma {:induction false} SplitWithout(s: string, c: char)
    requires c !in s
    ensures Split(s, c) == [s]
  {
    if s != [] {
      SplitWithout(s[1..], c);
      assert [s[0]] + s[1..] == s;
    }
  }

  /** Splitting `a + [c] + b` at `c` splits `a` and `b` separately. */
  lemma {:induction false} SplitAppend(a: string, b: string, c: char)
    ensures Split(a + [c] + b, c) == Split(a, c) + Split(b, c)
  {
    if a == [] {
      assert a + [c] + b == [c] + b;
      assert ([c] + b)[1..] == b;
    } else {
      assert (a + [c] + b)[1..] == a[1..] + [c] + b;
      SplitAppend(a[1..], b, c);
    }
  }

  lemma {:induction false} JoinSplit(s: string, c: char)
    ensures Join(Split(s, c), [c]) == s
  {
    if s != [] {
      JoinSplit(s[1..], c);
      var rest := Split(s[1..], c);
      if s[0] == c {
        assert Split(s, c) == [""] + rest;
        assert ([""] + rest)[1..] == rest;
        assert s == [c] + s[1..];
      } else {
        var r := [[s[0]] + rest[0]] + rest[1..];
        assert Split(s, c) == r;
        if |rest| == 1 {
          assert s == [s[0]] + s[1..];
        } else {
          assert r[1..] == rest[1..];
          assert Join(rest, [c]) == rest[0] + [c] + Join(rest[1..], [c]);
          assert s == [s[0]] + s[1..];
        }
      }
    }
  }

  /** Joining separator-free pieces and splitting again gives the pieces back. */
  lemma {:induction false} SplitJoin(xs: seq<string>, c: char)
    requires |xs| >= 1
    requires forall i | 0 <= i < |xs| :: c !in xs[i]
    ensures Split(Join(xs, [c]), c) == xs
  {
    if |xs| == 1 {
      SplitWithout(xs[0], c);
    } else {
      SplitJoin(xs[1..], c);
      SplitWithout(xs[0], c);
      SplitAppend(xs[0], Join(xs[1..], [c]), c);
      assert xs == [xs[0]] + xs[1..];
    }
  }

  lemma SplitTwo(a: string, b: string, c: char)
    requires c !in a && c !in b
    ensures Split(a + [c] + b, c) == [a, b]
  {
    SplitAppend(a, b, c);
    SplitWithout(a, c);
    SplitWithout(b, c);
  }

  lemma SplitThree(a: string, b: string, d: string, c: char)
    requires c !in a && c !in b && c !in d
    ensures Split(a + [c] + b + [c] + d, c) == [a, b, d]
  {
    SplitAppend(a + [c] + b, d, c);
    SplitTwo(a, b, c);
    SplitWithout(d, c);
  }

  /** Joining is injective on separator-free pieces. */
  lemma JoinInjective(xs: seq<string>, ys: seq<string>, c: char)
    requires |xs| >= 1 && |ys| >= 1
    requires forall i | 0 <= i < |xs| :: c !in xs[i]
    requires forall i | 0 <= i < |ys| :: c !in ys[i]
    ensures Join(xs, [c]) == Join(ys, [c]) <==> xs == ys
  {
    if Join(xs, [c]) == Join(ys, [c]) {
      SplitJoin(xs, c);
      SplitJoin(ys, c);
    }
  }

  predicate IsDigit(c: char)
  {
    '0' <= c <= '9'
  }

  predicate IsLetter(c: char)
  {
    'a' <= c <= 'z' || 'A' <= c <= 'Z'
  }

  /** `/^[a-zA-Z_$][0-9a-zA-Z_$]*$/.test(s)`. */
  predicate IsIdentifier(s: string)
  {
    && |s| > 0
    && (IsLetter(s[0]) || s[0] == '_' || s[0] == '$')
    && forall i | 1 <= i < |s| :: IsLetter(s[i]) || IsDigit(s[i]) || s[i] == '_' || s[i] == '$'
  }

  /** A character that `.` in a JavaScript regular expression does not match. */
  predicate IsLineTerminator(c: char)
  {
    c == '\n' || c == '\r' || c == '\U{2028}' || c == '\U{2029}'
  }

  function DigitChar(d: nat): char
    requires d < 10
  {
    "0123456789"[d]
  }

  /** The decimal text of a natural number, as `String(n)`. */
  function NatToString(n: nat): (r: string)
    ensures |r| >= 1 && forall i | 0 <= i < |r| :: IsDigit(r[i])
  {
    if n < 10 then [DigitChar(n)] else NatToString(n / 10) + [DigitChar(n % 10)]
  }

  function HexDigit(d: nat): char
    requires d < 16
  {
    "0123456789abcdef"[d]
  }

  /** The JSON escape of one character inside a string literal. */
  function JsonChar(c: char): string
  {
    if c == '"' then "\\\""
    else if c == '\\' then "\\\\"
    else if c == '\n' then "\\n"
    else if c == '\r' then "\\r"
    else if c == '\t' then "\\t"
    else if c == '\U{0008}' then "\\b"
    else if c == '\U{000C}' then "\\f"
    else if (c as int) < 0x20 then "\\u00" + [HexDigit((c as int) / 16), HexDigit((c as int) % 16)]
    else [c]
  }

  function JsonEscape(s: string): string
  {
    if s == [] then "" else JsonChar(s[0]) + JsonEscape(s[1..])
  }

  /** `JSON.stringify(s)` for a string. */
  function JsonString(s: string): string
  {
    "\"" + JsonEscape(s) + "\""
  }

  /** `JSON.stringify(xs)` for an array of strings: no spaces after the commas. */
  function JsonStringArray(xs: seq<string>): string
  {
    "[" + Join(seq(|xs|, i requires 0 <= i < |xs| => JsonString(xs[i])), ",") + "]"
  }
}
