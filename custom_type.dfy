/**
 * Allow-list type overrides rendered as Zod source (src/handlers.ts:
 * `mapCustomTypeToZodType`, `handleObjectType`, `handleLength`,
 * `handleRegex`, `handleMinMax`).
 */
module CustomType {
  import opened Types
  import opened Text

  /** The end of the maximal run of digits that starts at `i`. */
  function DigitRun(s: string, i: nat): (r: nat)
    requires i <= |s|
    ensures i <= r <= |s|
    ensures forall j | i <= j < r :: IsDigit(s[j])
    ensures r < |s| ==> !IsDigit(s[r])
    decreases |s| - i
  {
    if i < |s| && IsDigit(s[i]) then DigitRun(s, i + 1) else i
  }

  /** `/length\((\d+),(\d+)\)/` matched at position `i`: its two groups. */
  function LengthAt(s: string, i: nat): Option<(string, string)>
    requires i <= |s|
  {
    if !StartsWith(s[i..], "length(") then None
    else
      var a := i + 7;
      var ae := DigitRun(s, a);
      if !(a < ae < |s| && s[ae] == ',') then None
      else
        var b := ae + 1;
        var be := DigitRun(s, b);
        if !(b < be < |s| && s[be] == ')') then None
        else Some((s[a..ae], s[b..be]))
  }

  /** The leftmost match at or after `i`. */
  function LengthFrom(s: string, i: nat): Option<(string, string)>
    requires i <= |s|
    decreases |s| - i
  {
    match LengthAt(s, i)
    case Some(m) => Some(m)
    case None => if i == |s| then None else LengthFrom(s, i + 1)
  }

  /**
   * `length(a,b)` with decimal `a` and `b` occurs at `i`: the opening text
   * ends before `a`, the comma is at index `c` and the closing parenthesis at `e`.
   */
  predicate LengthMatch(s: string, i: nat, c: nat, e: nat)
  {
    && i + 7 < c && c + 1 < e < |s|
    && s[i..i + 7] == "length(" && Digits(s[i + 7..c]) && s[c] == ',' && Digits(s[c + 1..e]) && s[e] == ')'
  }

  /** `handleLength(typeStr)`: `z.any()` exactly when the pattern occurs nowhere. */
  function HandleLength(s: string): (r: string)
    ensures r == "z.any()" <==> !exists i: nat, c: nat, e: nat :: LengthMatch(s, i, c, e)
    ensures StartsWith(r, "z.")
  {
    LengthFromIff(s, 0);
    match LengthFrom(s, 0)
    case Some((lo, hi)) =>
      var t := "z.string().min(" + lo + ").max(" + hi + ")";
      assert t[..2] == "z." && t[2] == 's';
      t
    case None => "z.any()"
  }

  predicate NoLineTerminator(s: string)
  {
    forall j | 0 <= j < |s| :: !IsLineTerminator(s[j])
  }

  /**
   * For `.*` between the slashes, greedy: the largest `j <= hi` with `s[j]`
   * a slash, `s[j + 1]` a closing parenthesis and no line terminator in between.
   */
  function LastClose(s: string, k: nat, hi: int): (r: Option<nat>)
    requires k < |s| && hi < |s| - 1
    ensures r.Some? ==> k < r.value <= hi
    decreases hi
  {
    if hi <= k then None
    else if s[hi] == '/' && s[hi + 1] == ')' && NoLineTerminator(s[k + 1..hi]) then Some(hi)
    else LastClose(s, k, hi - 1)
  }

  /** `/regex\((\/.*\/)\)/` matched at position `i`: its group. */
  function RegexAt(s: string, i: nat): Option<string>
    requires i <= |s|
  {
    if !StartsWith(s[i..], "regex(/") then None
    else
      var k := i + 6;
      match LastClose(s, k, |s| - 2)
      case Some(j) => Some(s[k..j + 1])
      case None => None
  }

  function RegexFrom(s: string, i: nat): Option<string>
    requires i <= |s|
    decreases |s| - i
  {
    match RegexAt(s, i)
    case Some(m) => Some(m)
    case None => if i == |s| then None else RegexFrom(s, i + 1)
  }

  /**
   * `regex(/p/)` occurs at `i` with its closing slash at `j`: `p` holds no
   * line terminator, which `.` does not match.
   */
  predicate RegexMatch(s: string, i: nat, j: nat)
  {
    && i + 6 < j && j + 1 < |s|
    && s[i..i + 7] == "regex(/" && s[j] == '/' && s[j + 1] == ')' && NoLineTerminator(s[i + 7..j])
  }

  /** `handleRegex(typeStr)`: `z.any()` exactly when the pattern occurs nowhere. */
  function HandleRegex(s: string): (r: string)
    ensures r == "z.any()" <==> !exists i: nat, j: nat :: RegexMatch(s, i, j)
    ensures StartsWith(r, "z.")
  {
    RegexFromIff(s, 0);
    match RegexFrom(s, 0)
    case Some(p) =>
      var t := "z.string().regex(" + p + ")";
      assert t[..2] == "z." && t[2] == 's';
      t
    case None => "z.any()"
  }

  /** `/(min|max)\((\d+)\)/` matched at position `i`: its two groups. */
  function MinMaxAt(s: string, i: nat): Option<(string, string)>
    requires i <= |s|
  {
    if !(StartsWith(s[i..], "min(") || StartsWith(s[i..], "max(")) then None
    else
      var a := i + 4;
      var ae := DigitRun(s, a);
      if !(a < ae < |s| && s[ae] == ')') then None
      else Some((s[i..i + 3], s[a..ae]))
  }

  function MinMaxFrom(s: string, i: nat): Option<(string, string)>
    requires i <= |s|
    decreases |s| - i
  {
    match MinMaxAt(s, i)
    case Some(m) => Some(m)
    case None => if i == |s| then None else MinMaxFrom(s, i + 1)
  }

  /** `min(n)` or `max(n)` with decimal `n` occurs at `i`, its closing parenthesis at `e`. */
  predicate MinMaxMatch(s: string, i: nat, e: nat)
  {
    && i + 4 < e < |s|
    && (s[i..i + 4] == "min(" || s[i..i + 4] == "max(") && Digits(s[i + 4..e]) && s[e] == ')'
  }

  /** `handleMinMax(typeStr)`: `z.any()` exactly when the pattern occurs nowhere. */
  function HandleMinMax(s: string): (r: string)
    ensures r == "z.any()" <==> !exists i: nat, e: nat :: MinMaxMatch(s, i, e)
    ensures StartsWith(r, "z.")
  {
    MinMaxFromIff(s, 0);
    match MinMaxFrom(s, 0)
    case Some((m, n)) =>
      var t := "z.number()." + m + "(" + n + ")";
      assert t[..2] == "z." && t[2] == 'n';
      t
    case None => "z.any()"
  }

  /** The fixed table of named custom types. */
  function NamedCustomType(base: string): (r: string)
    ensures StartsWith(r, "z.")
  {
    match base
    case "email" => "z.string().email()"
    case "uuid" => "z.string().uuid()"
    case "url" => "z.string().url()"
    case "currency" =>
      var t := "z.string().regex(/^[A-Z]{3}$/)";
      assert t[..2] == "z.";
      t
    case "nonempty" => "z.string().min(1)"
    case "string" => "z.string()"
    case "number" => "z.number()"
    case "boolean" => "z.boolean()"
    case _ => "z.any()"
  }

  /** The type a custom type string names, without its optional marker. */
  function CustomBase(base: string): (r: string)
    ensures StartsWith(r, "z.")
  {
    if StartsWith(base, "length") then HandleLength(base)
    else if StartsWith(base, "regex") then HandleRegex(base)
    else if StartsWith(base, "min") || StartsWith(base, "max") then HandleMinMax(base)
    else NamedCustomType(base)
  }

  /** `mapCustomTypeToZodType` for a string: a trailing `?` makes the type nullish. */
  function MapCustomString(t: string): string
  {
    var isOptional := EndsWith(t, "?");
    var base := if isOptional then t[..|t| - 1] else t;
    CustomBase(base) + (if isOptional then ".nullish()" else "")
  }

  /**
   * `mapCustomTypeToZodType(type)`: every override renders as Zod source; a
   * value that is neither a string nor an object gives `z.any()`.
   */
  function MapCustomTypeToZodType(t: TypeSpec): (r: string)
    ensures StartsWith(r, "z.")
    ensures t.TOther? ==> r == "z.any()"
    decreases t, 1
  {
    match t
    case TStr(s) => MapCustomStringZod(s); MapCustomString(s)
    case TOther(_) => "z.any()"
    case _ => HandleObjectType(t)
  }

  lemma MapCustomStringZod(t: string)
    ensures StartsWith(MapCustomString(t), "z.")
  {
    var isOptional := EndsWith(t, "?");
    var base := if isOptional then t[..|t| - 1] else t;
    var b := CustomBase(base);
    assert (b + (if isOptional then ".nullish()" else ""))[..2] == "z.";
  }

  /**
   * `handleObjectType(type)`: an array maps its first element inside
   * `z.array(...)`; anything else becomes a `z.object({ ... })` with one
   * `key: type` entry per own property (for a string, per character index;
   * a number or a boolean has none).
   */
  function HandleObjectType(t: TypeSpec): (r: string)
    ensures t.TArr? ==> StartsWith(r, "z.array(") && EndsWith(r, ")")
    ensures !t.TArr? ==> StartsWith(r, "z.object({ ") && EndsWith(r, " })")
    decreases t, 0
  {
    match t
    case TArr(h) =>
      var r := "z.array(" + HandleObjectType(h) + ")";
      assert r[..8] == "z.array(" && r[|r| - 1..] == ")";
      r
    case TObj(es) =>
      ObjectLiteral(seq(|es|, i requires 0 <= i < |es| => es[i].0 + ": " + MapCustomTypeToZodType(es[i].1)))
    case TStr(s) =>
      ObjectLiteral(seq(|s|, i requires 0 <= i < |s| => NatToString(i) + ": " + MapCustomString([s[i]])))
    case TOther(_) => ObjectLiteral([])
  }

  /** `z.object({ ${entries.join(', ')} })`. */
  function ObjectLiteral(entries: seq<string>): (r: string)
    ensures StartsWith(r, "z.object({ ") && EndsWith(r, " })")
  {
    var r := "z.object({ " + Join(entries, ", ") + " })";
    assert r[..11] == "z.object({ " && r[|r| - 3..] == " })";
    r
  }

  /**
   * The imperative rendering: `zodType` starts as `z.any()` and is reassigned
   * by the branch that applies.
   */
  method MapCustomType(t: TypeSpec) returns (zodType: string)
    ensures zodType == MapCustomTypeToZodType(t)
  {
    zodType := "z.any()";
    if t.TStr? {
      var isOptional := EndsWith(t.s, "?");
      var baseTypeStr := if isOptional then t.s[..|t.s| - 1] else t.s;
      if StartsWith(baseTypeStr, "length") {
        zodType := HandleLength(baseTypeStr);
      } else if StartsWith(baseTypeStr, "regex") {
        zodType := HandleRegex(baseTypeStr);
      } else if StartsWith(baseTypeStr, "min") || StartsWith(baseTypeStr, "max") {
        zodType := HandleMinMax(baseTypeStr);
      } else {
        zodType := NamedCustomType(baseTypeStr);
      }
      if isOptional {
        zodType := zodType + ".nullish()";
      }
    } else if t.TObj? || t.TArr? {
      zodType := HandleObjectType(t);
    }
  }

  lemma DigitRunOver(s: string, i: nat, d: string)
    requires i + |d| <= |s| && s[i..i + |d|] == d
    requires forall j | 0 <= j < |d| :: IsDigit(d[j])
    requires i + |d| < |s| ==> !IsDigit(s[i + |d|])
    ensures DigitRun(s, i) == i + |d|
    decreases |d|
  {
    if |d| > 0 {
      assert s[i] == d[0];
      DigitRunOver(s, i + 1, d[1..]);
    }
  }

  predicate Digits(d: string)
  {
    |d| > 0 && forall j | 0 <= j < |d| :: IsDigit(d[j])
  }

  /** `length(a,b)` with decimal bounds maps to a string of that length range. */
  lemma LengthForm(lo: string, hi: string)
    requires Digits(lo) && Digits(hi)
    ensures HandleLength("length(" + lo + "," + hi + ")") == "z.string().min(" + lo + ").max(" + hi + ")"
  {
    var s := "length(" + lo + "," + hi + ")";
    assert s[0..][..7] == "length(";
    assert s[7..7 + |lo|] == lo;
    DigitRunOver(s, 7, lo);
    assert s[7 + |lo|] == ',';
    var b := 8 + |lo|;
    assert s[b..b + |hi|] == hi;
    DigitRunOver(s, b, hi);
    assert s[b + |hi|] == ')';
    assert LengthAt(s, 0) == Some((lo, hi));
  }

  /** `min(n)` and `max(n)` map to the numeric bound of the same name. */
  lemma MinMaxForm(m: string, n: string)
    requires m == "min" || m == "max"
    requires Digits(n)
    ensures HandleMinMax(m + "(" + n + ")") == "z.number()." + m + "(" + n + ")"
  {
    var s := m + "(" + n + ")";
    assert s[0..][..4] == m + "(";
    assert s[4..4 + |n|] == n;
    DigitRunOver(s, 4, n);
    assert s[4 + |n|] == ')';
    assert s[0..3] == m;
    assert MinMaxAt(s, 0) == Some((m, n));
  }

  /** `regex(/p/)` maps to a string refined by the literal `/p/`, for a one-line `p`. */
  lemma RegexForm(p: string)
    requires NoLineTerminator(p)
    ensures HandleRegex("regex(/" + p + "/)") == "z.string().regex(/" + p + "/)"
  {
    var s := "regex(/" + p + "/)";
    assert s[0..][..7] == "regex(/";
    var hi := |s| - 2;
    assert s[hi] == '/' && s[hi + 1] == ')';
    assert s[7..hi] == p;
    assert LastClose(s, 6, hi) == Some(hi);
    assert s[6..hi + 1] == "/" + p + "/";
    assert RegexAt(s, 0) == Some("/" + p + "/");
  }

  lemma DigitsSlice(s: string, a: nat, b: nat)
    requires a < b <= |s| && forall j | a <= j < b :: IsDigit(s[j])
    ensures Digits(s[a..b])
  {
    forall k | 0 <= k < b - a
      ensures IsDigit(s[a..b][k])
    {
      assert s[a..b][k] == s[a + k];
    }
  }

  /** A match at `i` is the one `LengthAt` reads there. */
  lemma LengthAtIff(s: string, i: nat)
    requires i <= |s|
    ensures LengthAt(s, i).Some? <==> exists c: nat, e: nat :: LengthMatch(s, i, c, e)
  {
    if LengthAt(s, i).Some? {
      LengthAtMatch(s, i);
    }
    if exists c: nat, e: nat :: LengthMatch(s, i, c, e) {
      var c: nat, e: nat :| LengthMatch(s, i, c, e);
      MatchLengthAt(s, i, c, e);
    }
  }

  lemma LengthAtMatch(s: string, i: nat)
    requires i <= |s| && LengthAt(s, i).Some?
    ensures LengthMatch(s, i, DigitRun(s, i + 7), DigitRun(s, DigitRun(s, i + 7) + 1))
  {
    var c := DigitRun(s, i + 7);
    var e := DigitRun(s, c + 1);
    assert s[i..][..7] == s[i..i + 7];
    DigitsSlice(s, i + 7, c);
    DigitsSlice(s, c + 1, e);
  }

  lemma MatchLengthAt(s: string, i: nat, c: nat, e: nat)
    requires LengthMatch(s, i, c, e)
    ensures LengthAt(s, i) == Some((s[i + 7..c], s[c + 1..e]))
  {
    assert s[i..][..7] == s[i..i + 7];
    DigitRunOver(s, i + 7, s[i + 7..c]);
    DigitRunOver(s, c + 1, s[c + 1..e]);
  }

  /** The scan from `i` finds a match exactly when one starts at or after `i`. */
  lemma {:induction false} LengthFromIff(s: string, i: nat)
    requires i <= |s|
    ensures LengthFrom(s, i).Some? <==> exists j: nat, c: nat, e: nat | i <= j :: LengthMatch(s, j, c, e)
    decreases |s| - i
  {
    LengthAtIff(s, i);
    if i < |s| {
      LengthFromIff(s, i + 1);
      if exists j: nat, c: nat, e: nat | i <= j :: LengthMatch(s, j, c, e) {
        var j: nat, c: nat, e: nat :| i <= j && LengthMatch(s, j, c, e);
        if j == i {
          assert LengthAt(s, i).Some?;
        } else {
          assert i + 1 <= j;
        }
      }
      if LengthFrom(s, i + 1).Some? {
        var j: nat, c: nat, e: nat :| i + 1 <= j && LengthMatch(s, j, c, e);
        assert i <= j;
      }
    }
  }

  /** A closing `/)` at `j` after the opening slash at `k`, with one line in between. */
  predicate CloseAt(s: string, k: nat, j: nat)
  {
    k < j && j + 1 < |s| && s[j] == '/' && s[j + 1] == ')' && NoLineTerminator(s[k + 1..j])
  }

  lemma {:induction false} LastCloseIff(s: string, k: nat, hi: int)
    requires k < |s| && hi < |s| - 1
    ensures LastClose(s, k, hi).Some? <==> exists j: nat | j <= hi :: CloseAt(s, k, j)
    decreases hi
  {
    if hi > k && !CloseAt(s, k, hi) {
      LastCloseIff(s, k, hi - 1);
      if exists j: nat | j <= hi :: CloseAt(s, k, j) {
        var j: nat :| j <= hi && CloseAt(s, k, j);
        assert j <= hi - 1;
      }
    }
  }

  lemma RegexAtIff(s: string, i: nat)
    requires i <= |s|
    ensures RegexAt(s, i).Some? <==> exists j: nat :: RegexMatch(s, i, j)
  {
    if exists j: nat :: RegexMatch(s, i, j) {
      var j: nat :| RegexMatch(s, i, j);
      assert s[i..][..7] == s[i..i + 7];
      assert StartsWith(s[i..], "regex(/");
      LastCloseIff(s, i + 6, |s| - 2);
      assert CloseAt(s, i + 6, j);
    }
    if RegexAt(s, i).Some? {
      assert s[i..][..7] == s[i..i + 7];
      LastCloseIff(s, i + 6, |s| - 2);
      var j: nat :| j <= |s| - 2 && CloseAt(s, i + 6, j);
      assert RegexMatch(s, i, j);
    }
  }

  lemma {:induction false} RegexFromIff(s: string, i: nat)
    requires i <= |s|
    ensures RegexFrom(s, i).Some? <==> exists k: nat, j: nat | i <= k :: RegexMatch(s, k, j)
    decreases |s| - i
  {
    RegexAtIff(s, i);
    if i < |s| {
      RegexFromIff(s, i + 1);
      if exists k: nat, j: nat | i <= k :: RegexMatch(s, k, j) {
        var k: nat, j: nat :| i <= k && RegexMatch(s, k, j);
        if k == i {
          assert RegexAt(s, i).Some?;
        } else {
          assert i + 1 <= k;
        }
      }
      if RegexFrom(s, i + 1).Some? {
        var k: nat, j: nat :| i + 1 <= k && RegexMatch(s, k, j);
        assert i <= k;
      }
    }
  }

  lemma MinMaxAtIff(s: string, i: nat)
    requires i <= |s|
    ensures MinMaxAt(s, i).Some? <==> exists e: nat :: MinMaxMatch(s, i, e)
  {
    if MinMaxAt(s, i).Some? {
      var e := DigitRun(s, i + 4);
      assert s[i..][..4] == s[i..i + 4];
      DigitsSlice(s, i + 4, e);
      assert MinMaxMatch(s, i, e);
    }
    if exists e: nat :: MinMaxMatch(s, i, e) {
      var e: nat :| MinMaxMatch(s, i, e);
      assert s[i..][..4] == s[i..i + 4];
      DigitRunOver(s, i + 4, s[i + 4..e]);
    }
  }

  lemma {:induction false} MinMaxFromIff(s: string, i: nat)
    requires i <= |s|
    ensures MinMaxFrom(s, i).Some? <==> exists j: nat, e: nat | i <= j :: MinMaxMatch(s, j, e)
    decreases |s| - i
  {
    MinMaxAtIff(s, i);
    if i < |s| {
      MinMaxFromIff(s, i + 1);
      if exists j: nat, e: nat | i <= j :: MinMaxMatch(s, j, e) {
        var j: nat, e: nat :| i <= j && MinMaxMatch(s, j, e);
        if j == i {
          assert MinMaxAt(s, i).Some?;
        } else {
          assert i + 1 <= j;
        }
      }
      if MinMaxFrom(s, i + 1).Some? {
        var j: nat, e: nat :| i + 1 <= j && MinMaxMatch(s, j, e);
        assert i <= j;
      }
    }
  }

  /** The eight names of the fixed table. */
  const NamedTypes: seq<string> := ["email", "uuid", "url", "currency", "nonempty", "string", "number", "boolean"]

  /**
   * A base type is `z.any()` exactly when the form its prefix selects occurs
   * nowhere in it, or, without such a prefix, when it is not a table name.
   */
  lemma UnmatchedAreAny(base: string)
    ensures CustomBase(base) == "z.any()" <==>
      if StartsWith(base, "length") then !exists i: nat, c: nat, e: nat :: LengthMatch(base, i, c, e)
      else if StartsWith(base, "regex") then !exists i: nat, j: nat :: RegexMatch(base, i, j)
      else if StartsWith(base, "min") || StartsWith(base, "max") then !exists i: nat, e: nat :: MinMaxMatch(base, i, e)
      else base !in NamedTypes
  {
    NamedTypesExact(base);
  }

  /** A trailing `?` appends `.nullish()` to the type of the rest. */
  lemma OptionalMarker(t: string)
    ensures MapCustomString(t + "?") == CustomBase(t) + ".nullish()"
    ensures !EndsWith(t, "?") ==> MapCustomString(t) == CustomBase(t)
  {
    assert (t + "?")[..|t|] == t;
  }

  /** Only the eight table names escape `z.any()`. */
  lemma NamedTypesExact(base: string)
    ensures NamedCustomType(base) != "z.any()"
        <==> base in NamedTypes
  {
  }
}
