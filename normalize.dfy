/** Removal of the `[]` list markers from keys and dotted paths (src/normalize.ts). */
module Normalize {
  import opened Types
  import opened Text

  /**
   * `key.replace(/\[\]/g, '')`: the string is scanned left to right and each
   * `[]` found is dropped; the scan resumes after it, so `[[]]` becomes `[]`.
   */
  function NormalizeKey(key: string): (r: string)
    ensures |r| <= |key|
  {
    if |key| >= 2 && key[0] == '[' && key[1] == ']' then NormalizeKey(key[2..])
    else if key == [] then ""
    else [key[0]] + NormalizeKey(key[1..])
  }

  /** The characters of `s` other than the brackets, in order. */
  function Unbracketed(s: string): string
  {
    if s == [] then ""
    else if s[0] == '[' || s[0] == ']' then Unbracketed(s[1..])
    else [s[0]] + Unbracketed(s[1..])
  }

  lemma UnbracketedIn(s: string, c: char)
    requires c != '[' && c != ']'
    ensures c in Unbracketed(s) <==> c in s
  {
    if s != [] {
      UnbracketedIn(s[1..], c);
      assert s == [s[0]] + s[1..];
    }
  }

  /** Only brackets are ever removed: every other character survives, in order. */
  lemma {:induction false} NormalizeKeyKeepsOthers(key: string)
    ensures Unbracketed(NormalizeKey(key)) == Unbracketed(key)
  {
    if |key| >= 2 && key[0] == '[' && key[1] == ']' {
      NormalizeKeyKeepsOthers(key[2..]);
      assert key[1..][1..] == key[2..];
    } else if key != [] {
      NormalizeKeyKeepsOthers(key[1..]);
      assert ([key[0]] + NormalizeKey(key[1..]))[1..] == NormalizeKey(key[1..]);
    }
  }

  lemma ContainsInTail(s: string, t: string)
    requires s != []
    ensures Contains(s[1..], t) ==> Contains(s, t)
  {
    if Contains(s[1..], t) {
      var i :| 0 <= i <= |s[1..]| && StartsWith(s[1..][i..], t);
      assert s[1..][i..] == s[i + 1..];
    }
  }

  /** A key without any `[]` is returned unchanged. */
  lemma {:induction false} NormalizeKeyWithoutMarker(key: string)
    requires !Contains(key, "[]")
    ensures NormalizeKey(key) == key
  {
    if key != [] {
      assert StartsWith(key[0..], "[]") ==> Contains(key, "[]");
      assert !(|key| >= 2 && key[0] == '[' && key[1] == ']');
      ContainsInTail(key, "[]");
      NormalizeKeyWithoutMarker(key[1..]);
      assert key == [key[0]] + key[1..];
    }
  }

  /** Normalisation is not idempotent: one pass leaves a marker behind in `[[]]`. */
  lemma NormalizeKeyNotIdempotent()
    ensures NormalizeKey("[[]]") == "[]"
    ensures NormalizeKey(NormalizeKey("[[]]")) == ""
  {
    assert "[[]]"[1..] == "[]]";
    assert "[]]"[2..] == "]";
    assert NormalizeKey("]") == "]";
  }

  /** A key with no opening bracket is unchanged. */
  lemma {:induction false} NormalizeKeyPlain(key: string)
    requires '[' !in key
    ensures NormalizeKey(key) == key
  {
    if key != [] {
      NormalizeKeyPlain(key[1..]);
      assert key == [key[0]] + key[1..];
    }
  }

  /** A trailing list marker is dropped from an otherwise plain key. */
  lemma {:induction false} NormalizeKeyListMarker(key: string)
    requires '[' !in key
    ensures NormalizeKey(key + "[]") == key
  {
    if key == [] {
      assert key + "[]" == "[]";
      assert "[]"[2..] == "";
    } else {
      assert (key + "[]")[1..] == key[1..] + "[]";
      NormalizeKeyListMarker(key[1..]);
      assert key == [key[0]] + key[1..];
    }
  }

  /** `segs.map(normalizeKey)`. */
  function NormalizeAll(segs: seq<string>): (r: seq<string>)
    ensures |r| == |segs| && forall i | 0 <= i < |segs| :: r[i] == NormalizeKey(segs[i])
  {
    seq(|segs|, i requires 0 <= i < |segs| => NormalizeKey(segs[i]))
  }

  /** `path.split('.').map(normalizeKey).join('.')`. */
  function NormalizeDotted(path: string): string
  {
    Join(NormalizeAll(Split(path, '.')), ".")
  }

  /** `normalizePath(entry)`: a structured entry is normalised through its `name`. */
  function NormalizePath(e: AllowEntry): (r: string)
    ensures Split(r, '.') == NormalizeAll(Split(EntryName(e), '.'))
  {
    NormalizedSegments(EntryName(e));
    NormalizeDotted(EntryName(e))
  }

  /** The segments of a normalised path are the normalised segments of its name. */
  lemma NormalizedSegments(path: string)
    ensures Split(NormalizeDotted(path), '.') == NormalizeAll(Split(path, '.'))
    ensures |Split(NormalizeDotted(path), '.')| == |Split(path, '.')|
  {
    var segs := Split(path, '.');
    SplitNoSeparator(path, '.');
    forall i | 0 <= i < |segs|
      ensures '.' !in NormalizeAll(segs)[i]
    {
      NormalizeKeyKeepsOthers(segs[i]);
      UnbracketedIn(segs[i], '.');
      UnbracketedIn(NormalizeKey(segs[i]), '.');
    }
    SplitJoin(NormalizeAll(segs), '.');
  }
}
