/** Rendering of a schema tree as Zod source text (`objectToZodCode`, src/generate-zod.ts). */
module ZodCode {
  import opened Types
  import opened Text
  import opened Helpers

  const OptionalMarker := "_isOptional"

  /** The filter callback: an entry is kept unless its key is the marker. */
  function KeepUnmarked(e: (string, Node)): Option<(string, Node)>
  {
    if e.0 != OptionalMarker then Some(e) else None
  }

  /** `Object.entries(o).filter(([key]) => key !== '_isOptional')`. */
  function Unmarked(es: seq<(string, Node)>): (r: seq<(string, Node)>)
    ensures forall e | e in r :: e in es && e.0 != OptionalMarker
    ensures forall e | e in es && e.0 != OptionalMarker :: e in r
    ensures |r| <= |es|
  {
    UnmarkedMembers(es);
    CollectLength(es, KeepUnmarked);
    Collect(es, KeepUnmarked)
  }

  lemma UnmarkedMembers(es: seq<(string, Node)>)
    ensures forall e :: e in Collect(es, KeepUnmarked) <==> e in es && e.0 != OptionalMarker
  {
    forall e ensures e in Collect(es, KeepUnmarked) <==> e in es && e.0 != OptionalMarker {
      CollectMembers(es, KeepUnmarked, e);
    }
  }

  /** A key as written in an object literal: quoted unless it is an identifier. */
  function KeyText(k: string): string
  {
    if IsIdentifier(k) then k else "'" + k + "'"
  }

  lemma MemberDepth(es: seq<(string, Node)>, e: (string, Node))
    requires e in es
    ensures Depth(e.1) < Depth(Obj(es))
  {
    var j :| 0 <= j < |es| && es[j] == e;
    EntriesDepthAbove(es, 0, j);
  }

  /**
   * `objectToZodCode(schemaObject)`: a string leaf is already Zod source and is
   * emitted as it is; an array becomes one parenthesised `z.array(...)`, an
   * object a `z.object({ ... })`; any other value is `z.any()`.
   */
  function ObjectToZodCode(n: Node): (r: string)
    ensures n.Str? ==> r == n.s
    ensures n.Arr? ==> StartsWith(r, "z.array(") && EndsWith(r, ")")
    ensures n.Obj? ==> StartsWith(r, "z.object({ ")
    ensures n.Bool? || n.Undef? ==> r == "z.any()"
    decreases Depth(n)
  {
    match n
    case Arr(xs) =>
      MergeAllDepth(xs);
      var r := "z.array(" + ObjectToZodCode(MergeAll(xs)) + ")";
      assert r[..8] == "z.array(" && r[|r| - 1..] == ")";
      r
    case Str(s) => s
    case Obj(es) =>
      var kept := Unmarked(es);
      var parts := seq(|kept|, j requires 0 <= j < |kept| =>
        MemberDepth(es, kept[j]);
        KeyText(kept[j].0) + ": " + ObjectToZodCode(kept[j].1));
      var marker := Find(es, OptionalMarker);
      var body := "z.object({ " + Join(parts, ", ") + " })";
      var r := body + (if marker.Some? && Truthy(marker.value) then ".nullish()" else "");
      assert body[..11] == "z.object({ " && r[..11] == body[..11];
      r
    case _ => "z.any()"
  }

  /** The rendered entries of an object, marker left out. */
  function EntryTexts(es: seq<(string, Node)>): (r: seq<string>)
    ensures |r| == |Unmarked(es)|
  {
    var kept := Unmarked(es);
    seq(|kept|, j requires 0 <= j < |kept| => KeyText(kept[j].0) + ": " + ObjectToZodCode(kept[j].1))
  }

  lemma ObjectCode(es: seq<(string, Node)>)
    ensures ObjectToZodCode(Obj(es)) == "z.object({ " + Join(EntryTexts(es), ", ") + " })"
      + (if Find(es, OptionalMarker).Some? && Truthy(Find(es, OptionalMarker).value) then ".nullish()" else "")
  {
  }

  /** An object renders as `z.object`, nullish exactly when its marker is set. */
  lemma ObjectShape(es: seq<(string, Node)>)
    ensures StartsWith(ObjectToZodCode(Obj(es)), "z.object({ ")
    ensures EndsWith(ObjectToZodCode(Obj(es)), ".nullish()")
        <==> Find(es, OptionalMarker).Some? && Truthy(Find(es, OptionalMarker).value)
  {
    ObjectCode(es);
    var x := "z.object({ " + Join(EntryTexts(es), ", ");
    var body := x + " })";
    assert x[..11] == "z.object({ ";
    assert body[..11] == "z.object({ ";
    if Find(es, OptionalMarker).Some? && Truthy(Find(es, OptionalMarker).value) {
      var full := body + ".nullish()";
      assert ObjectToZodCode(Obj(es)) == full;
      assert full[..11] == "z.object({ ";
      assert full[|full| - 10..] == ".nullish()";
    } else {
      assert ObjectToZodCode(Obj(es)) == body + "";
      assert body + "" == body;
      NotNullish(x);
    }
  }

  lemma NotNullish(x: string)
    ensures !EndsWith(x + " })", ".nullish()")
  {
    var b := x + " })";
    assert b[|b| - 3] == ' ';
  }

  /**
   * Keys are written as in an object literal: an identifier bare, any other
   * key (one with a dot, a dash, a leading digit, or the empty key) quoted.
   */
  lemma KeyQuoting(k: string, v: string)
    requires k != OptionalMarker
    ensures IsIdentifier(k) ==> ObjectToZodCode(Obj([(k, Str(v))])) == "z.object({ " + (k + ": " + v) + " })"
    ensures !IsIdentifier(k) ==> ObjectToZodCode(Obj([(k, Str(v))])) == "z.object({ " + ("'" + k + "'" + ": " + v) + " })"
  {
    SingleEntryCode(k, v);
  }

  lemma SingleEntryCode(k: string, v: string)
    requires k != OptionalMarker
    ensures ObjectToZodCode(Obj([(k, Str(v))])) == "z.object({ " + (KeyText(k) + ": " + v) + " })"
  {
    var es := [(k, Str(v))];
    UnmarkedNoMarker(es);
    assert EntryTexts(es) == [KeyText(k) + ": " + v];
    assert Find(es, OptionalMarker).None?;
    ObjectCode(es);
    var body := "z.object({ " + (KeyText(k) + ": " + v) + " })";
    assert ObjectToZodCode(Obj(es)) == body + "";
    assert body + "" == body;
  }

  /** Unmarked entries are all kept when no key is the marker. */
  lemma UnmarkedNoMarker(es: seq<(string, Node)>)
    requires forall j | 0 <= j < |es| :: es[j].0 != OptionalMarker
    ensures Unmarked(es) == es
  {
    CollectAll(es, KeepUnmarked);
  }

  lemma MarkerFound(es: seq<(string, Node)>)
    requires forall j | 0 <= j < |es| :: es[j].0 != OptionalMarker
    ensures Unmarked(es + [(OptionalMarker, Bool(true))]) == es
    ensures Find(es, OptionalMarker).None?
    ensures Find(es + [(OptionalMarker, Bool(true))], OptionalMarker) == Some(Bool(true))
  {
    var m := es + [(OptionalMarker, Bool(true))];
    UnmarkedNoMarker(es);
    assert m[..|m| - 1] == es;
    assert KeepUnmarked(m[|m| - 1]) == None;
    assert Collect(m, KeepUnmarked) == Collect(es, KeepUnmarked);
    FindSnoc(es, (OptionalMarker, Bool(true)), OptionalMarker);
    var f := FindFirst(es, OptionalMarker);
  }

  /** Setting the marker on an unmarked object only appends `.nullish()`. */
  lemma MarkedObject(es: seq<(string, Node)>)
    requires forall j | 0 <= j < |es| :: es[j].0 != OptionalMarker
    ensures ObjectToZodCode(Obj(es + [(OptionalMarker, Bool(true))])) == ObjectToZodCode(Obj(es)) + ".nullish()"
  {
    var m := es + [(OptionalMarker, Bool(true))];
    MarkerFound(es);
    assert EntryTexts(m) == EntryTexts(es);
    var body := "z.object({ " + Join(EntryTexts(es), ", ") + " })";
    ObjectCode(m);
    assert ObjectToZodCode(Obj(m)) == body + ".nullish()";
    ObjectCode(es);
    assert ObjectToZodCode(Obj(es)) == body + "";
    assert body + "" == body;
  }

  lemma {:induction false} SourceOnlyOfEmpty(s: seq<(string, Node)>)
    ensures SourceOnly(s, []) == s
  {
    if s != [] {
      SourceOnlyOfEmpty(s[..|s| - 1]);
      assert s == s[..|s| - 1] + [s[|s| - 1]];
    }
  }

  /** A one-element array of an object or a string renders as `z.array` of that element. */
  lemma SingletonArray(x: Node)
    requires x.Obj? || x.Str?
    ensures ObjectToZodCode(Arr([x])) == "z.array(" + ObjectToZodCode(x) + ")"
  {
    MergeAllOne(x);
  }

  lemma MergeAllOne(x: Node)
    requires x.Obj? || x.Str?
    ensures MergeAll([x]) == x
  {
    assert [x][..0] == [];
    assert MergeAll([x]) == Merge(Obj([]), x);
    if x.Obj? {
      SourceOnlyOfEmpty(x.entries);
      assert MergedTarget([], x.entries) == [];
    }
  }

  lemma MergeDisjointPair(a: string, va: Node, b: string, vb: Node)
    requires a != b
    ensures Merge(Obj([(a, va)]), Obj([(b, vb)])) == Obj([(a, va), (b, vb)])
  {
    var one := [(a, va)];
    var two := [(b, vb)];
    assert Find(two, a) == None;
    assert MergedTarget(one, two)[0] == (a, va);
    assert MergedTarget(one, two) == one;
    assert two[..0] == [];
    assert Find(one, b) == None;
    assert SourceOnly(two, one) == two;
  }

  lemma JoinPair(x: string, y: string, sep: string)
    ensures Join([x, y], sep) == x + sep + y
  {
    assert [x, y][1..] == [y];
  }

  lemma PairTexts(a: string, va: string, b: string, vb: string)
    requires a != OptionalMarker && b != OptionalMarker
    ensures EntryTexts([(a, Str(va)), (b, Str(vb))]) == [KeyText(a) + ": " + va, KeyText(b) + ": " + vb]
  {
    UnmarkedNoMarker([(a, Str(va)), (b, Str(vb))]);
  }

  lemma PairUnmarked(a: string, va: string, b: string, vb: string)
    requires a != OptionalMarker && b != OptionalMarker
    ensures ObjectToZodCode(Obj([(a, Str(va)), (b, Str(vb))]))
         == "z.object({ " + Join(EntryTexts([(a, Str(va)), (b, Str(vb))]), ", ") + " })"
  {
    var both := [(a, Str(va)), (b, Str(vb))];
    var f := FindFirst(both, OptionalMarker);
    assert Find(both, OptionalMarker) == None;
    ObjectCode(both);
  }

  lemma TwoEntryObject(a: string, va: string, b: string, vb: string)
    requires a != OptionalMarker && b != OptionalMarker
    ensures ObjectToZodCode(Obj([(a, Str(va)), (b, Str(vb))]))
         == "z.object({ " + KeyText(a) + ": " + va + ", " + KeyText(b) + ": " + vb + " })"
  {
    PairUnmarked(a, va, b, vb);
    PairTexts(a, va, b, vb);
    JoinPair(KeyText(a) + ": " + va, KeyText(b) + ": " + vb, ", ");
    Reassoc("z.object({ ", KeyText(a), ": ", va, ", ", KeyText(b), ": ", vb, " })");
  }

  lemma Reassoc(o: string, p1: string, p2: string, p3: string, sep: string, q1: string, q2: string, q3: string, c: string)
    ensures o + (p1 + p2 + p3 + sep + (q1 + q2 + q3)) + c == o + p1 + p2 + p3 + sep + q1 + q2 + q3 + c
  {
  }

  /**
   * The items of an array are merged before rendering: two objects with
   * different keys render as one object holding both (see `TwoEntryObject`).
   */
  lemma ArrayMergesItems(a: string, va: string, b: string, vb: string)
    requires a != b && a != OptionalMarker && b != OptionalMarker
    ensures ObjectToZodCode(Arr([Obj([(a, Str(va))]), Obj([(b, Str(vb))])]))
         == "z.array(" + ObjectToZodCode(Obj([(a, Str(va)), (b, Str(vb))])) + ")"
  {
    var xs := [Obj([(a, Str(va))]), Obj([(b, Str(vb))])];
    assert xs[..1] == [Obj([(a, Str(va))])];
    MergeAllOne(Obj([(a, Str(va))]));
    MergeDisjointPair(a, Str(va), b, Str(vb));
    assert MergeAll(xs) == Obj([(a, Str(va)), (b, Str(vb))]);
  }

  /** The filter on a two-entry object keeps the unmarked entries, in order. */
  lemma UnmarkedPair(a: string, va: Node, b: string, vb: Node)
    ensures Unmarked([(a, va), (b, vb)])
      == (if a != OptionalMarker then [(a, va)] else []) + (if b != OptionalMarker then [(b, vb)] else [])
  {
    var es := [(a, va), (b, vb)];
    assert es[..1] == [(a, va)] && es[..1][..0] == [];
    assert Collect(es[..1], KeepUnmarked) == Collect(es[..1][..0], KeepUnmarked) + (if a != OptionalMarker then [(a, va)] else []);
  }

  /** Values that are neither strings, arrays nor objects render as `z.any()`. */
  lemma OtherValuesAreAny(n: Node)
    requires n.Bool? || n.Undef?
    ensures ObjectToZodCode(n) == "z.any()"
  {
  }

  /** The marker example of the repository's tests: `{ _isOptional: true, name: 'z.string()' }`. */
  lemma OptionalExample()
    ensures ObjectToZodCode(Obj([(OptionalMarker, Bool(true)), ("name", Str("z.string()"))]))
         == "z.object({ name: z.string() }).nullish()"
  {
    var es := [(OptionalMarker, Bool(true)), ("name", Str("z.string()"))];
    assert es[..1] == [(OptionalMarker, Bool(true))];
    assert [(OptionalMarker, Bool(true))][..0] == [];
    UnmarkedPair(OptionalMarker, Bool(true), "name", Str("z.string()"));
    assert IsIdentifier("name");
    assert EntryTexts(es) == ["name" + ": " + "z.string()"];
    assert Find(es, OptionalMarker) == Some(Bool(true));
    ObjectCode(es);
    OptionalExampleText();
  }

  lemma OptionalExampleText()
    ensures "z.object({ " + Join(["name" + ": " + "z.string()"], ", ") + " })" + ".nullish()"
         == "z.object({ name: z.string() }).nullish()"
  {
  }
}
