/** The allow-list folded into one tree per top-level section (src/build-schema-object.ts). */
module BuildSchema {
  import opened Types
  import opened Text
  import opened Normalize
  import opened QueryOperator
  import opened ModelLookup
  import opened Helpers
  import opened ZodCode
  import opened Synthesis

  /**
   * What `isPathValid` remembers across segments: the last truthy field type
   * seen and the last model a non-operator segment resolved to, both as keys
   * (`undefined` reads as the key `undefined`).
   */
  datatype Scan = Scan(fieldType: string, parentModel: string)

  const InitialScan := Scan("undefined", "undefined")

  /** `resolveModelName({ modelName, synonyms, normalizedKey })` as a property key. */
  function ResolvedKey(ctx: Ctx, modelName: string, key: string): string
  {
    PropertyKey(Resolution(ctx.synonyms, OrElse(Some(NormalizeKey(key)), modelName)))
  }

  /** The two assignments the `every` callback makes before it decides. */
  function Step(ctx: Ctx, modelName: string, key: string, s: Scan): Scan
  {
    var resolved := ResolvedKey(ctx, modelName, key);
    var ft := FieldOf(ctx.models, modelName, key);
    var fieldType := if ft.Some? && ft.value.fieldType != "" then ft.value.fieldType else s.fieldType;
    var parentModel := if !IsQueryOperator(NormalizeKey(key)) && IsModel(ctx.models, resolved) then resolved else s.parentModel;
    Scan(fieldType, parentModel)
  }

  /** The remembered state once the first `n` segments have been seen. */
  function ScanAfter(ctx: Ctx, modelName: string, keys: seq<string>, n: nat): Scan
    requires n <= |keys|
  {
    if n == 0 then InitialScan else Step(ctx, modelName, keys[n - 1], ScanAfter(ctx, modelName, keys, n - 1))
  }

  /** The seven disjuncts the callback returns, in the state after its own assignments. */
  predicate SegmentValid(ctx: Ctx, modelName: string, key: string, s: Scan)
  {
    var nk := NormalizeKey(key);
    || IsQueryOperator(nk)
    || IsModel(ctx.models, nk)
    || IsModel(ctx.models, ResolvedKey(ctx, modelName, key))
    || FieldOf(ctx.models, modelName, key).Some?
    || FieldOf(ctx.models, s.parentModel, key).Some?
    || IsEnum(ctx.enums, s.fieldType)
    || IsModel(ctx.models, s.fieldType)
  }

  /** The first `n` segments pass the callback. */
  predicate ValidUpTo(ctx: Ctx, modelName: string, keys: seq<string>, n: nat)
    requires n <= |keys|
  {
    n == 0 || (ValidUpTo(ctx, modelName, keys, n - 1) && SegmentOk(ctx, modelName, keys, n - 1))
  }

  /** Segment `i` passes, in the state after its own assignments. */
  predicate SegmentOk(ctx: Ctx, modelName: string, keys: seq<string>, i: nat)
    requires i < |keys|
  {
    SegmentValid(ctx, modelName, keys[i], ScanAfter(ctx, modelName, keys, i + 1))
  }

  /** `isPathValid({ keys, synonyms, modelName, modelMap, enumMap })`. */
  predicate IsPathValid(ctx: Ctx, modelName: string, keys: seq<string>)
  {
    ValidUpTo(ctx, modelName, keys, |keys|)
  }

  /** A path is valid exactly when every segment passes, in the state its predecessors left. */
  lemma {:induction false} PathValidIff(ctx: Ctx, modelName: string, keys: seq<string>, n: nat)
    requires n <= |keys|
    ensures ValidUpTo(ctx, modelName, keys, n)
        <==> forall i | 0 <= i < n :: SegmentOk(ctx, modelName, keys, i)
  {
    if n > 0 {
      PathValidIff(ctx, modelName, keys, n - 1);
      var last := SegmentOk(ctx, modelName, keys, n - 1);
      assert ValidUpTo(ctx, modelName, keys, n) == (ValidUpTo(ctx, modelName, keys, n - 1) && last);
      if ValidUpTo(ctx, modelName, keys, n) {
        forall i | 0 <= i < n ensures SegmentOk(ctx, modelName, keys, i) {
          if i == n - 1 { assert last; }
        }
      } else if !last {
        assert !SegmentOk(ctx, modelName, keys, n - 1);
      } else {
        var i :| 0 <= i < n - 1 && !SegmentOk(ctx, modelName, keys, i);
        assert 0 <= i < n;
      }
    }
  }

  /** The `every` loop with its captured `fieldType` and `parentModel`, stopping at the first invalid segment. */
  method PathValid(ctx: Ctx, modelName: string, keys: seq<string>) returns (r: bool)
    ensures r == IsPathValid(ctx, modelName, keys)
  {
    var fieldType := "undefined";
    var parentModel := "undefined";
    for i := 0 to |keys|
      invariant Scan(fieldType, parentModel) == ScanAfter(ctx, modelName, keys, i)
      invariant ValidUpTo(ctx, modelName, keys, i)
    {
      var key := keys[i];
      ghost var before := Scan(fieldType, parentModel);
      var normalizedKey := NormalizeKey(key);
      var isQuery := IsQueryOperator(normalizedKey);
      var resolvedModelName := ResolvedKey(ctx, modelName, key);
      var ft := FieldOf(ctx.models, modelName, key);
      if ft.Some? && ft.value.fieldType != "" {
        fieldType := ft.value.fieldType;
      }
      if !isQuery && IsModel(ctx.models, resolvedModelName) {
        parentModel := resolvedModelName;
      }
      assert Scan(fieldType, parentModel) == Step(ctx, modelName, key, before);
      if !SegmentValid(ctx, modelName, key, Scan(fieldType, parentModel)) {
        InvalidStays(ctx, modelName, keys, i + 1);
        return false;
      }
    }
    return true;
  }

  /** A query-operator segment is always accepted and never changes the remembered parent model. */
  lemma QuerySegment(ctx: Ctx, modelName: string, key: string, s: Scan)
    requires IsQueryOperator(NormalizeKey(key))
    ensures SegmentValid(ctx, modelName, key, Step(ctx, modelName, key, s))
    ensures Step(ctx, modelName, key, s).parentModel == s.parentModel
  {
  }

  /**
   * The remembered state carries over: a segment that is not a field of the
   * model and resolves to no model leaves it as it was.
   */
  lemma ScanCarries(ctx: Ctx, modelName: string, keys: seq<string>, n: nat)
    requires n < |keys|
    requires FieldOf(ctx.models, modelName, keys[n]).None?
    requires !IsModel(ctx.models, ResolvedKey(ctx, modelName, keys[n]))
    ensures ScanAfter(ctx, modelName, keys, n + 1) == ScanAfter(ctx, modelName, keys, n)
  {
  }

  /** Once a segment fails, the whole path fails: `every` may stop there. */
  lemma InvalidStays(ctx: Ctx, modelName: string, keys: seq<string>, n: nat)
    requires n <= |keys| && !ValidUpTo(ctx, modelName, keys, n)
    ensures !IsPathValid(ctx, modelName, keys)
  {
    PathValidIff(ctx, modelName, keys, n);
    var i :| 0 <= i < n && !SegmentOk(ctx, modelName, keys, i);
    PathValidIff(ctx, modelName, keys, |keys|);
  }

  /** A path is valid exactly when it splits into a valid prefix and a valid final segment. */
  lemma PathValidSnoc(ctx: Ctx, modelName: string, keys: seq<string>, key: string)
    ensures IsPathValid(ctx, modelName, keys + [key]) <==>
      && IsPathValid(ctx, modelName, keys)
      && SegmentValid(ctx, modelName, key, Step(ctx, modelName, key, ScanAfter(ctx, modelName, keys, |keys|)))
  {
    var ks := keys + [key];
    ScanPrefix(ctx, modelName, keys, key, |keys|);
    ValidPrefix(ctx, modelName, keys, key, |keys|);
    assert ks[|keys|] == key;
  }

  lemma {:induction false} ValidPrefix(ctx: Ctx, modelName: string, keys: seq<string>, key: string, n: nat)
    requires n <= |keys|
    ensures ValidUpTo(ctx, modelName, keys + [key], n) == ValidUpTo(ctx, modelName, keys, n)
  {
    if n > 0 {
      ValidPrefix(ctx, modelName, keys, key, n - 1);
      ScanPrefix(ctx, modelName, keys, key, n);
      assert (keys + [key])[n - 1] == keys[n - 1];
    }
  }

  lemma {:induction false} ScanPrefix(ctx: Ctx, modelName: string, keys: seq<string>, key: string, n: nat)
    requires n <= |keys|
    ensures ScanAfter(ctx, modelName, keys + [key], n) == ScanAfter(ctx, modelName, keys, n)
  {
    if n > 0 {
      ScanPrefix(ctx, modelName, keys, key, n - 1);
      assert (keys + [key])[n - 1] == keys[n - 1];
    }
  }

  /** The model `isPathValid` is asked about: the one the path names, else the target. */
  function PathModel(ctx: Ctx, keys: seq<string>, modelName: string): string
  {
    OrElse(ActualModel(ctx.models, ctx.synonyms, keys), modelName)
  }

  /**
   * The one entry's contribution to the fold: skipped when it has no name
   * or fails `isPathValid`, else its tree from the top level.
   */
  function EntryTree(ctx: Ctx, processed: set<string>, modelName: string, e: AllowEntry): Outcome<Option<Node>>
  {
    var fieldName := EntryName(e);
    if fieldName == "" then Value(None)
    else
      var keys := Split(fieldName, '.');
      if !IsPathValid(ctx, PathModel(ctx, keys, modelName), keys) then Value(None)
      else
        var fieldSchema :- AddToSchemaObject(ctx, processed, ConfigOf(e), "", modelName, keys, 0);
        Value(Some(fieldSchema))
  }

  /** The `reduce` over the first `n` entries, from `{}`, with `deepMerge`. */
  function FoldEntries(ctx: Ctx, processed: set<string>, modelName: string, n: nat): Outcome<Node>
    requires n <= |ctx.allow|
  {
    if n == 0 then Value(Obj([]))
    else
      var acc :- FoldEntries(ctx, processed, modelName, n - 1);
      var tree :- EntryTree(ctx, processed, modelName, ctx.allow[n - 1]);
      if tree.None? then Value(acc) else Value(Merge(acc, tree.value))
  }

  /** Each section rendered by `objectToZodCode`. */
  function Rendered(es: seq<(string, Node)>): (r: seq<(string, string)>)
    ensures |r| == |es| && forall i | 0 <= i < |es| :: r[i] == (es[i].0, ObjectToZodCode(es[i].1))
  {
    seq(|es|, i requires 0 <= i < |es| => (es[i].0, ObjectToZodCode(es[i].1)))
  }

  /**
   * `buildSchemaObject({ processedModels, allowedPaths, modelName, ... })`: one
   * rendered section per top-level key.
   */
  function BuildSchemaObject(ctx: Ctx, processed: set<string>, modelName: string): (r: Outcome<seq<(string, string)>>)
    ensures r.Thrown? ==> IsModel(ctx.models, modelName) && ctx.allow != []
  {
    if !IsModel(ctx.models, modelName) then Value([])
    else
      var schemaObject :- FoldEntries(ctx, processed, modelName, |ctx.allow|);
      if !Truthy(schemaObject) then Value([])
      else
        FoldShape(ctx, processed, modelName, |ctx.allow|);
        Value(Rendered(schemaObject.entries))
  }

  /** The fold only ever holds an object or `undefined`. */
  lemma {:induction false} FoldShape(ctx: Ctx, processed: set<string>, modelName: string, n: nat)
    requires n <= |ctx.allow|
    ensures FoldEntries(ctx, processed, modelName, n).Value? ==>
      FoldEntries(ctx, processed, modelName, n).value.Obj? || FoldEntries(ctx, processed, modelName, n).value.Undef?
  {
    if n > 0 && FoldEntries(ctx, processed, modelName, n).Value? {
      FoldShape(ctx, processed, modelName, n - 1);
      var acc := FoldEntries(ctx, processed, modelName, n - 1);
      var e := ctx.allow[n - 1];
      var tree := EntryTree(ctx, processed, modelName, e);
      assert acc.Value? && tree.Value?;
      if tree.value.Some? {
        EntryTreeShape(ctx, processed, modelName, e);
        assert FoldEntries(ctx, processed, modelName, n).value == Merge(acc.value, tree.value.value);
      }
    }
  }

  /** One entry's tree is an object or `undefined`. */
  lemma EntryTreeShape(ctx: Ctx, processed: set<string>, modelName: string, e: AllowEntry)
    requires EntryTree(ctx, processed, modelName, e).Value? && EntryTree(ctx, processed, modelName, e).value.Some?
    ensures EntryTree(ctx, processed, modelName, e).value.value.Obj? || EntryTree(ctx, processed, modelName, e).value.value.Undef?
  {
  }

  lemma MergeIntoEmpty(t: Node)
    requires t.Obj?
    ensures Merge(Obj([]), t) == t
  {
    SourceOnlyOfEmpty(t.entries);
    assert MergedTarget([], t.entries) == [];
  }

  /** With a single allow-list entry, the sections are that entry's own tree, rendered. */
  lemma SingleEntrySections(ctx: Ctx, processed: set<string>, modelName: string, t: Node)
    requires IsModel(ctx.models, modelName) && |ctx.allow| == 1
    requires EntryTree(ctx, processed, modelName, ctx.allow[0]) == Value(Some(t)) && t.Obj?
    ensures BuildSchemaObject(ctx, processed, modelName) == Value(Rendered(t.entries))
  {
    MergeIntoEmpty(t);
    assert FoldEntries(ctx, processed, modelName, 1) == Value(t);
  }

  /** A target model missing from the registry gives `{}`. */
  lemma UnknownModelIsEmpty(ctx: Ctx, processed: set<string>, modelName: string)
    requires !IsModel(ctx.models, modelName)
    ensures BuildSchemaObject(ctx, processed, modelName) == Value([])
  {
  }

  /** An empty allow-list gives `{}`. */
  lemma EmptyAllowIsEmpty(ctx: Ctx, processed: set<string>, modelName: string)
    requires ctx.allow == []
    ensures BuildSchemaObject(ctx, processed, modelName) == Value([])
  {
  }

  /** Nameless entries and entries failing `isPathValid` leave the fold as it was. */
  lemma SkippedEntries(ctx: Ctx, processed: set<string>, modelName: string, n: nat)
    requires 0 < n <= |ctx.allow|
    requires var name := EntryName(ctx.allow[n - 1]);
      name == "" || !IsPathValid(ctx, PathModel(ctx, Split(name, '.'), modelName), Split(name, '.'))
    ensures FoldEntries(ctx, processed, modelName, n) == FoldEntries(ctx, processed, modelName, n - 1)
  {
  }

  /** Every section of the result is a top-level key of the merged tree, rendered. */
  lemma SectionsRendered(ctx: Ctx, processed: set<string>, modelName: string)
    requires BuildSchemaObject(ctx, processed, modelName).Value?
    requires IsModel(ctx.models, modelName)
    requires FoldEntries(ctx, processed, modelName, |ctx.allow|).Value?
    ensures var tree := FoldEntries(ctx, processed, modelName, |ctx.allow|).value;
      var r := BuildSchemaObject(ctx, processed, modelName).value;
      && (tree.Obj? ==> Keys(r) == Keys(tree.entries))
      && (tree.Obj? ==> forall i | 0 <= i < |r| :: r[i].1 == ObjectToZodCode(tree.entries[i].1))
      && (tree.Undef? ==> r == [])
  {
    FoldShape(ctx, processed, modelName, |ctx.allow|);
  }
}
