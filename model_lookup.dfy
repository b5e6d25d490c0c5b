/**
 * Registry lookups and the synonym resolution shared by the generator
 * (`resolveModelName` in src/generate-zod.ts and src/find-actual-model-name.ts,
 * which import each other).
 */
module ModelLookup {
  import opened Types

  /** `modelMap[name]`. */
  function ModelFields(models: ModelMap, name: string): Option<Fields>
  {
    Find(models, name)
  }

  predicate IsModel(models: ModelMap, name: string)
  {
    Find(models, name).Some?
  }

  /** `modelMap[model]?.[field]`. */
  function FieldOf(models: ModelMap, model: string, field: string): Option<Field>
  {
    match Find(models, model)
    case Some(fs) => Find(fs, field)
    case None => None
  }

  /** `enumMap[name]` is truthy: every registered enum, even one without values. */
  predicate IsEnum(enums: EnumMap, name: string)
  {
    Find(enums, name).Some?
  }

  function EnumValues(enums: EnumMap, name: string): seq<string>
  {
    match Find(enums, name)
    case Some(vs) => vs
    case None => []
  }

  /**
   * The canonical model a name stands for: the key of the first synonym entry,
   * in table order, whose list contains the name.
   */
  function Resolution(synonyms: Synonyms, name: string): Option<string>
  {
    if synonyms == [] then None
    else if name in synonyms[0].1 then Some(synonyms[0].0)
    else Resolution(synonyms[1..], name)
  }

  /**
   * A name resolves iff some list contains it, and then to the key of the
   * first such list.
   */
  lemma {:induction false} ResolutionFirst(synonyms: Synonyms, name: string) returns (i: nat)
    ensures Resolution(synonyms, name).None? <==> forall j | 0 <= j < |synonyms| :: name !in synonyms[j].1
    ensures Resolution(synonyms, name).Some? ==>
      && i < |synonyms| && synonyms[i].0 == Resolution(synonyms, name).value && name in synonyms[i].1
      && forall j | 0 <= j < i :: name !in synonyms[j].1
  {
    if synonyms == [] || name in synonyms[0].1 {
      i := 0;
    } else {
      var i' := ResolutionFirst(synonyms[1..], name);
      i := i' + 1;
      assert forall j | 1 <= j < |synonyms| :: synonyms[j] == synonyms[1..][j - 1];
    }
  }

  /**
   * `resolveModelName({ modelName, normalizedKey, synonyms })`: a loop over the
   * table that returns at the first list containing `normalizedKey || modelName`.
   */
  method ResolveModelName(synonyms: Synonyms, modelName: string, normalizedKey: Option<string>)
    returns (r: Option<string>)
    ensures r == Resolution(synonyms, OrElse(normalizedKey, modelName))
  {
    var name := OrElse(normalizedKey, modelName);
    for i := 0 to |synonyms|
      invariant Resolution(synonyms, name) == Resolution(synonyms[i..], name)
    {
      assert synonyms[i..][1..] == synonyms[i + 1..];
      if name in synonyms[i].1 {
        return Some(synonyms[i].0);
      }
    }
    return None;
  }

  /** The model one path segment names: itself if registered, else its registered synonym target. */
  function SegmentModel(models: ModelMap, synonyms: Synonyms, seg: string): Option<string>
  {
    if IsModel(models, seg) then Some(seg)
    else
      var resolved := Resolution(synonyms, seg);
      if resolved.Some? && resolved.value != "" && IsModel(models, resolved.value) then resolved
      else None
  }

  /**
   * The model named by the last segment that names one; `None` (JavaScript
   * `undefined`) when no segment does.
   */
  function ActualModel(models: ModelMap, synonyms: Synonyms, segs: seq<string>): (r: Option<string>)
    ensures r.Some? ==> IsModel(models, r.value)
    ensures r.None? <==> forall i | 0 <= i < |segs| :: SegmentModel(models, synonyms, segs[i]).None?
    ensures r.Some? ==> exists i | 0 <= i < |segs| ::
      && SegmentModel(models, synonyms, segs[i]) == r
      && forall j | i < j < |segs| :: SegmentModel(models, synonyms, segs[j]).None?
  {
    if segs == [] then None
    else
      var last := |segs| - 1;
      var here := SegmentModel(models, synonyms, segs[last]);
      if here.Some? then here
      else
        var r := ActualModel(models, synonyms, segs[..last]);
        assert forall i | 0 <= i < last :: segs[..last][i] == segs[i];
        r
  }

  /**
   * `findActualModelName({ splitPaths, modelMap, synonyms })`: a loop from the
   * last segment down to the first, returning at the first segment that names a model.
   */
  method FindActualModelName(models: ModelMap, synonyms: Synonyms, splitPaths: seq<string>)
    returns (r: Option<string>)
    ensures r == ActualModel(models, synonyms, splitPaths)
  {
    var i := |splitPaths| - 1;
    while i >= 0
      invariant -1 <= i < |splitPaths|
      invariant ActualModel(models, synonyms, splitPaths) == ActualModel(models, synonyms, splitPaths[..i + 1])
      decreases i + 1
    {
      var pathSegment := splitPaths[i];
      assert splitPaths[..i + 1][..i] == splitPaths[..i];
      if IsModel(models, pathSegment) {
        return Some(pathSegment);
      } else {
        var resolvedModel := ResolveModelName(synonyms, pathSegment, None);
        if resolvedModel.Some? && resolvedModel.value != "" && IsModel(models, resolvedModel.value) {
          return resolvedModel;
        }
      }
      i := i - 1;
    }
    assert splitPaths[..0] == [];
    return None;
  }

  /** Later segments take precedence: a model named by the last segment wins. */
  lemma {:induction false} LastSegmentWins(models: ModelMap, synonyms: Synonyms, segs: seq<string>, seg: string)
    requires SegmentModel(models, synonyms, seg).Some?
    ensures ActualModel(models, synonyms, segs + [seg]) == SegmentModel(models, synonyms, seg)
  {
    assert (segs + [seg])[|segs|] == seg;
  }
}
