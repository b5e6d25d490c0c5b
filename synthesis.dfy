/**
 * Path-scoped synthesis of the schema tree: `addToSchemaObject`
 * (src/generate-zod.ts) and `handleRelationField` (src/handlers.ts), which
 * re-enters it for the allow-list entries nested under a relation.
 */
module Synthesis {
  import opened Types
  import opened Text
  import opened Normalize
  import opened PathAllowed
  import opened ScalarType
  import opened ParsePrisma
  import opened ModelLookup
  import opened Helpers
  import opened RelatedSchema
  import opened ScalarField
  import opened ZodCode
  import opened FieldType

  const LogicalOperators: seq<string> := ["AND", "OR", "NOT"]
  const RelationalOperators: seq<string> := ["some", "every", "none"]
  const NumberOperators: seq<string> := ["take", "skip", "limit"]
  const StringOperators: seq<string> := ["contains", "startsWith", "endsWith", "search"]
  const ArrayOperators: seq<string> := ["in", "notIn"]
  const ScalarOperators: seq<string> := ["equals", "lt", "lte", "gt", "gte", "not"]

  /** The number of segments a path contributes; the empty path has none. */
  function Cost(p: string): nat
  {
    if p == "" then 0 else |Split(p, '.')|
  }

  /**
   * How many more segments an allowed path can gain: an allowed path is never
   * deeper than the deepest entry, so this bounds the recursion.
   */
  function Budget(allow: seq<AllowEntry>, p: string): nat
  {
    var m := MaxSegments(allow) + 2;
    if Cost(p) <= m then m - Cost(p) else 0
  }

  /** Extending a path to an allowed one never raises the budget, and a non-empty key lowers it. */
  lemma Grows(allow: seq<AllowEntry>, currentPath: string, key: string)
    requires IsPathAllowed(GetNewPath(currentPath, key), allow)
    ensures Budget(allow, GetNewPath(currentPath, key)) <= Budget(allow, currentPath)
    ensures key != "" ==> Budget(allow, GetNewPath(currentPath, key)) < Budget(allow, currentPath)
  {
    var newPath := GetNewPath(currentPath, key);
    AllowedDepthBound(newPath, allow);
    if currentPath != "" {
      assert |Split(newPath, '.')| >= 2;
      assert newPath != "";
    }
  }

  /** A field found in the registry has a non-empty name. */
  lemma FieldNameNonEmpty(models: ModelMap, model: string, name: string)
    requires FieldOf(models, model, name).Some?
    ensures name != ""
  {
    var i := FindFirst(models, model);
    var j := FindFirst(models[i].1, name);
  }

  /** `keys[index - 1]`, which is `undefined` (the key `undefined`) at the first segment. */
  function ParentFieldName(keys: seq<string>, index: nat): string
    requires index < |keys|
  {
    if index == 0 then "undefined" else keys[index - 1]
  }

  /**
   * `modelMap[m]?.[parent] || modelMap[m]`, then `.fieldType`: the parent
   * field's type, or else the `fieldType` property of the model's field
   * table, which as a key reads `[object Object]` or `undefined`.
   */
  function RelationalParentType(models: ModelMap, model: string, parent: string): Option<string>
  {
    match FieldOf(models, model, parent)
    case Some(f) => Some(f.fieldType)
    case None =>
      match ModelFields(models, model)
      case None => None
      case Some(fs) => Some(if Find(fs, "fieldType").Some? then "[object Object]" else "undefined")
  }

  /** `xs.slice(k)`. */
  function Drop(xs: seq<string>, k: nat): seq<string>
  {
    if k <= |xs| then xs[k..] else []
  }

  /**
   * The value one entry lists under an `in`/`notIn` path: the normalised
   * entry, when it starts with the normalised path, less the path's segments,
   * kept when non-empty.
   */
  function ListedValue(e: AllowEntry, normalizedNewPath: string): Option<string>
  {
    var np := NormalizePath(e);
    var value := Join(Drop(Split(np, '.'), |Split(normalizedNewPath, '.')|), ".");
    if StartsWith(np, normalizedNewPath) && value != "" then Some(value) else None
  }

  /** The enum values listed under an `in`/`notIn` path, in allow-list order. */
  function EnumValuesUnder(allow: seq<AllowEntry>, normalizedNewPath: string): seq<string>
  {
    Collect(allow, e => ListedValue(e, normalizedNewPath))
  }

  /** The `in`/`notIn` branch: an array of the parent field's type, or `z.any()` without a parent. */
  function ArrayOperatorType(ctx: Ctx, processed: set<string>, newPath: string, model: string, parent: string): string
  {
    match FieldOf(ctx.models, model, parent)
    case None => "z.any()"
    case Some(pf) =>
      var values := EnumValuesUnder(ctx.allow, NormalizeDotted(newPath));
      "z.array(" + MapPrismaTypeToZodType(ctx, processed, newPath, pf.fieldType, if |values| > 0 then Some(values) else None) + ")"
  }

  /** `isArray ? [schema] : schema`. */
  function Wrap(n: Node, isArray: bool): Node
  {
    if isArray then Arr([n]) else n
  }

  /** The entries whose raw name starts with `newPath + "."`, in allow-list order. */
  function NestedEntries(allow: seq<AllowEntry>, newPath: string): (r: seq<AllowEntry>)
    ensures forall e :: e in r <==> e in allow && StartsWith(EntryName(e), newPath + ".")
  {
    if allow == [] then []
    else
      var last := allow[|allow| - 1];
      assert allow == allow[..|allow| - 1] + [last];
      NestedEntries(allow[..|allow| - 1], newPath) + (if StartsWith(EntryName(last), newPath + ".") then [last] else [])
  }

  /** `schema._isOptional = true` on an object; the marker on an array is not modelled. */
  function MarkOptional(schema: Node, optional: bool): Node
  {
    if optional && schema.Obj? then Obj(Assign(schema.entries, OptionalMarker, Bool(true))) else schema
  }

  /**
   * `addToSchemaObject({ fieldConfig, processedModels, currentPath, modelName, keys, index, ... })`
   * for the segment `keys[index]`; `Undef` is `undefined`.
   */
  function AddToSchemaObject(ctx: Ctx, processed: set<string>, config: FieldConfig, currentPath: string,
                             modelName: string, keys: seq<string>, index: nat): (r: Outcome<Node>)
    ensures r.Value? ==>
      || r.value.Undef?
      || (index < |keys| && r.value.Obj? && |r.value.entries| == 1 && r.value.entries[0].0 == NormalizedKey(keys[index]))
    decreases Budget(ctx.allow, currentPath), 1, |keys| - index
  {
    if index >= |keys| then Value(Undef)
    else
      var currentKey := keys[index];
      var isArray := EndsWith(currentKey, "[]");
      var nk := NormalizedKey(currentKey);
      var newPath := GetNewPath(currentPath, nk);
      var updated := OrElse(ActualModel(ctx.models, ctx.synonyms, Split(currentPath, '.')), modelName);
      if !IsPathAllowed(newPath, ctx.allow) then Value(Undef)
      else
        Grows(ctx.allow, currentPath, nk);
        if nk in LogicalOperators then
          var child :- AddToSchemaObject(ctx, processed, config, newPath, updated, keys[index + 1..], 0);
          Value(Obj([(nk, Arr([child]))]))
        else if nk in RelationalOperators then
          var parentType := RelationalParentType(ctx.models, updated, ParentFieldName(keys, index));
          if parentType.None? then Value(Undef)
          else
            var child :- AddToSchemaObject(ctx, processed, config, newPath, parentType.value, keys[index + 1..], 0);
            Value(Obj([(nk, child)]))
        else if nk in NumberOperators then Value(Obj([(nk, Str("z.number()"))]))
        else if nk in StringOperators then Value(Obj([(nk, Str("z.string()"))]))
        else if nk in ArrayOperators then
          Value(Obj([(nk, Str(ArrayOperatorType(ctx, processed, newPath, updated, ParentFieldName(keys, index))))]))
        else if nk in ScalarOperators then
          match FieldOf(ctx.models, updated, ParentFieldName(keys, index))
          case None => Value(Undef)
          case Some(pf) => Value(Obj([(nk, Str(MapPrismaTypeToZodType(ctx, processed, newPath, pf.fieldType, None)))]))
        else if index == |keys| - 1 then
          var field := FieldOf(ctx.models, updated, nk);
          var currentEnum := currentKey != "" && IsEnum(ctx.enums, currentKey);
          if field.None? && !currentEnum then Value(Undef)
          else if (field.Some? && IsScalarType(field.value.fieldType)) || currentEnum then
            var r :- HandleScalarField(ctx, processed, nk, field, newPath, config, updated, isArray);
            Value(Obj([(nk, Wrap(if r.Some? then Str(r.value) else Undef, isArray))]))
          else
            FieldNameNonEmpty(ctx.models, updated, nk);
            var fieldSchema :- HandleRelationField(ctx, processed, newPath, field);
            Value(Obj([(nk, Wrap(fieldSchema, isArray))]))
        else
          var child :- AddToSchemaObject(ctx, processed, config, newPath, updated, keys, index + 1);
          if child.Undef? then Value(Undef) else Value(Obj([(nk, Wrap(child, isArray))]))
  }

  /**
   * `handleRelationField({ newPath, field, ... })[key]`: the deep-merged trees
   * of the entries nested under the relation, or `z.any()`.
   */
  function HandleRelationField(ctx: Ctx, processed: set<string>, newPath: string, field: Option<Field>): (r: Outcome<Node>)
    ensures r.Thrown? ==> field.Some? && |NestedEntries(ctx.allow, newPath)| > 0
    decreases Budget(ctx.allow, newPath), 3, 0
  {
    if field.None? then Value(Str("z.any()"))
    else
      var next := Resolution(ctx.synonyms, field.value.fieldType);
      var nested := NestedEntries(ctx.allow, newPath);
      if |nested| > 0 && next.Some? && next.value != "" then
        var node :- FoldNested(ctx, processed, newPath, next.value, nested, |nested|);
        Value(MarkOptional(Wrap(node, field.value.isList), field.value.isOptional))
      else Value(Str("z.any()"))
  }

  /** The `reduce` over the first `n` nested entries, from `{}`, with `deepMerge`. */
  function FoldNested(ctx: Ctx, processed: set<string>, newPath: string, nextModel: string,
                      nested: seq<AllowEntry>, n: nat): Outcome<Node>
    requires n <= |nested|
    decreases Budget(ctx.allow, newPath), 2, n
  {
    if n == 0 then Value(Obj([]))
    else
      var acc :- FoldNested(ctx, processed, newPath, nextModel, nested, n - 1);
      var e := nested[n - 1];
      var keys := Drop(Split(EntryName(e), '.'), |Split(newPath, '.')|);
      var fieldSchema :- AddToSchemaObject(ctx, processed, ConfigOf(e), newPath, nextModel, keys, 0);
      Value(Merge(acc, fieldSchema))
  }

  /** The key a segment contributes: the segment without a trailing `[]`. */
  function NormalizedKey(currentKey: string): string
  {
    if EndsWith(currentKey, "[]") then currentKey[..|currentKey| - 2] else currentKey
  }

  /**
   * The four ways to `undefined`: no segment left, a disallowed path, a last
   * segment naming neither a field nor an enum, and an undefined child.
   */
  lemma UndefinedCases(ctx: Ctx, processed: set<string>, config: FieldConfig, currentPath: string,
                       modelName: string, keys: seq<string>, index: nat)
    ensures index >= |keys| ==> AddToSchemaObject(ctx, processed, config, currentPath, modelName, keys, index) == Value(Undef)
    ensures index < |keys| && !IsPathAllowed(GetNewPath(currentPath, NormalizedKey(keys[index])), ctx.allow) ==>
      AddToSchemaObject(ctx, processed, config, currentPath, modelName, keys, index) == Value(Undef)
    ensures (&& index == |keys| - 1 && PlainSegment(keys[index])
             && FieldOf(ctx.models, Updated(ctx, currentPath, modelName), NormalizedKey(keys[index])).None?
             && !IsEnum(ctx.enums, keys[index])) ==>
      AddToSchemaObject(ctx, processed, config, currentPath, modelName, keys, index) == Value(Undef)
    ensures (&& index < |keys| - 1 && PlainSegment(keys[index])
             && IsPathAllowed(GetNewPath(currentPath, NormalizedKey(keys[index])), ctx.allow)
             && AddToSchemaObject(ctx, processed, config, GetNewPath(currentPath, NormalizedKey(keys[index])),
                                  Updated(ctx, currentPath, modelName), keys, index + 1) == Value(Undef)) ==>
      AddToSchemaObject(ctx, processed, config, currentPath, modelName, keys, index) == Value(Undef)
  {
  }

  /** A segment that is none of the operators synthesis dispatches on. */
  predicate PlainSegment(currentKey: string)
  {
    var nk := NormalizedKey(currentKey);
    nk !in LogicalOperators && nk !in RelationalOperators && nk !in NumberOperators
      && nk !in StringOperators && nk !in ArrayOperators && nk !in ScalarOperators
  }

  /** The model the path names, falling back to the given one. */
  function Updated(ctx: Ctx, currentPath: string, modelName: string): string
  {
    OrElse(ActualModel(ctx.models, ctx.synonyms, Split(currentPath, '.')), modelName)
  }

  /** The operator groups are pairwise disjoint. */
  lemma OperatorsDisjoint(nk: string)
    ensures nk in RelationalOperators ==> nk !in LogicalOperators
    ensures nk in NumberOperators ==> nk !in LogicalOperators && nk !in RelationalOperators
    ensures nk in StringOperators ==> nk !in LogicalOperators && nk !in RelationalOperators && nk !in NumberOperators
    ensures nk in ArrayOperators ==>
      nk !in LogicalOperators && nk !in RelationalOperators && nk !in NumberOperators && nk !in StringOperators
    ensures nk in ScalarOperators ==>
      && nk !in LogicalOperators && nk !in RelationalOperators && nk !in NumberOperators
      && nk !in StringOperators && nk !in ArrayOperators
  {
  }

  /** Number and string operators yield their fixed type whatever the registry holds. */
  lemma FixedOperatorTypes(ctx: Ctx, processed: set<string>, config: FieldConfig, currentPath: string,
                           modelName: string, keys: seq<string>, index: nat)
    requires index < |keys| && IsPathAllowed(GetNewPath(currentPath, NormalizedKey(keys[index])), ctx.allow)
    ensures NormalizedKey(keys[index]) in NumberOperators ==>
      AddToSchemaObject(ctx, processed, config, currentPath, modelName, keys, index)
        == Value(Obj([(NormalizedKey(keys[index]), Str("z.number()"))]))
    ensures NormalizedKey(keys[index]) in StringOperators ==>
      AddToSchemaObject(ctx, processed, config, currentPath, modelName, keys, index)
        == Value(Obj([(NormalizedKey(keys[index]), Str("z.string()"))]))
  {
    OperatorsDisjoint(NormalizedKey(keys[index]));
  }

  /**
   * `AND`/`OR`/`NOT` wrap the tree of the remaining keys in a one-element list;
   * `some`/`every`/`none` hold it unwrapped, typed by the parent field.
   */
  lemma OperatorNesting(ctx: Ctx, processed: set<string>, config: FieldConfig, currentPath: string,
                        modelName: string, keys: seq<string>, index: nat)
    requires index < |keys|
    requires IsPathAllowed(GetNewPath(currentPath, NormalizedKey(keys[index])), ctx.allow)
    ensures var nk := NormalizedKey(keys[index]);
      var newPath := GetNewPath(currentPath, nk);
      var child := AddToSchemaObject(ctx, processed, config, newPath, Updated(ctx, currentPath, modelName), keys[index + 1..], 0);
      nk in LogicalOperators && child.Value? ==>
        AddToSchemaObject(ctx, processed, config, currentPath, modelName, keys, index) == Value(Obj([(nk, Arr([child.value]))]))
    ensures var nk := NormalizedKey(keys[index]);
      var newPath := GetNewPath(currentPath, nk);
      var parentType := RelationalParentType(ctx.models, Updated(ctx, currentPath, modelName), ParentFieldName(keys, index));
      nk in RelationalOperators && parentType.Some? ==>
        var child := AddToSchemaObject(ctx, processed, config, newPath, parentType.value, keys[index + 1..], 0);
        child.Value? ==>
          AddToSchemaObject(ctx, processed, config, currentPath, modelName, keys, index) == Value(Obj([(nk, child.value)]))
  {
    OperatorsDisjoint(NormalizedKey(keys[index]));
  }

  /** A `[]` suffix on a plain inner segment wraps its defined child in a one-element list. */
  lemma ListSuffixWraps(ctx: Ctx, processed: set<string>, config: FieldConfig, currentPath: string,
                        modelName: string, keys: seq<string>, index: nat, key: string)
    requires index < |keys| - 1 && keys[index] == key + "[]" && PlainSegment(keys[index])
    requires IsPathAllowed(GetNewPath(currentPath, key), ctx.allow)
    ensures var child := AddToSchemaObject(ctx, processed, config, GetNewPath(currentPath, key),
                                           Updated(ctx, currentPath, modelName), keys, index + 1);
      child.Value? && !child.value.Undef? ==>
        AddToSchemaObject(ctx, processed, config, currentPath, modelName, keys, index) == Value(Obj([(key, Arr([child.value]))]))
  {
    assert EndsWith(key + "[]", "[]");
    assert (key + "[]")[..|key|] == key;
  }

  /**
   * A last segment naming a scalar field always yields that segment's key alone,
   * holding a defined string: the scalar handler's type. On a `[]` segment it
   * is a one-element list around a `z.array(...)` text, since both the handler
   * and the synthesis wrap; otherwise an optional field's string holds
   * `.nullish()`.
   */
  lemma TerminalScalar(ctx: Ctx, processed: set<string>, config: FieldConfig, currentPath: string,
                       modelName: string, keys: seq<string>, index: nat)
    requires index == |keys| - 1 && PlainSegment(keys[index])
    requires IsPathAllowed(GetNewPath(currentPath, NormalizedKey(keys[index])), ctx.allow)
    requires var f := FieldOf(ctx.models, Updated(ctx, currentPath, modelName), NormalizedKey(keys[index]));
      f.Some? && IsScalarType(f.value.fieldType)
    ensures var n := AddToSchemaObject(ctx, processed, config, currentPath, modelName, keys, index);
      && n.Value? && n.value.Obj? && |n.value.entries| == 1 && n.value.entries[0].0 == NormalizedKey(keys[index])
      && var leaf := n.value.entries[0].1;
      && (EndsWith(keys[index], "[]") ==>
            leaf.Arr? && |leaf.items| == 1 && leaf.items[0].Str? && StartsWith(leaf.items[0].s, "z.array("))
      && (!EndsWith(keys[index], "[]") ==> leaf.Str? && leaf.s != "")
      && (!EndsWith(keys[index], "[]")
            && FieldOf(ctx.models, Updated(ctx, currentPath, modelName), NormalizedKey(keys[index])).value.isOptional ==>
            leaf.Str? && Contains(leaf.s, ".nullish()"))
  {
    var nk := NormalizedKey(keys[index]);
    var model := Updated(ctx, currentPath, modelName);
    var field := FieldOf(ctx.models, model, nk);
    var isArray := EndsWith(keys[index], "[]");
    var r := HandleScalarField(ctx, processed, nk, field, GetNewPath(currentPath, nk), config, model, isArray);
    ScalarHandlerDefined(ctx, processed, nk, GetNewPath(currentPath, nk), config, model, isArray);
    assert AddToSchemaObject(ctx, processed, config, currentPath, modelName, keys, index)
        == Value(Obj([(nk, Wrap(Str(r.value.value), isArray))]));
  }

  /** A last scalar segment holds the scalar handler's type under its key, wrapped on a `[]` segment. */
  lemma TerminalValue(ctx: Ctx, processed: set<string>, config: FieldConfig, currentPath: string,
                      modelName: string, keys: seq<string>, index: nat, t: string)
    requires index == |keys| - 1 && PlainSegment(keys[index])
    requires IsPathAllowed(GetNewPath(currentPath, NormalizedKey(keys[index])), ctx.allow)
    requires var f := FieldOf(ctx.models, Updated(ctx, currentPath, modelName), NormalizedKey(keys[index]));
      f.Some? && IsScalarType(f.value.fieldType)
    requires var nk := NormalizedKey(keys[index]);
      var model := Updated(ctx, currentPath, modelName);
      HandleScalarField(ctx, processed, nk, FieldOf(ctx.models, model, nk), GetNewPath(currentPath, nk), config, model,
                        EndsWith(keys[index], "[]")) == Value(Some(t))
    ensures AddToSchemaObject(ctx, processed, config, currentPath, modelName, keys, index)
      == Value(Obj([(NormalizedKey(keys[index]), Wrap(Str(t), EndsWith(keys[index], "[]")))]))
  {
  }

  /** The scalar handler on a registered scalar field neither throws nor yields `undefined`. */
  lemma ScalarHandlerDefined(ctx: Ctx, processed: set<string>, nk: string, newPath: string, config: FieldConfig,
                             model: string, isArray: bool)
    requires FieldOf(ctx.models, model, nk).Some? && IsScalarType(FieldOf(ctx.models, model, nk).value.fieldType)
    ensures var r := HandleScalarField(ctx, processed, nk, FieldOf(ctx.models, model, nk), newPath, config, model, isArray);
      r.Value? && r.value.Some?
  {
    if !(config.typ.Some? && TypeTruthy(config.typ.value)) {
      var g := GetZodTypeForField(ctx, processed, newPath, nk, model);
      ScalarOrEnumIsZod(ctx.enums, FieldOf(ctx.models, model, nk).value.fieldType, None);
      assert g.Value? && g.value.Some? && g.value.value != "";
    }
  }

  /**
   * An inner plain segment whose child tree is defined nests it under its key,
   * as a one-element list on a `[]` segment; the child holds the next
   * segment's key alone.
   */
  lemma InnerSegment(ctx: Ctx, processed: set<string>, config: FieldConfig, currentPath: string,
                     modelName: string, keys: seq<string>, index: nat)
    requires index < |keys| - 1 && PlainSegment(keys[index])
    requires IsPathAllowed(GetNewPath(currentPath, NormalizedKey(keys[index])), ctx.allow)
    requires var nk := NormalizedKey(keys[index]);
      var child := AddToSchemaObject(ctx, processed, config, GetNewPath(currentPath, nk), Updated(ctx, currentPath, modelName), keys, index + 1);
      child.Value? && !child.value.Undef?
    ensures var n := AddToSchemaObject(ctx, processed, config, currentPath, modelName, keys, index);
      && n.Value? && n.value.Obj? && |n.value.entries| == 1 && n.value.entries[0].0 == NormalizedKey(keys[index])
      && var inner := if EndsWith(keys[index], "[]") then n.value.entries[0].1.items[0] else n.value.entries[0].1;
      && (EndsWith(keys[index], "[]") ==> n.value.entries[0].1.Arr? && |n.value.entries[0].1.items| == 1)
      && inner.Obj? && |inner.entries| == 1 && inner.entries[0].0 == NormalizedKey(keys[index + 1])
  {
    var nk := NormalizedKey(keys[index]);
  }

  /** An inner plain segment holds its child's tree under its key, wrapped on a `[]` segment. */
  lemma InnerValue(ctx: Ctx, processed: set<string>, config: FieldConfig, currentPath: string,
                   modelName: string, keys: seq<string>, index: nat, c: Node)
    requires index < |keys| - 1 && PlainSegment(keys[index])
    requires IsPathAllowed(GetNewPath(currentPath, NormalizedKey(keys[index])), ctx.allow)
    requires var nk := NormalizedKey(keys[index]);
      AddToSchemaObject(ctx, processed, config, GetNewPath(currentPath, nk), Updated(ctx, currentPath, modelName), keys, index + 1)
        == Value(c) && !c.Undef?
    ensures AddToSchemaObject(ctx, processed, config, currentPath, modelName, keys, index)
      == Value(Obj([(NormalizedKey(keys[index]), Wrap(c, EndsWith(keys[index], "[]")))]))
  {
  }

  /**
   * Operators on a missing parent field: `in`/`notIn` fall back to `z.any()`,
   * a scalar operator to `undefined`.
   */
  lemma MissingParentField(ctx: Ctx, processed: set<string>, config: FieldConfig, currentPath: string,
                           modelName: string, keys: seq<string>, index: nat)
    requires index < |keys| && IsPathAllowed(GetNewPath(currentPath, NormalizedKey(keys[index])), ctx.allow)
    requires FieldOf(ctx.models, Updated(ctx, currentPath, modelName), ParentFieldName(keys, index)).None?
    ensures NormalizedKey(keys[index]) in ArrayOperators ==>
      AddToSchemaObject(ctx, processed, config, currentPath, modelName, keys, index)
        == Value(Obj([(NormalizedKey(keys[index]), Str("z.any()"))]))
    ensures NormalizedKey(keys[index]) in ScalarOperators ==>
      AddToSchemaObject(ctx, processed, config, currentPath, modelName, keys, index) == Value(Undef)
  {
    OperatorsDisjoint(NormalizedKey(keys[index]));
  }

  /**
   * With a parent field, `in`/`notIn` give `z.array` of its type, narrowed to
   * a `z.enum` of the values listed under the operator when there are any.
   */
  lemma ArrayOperatorNarrows(ctx: Ctx, processed: set<string>, newPath: string, model: string, parent: string)
    requires FieldOf(ctx.models, model, parent).Some?
    requires var t := FieldOf(ctx.models, model, parent).value.fieldType; IsScalarType(t) || IsEnum(ctx.enums, t)
    ensures var values := EnumValuesUnder(ctx.allow, NormalizeDotted(newPath));
      |values| > 0 ==> ArrayOperatorType(ctx, processed, newPath, model, parent) == "z.array(" + ("z.enum(" + JsonStringArray(values) + ")") + ")"
  {
    var t := FieldOf(ctx.models, model, parent).value.fieldType;
    var values := EnumValuesUnder(ctx.allow, NormalizeDotted(newPath));
    ArrayOperatorUnfold(ctx, processed, newPath, model, parent);
    MapPrismaValues(ctx, processed, newPath, t, values);
  }

  lemma ArrayOperatorUnfold(ctx: Ctx, processed: set<string>, newPath: string, model: string, parent: string)
    requires FieldOf(ctx.models, model, parent).Some?
    ensures var values := EnumValuesUnder(ctx.allow, NormalizeDotted(newPath));
      var t := FieldOf(ctx.models, model, parent).value.fieldType;
      ArrayOperatorType(ctx, processed, newPath, model, parent)
        == "z.array(" + MapPrismaTypeToZodType(ctx, processed, newPath, t, if |values| > 0 then Some(values) else None) + ")"
  {
  }

  /** The narrowing values come from the entries under the path, and none is empty. */
  lemma EnumValuesUnderMembers(allow: seq<AllowEntry>, p: string, v: string)
    ensures v in EnumValuesUnder(allow, p) <==> exists i | 0 <= i < |allow| ::
      && StartsWith(NormalizePath(allow[i]), p)
      && v == Join(Drop(Split(NormalizePath(allow[i]), '.'), |Split(p, '.')|), ".")
      && v != ""
  {
    CollectMembers(allow, e => ListedValue(e, p), v);
  }

  /**
   * `handleRelationField` gives `z.any()` when the field is missing, its type
   * does not resolve through the synonym table, or nothing is nested under it.
   */
  lemma RelationAnyCases(ctx: Ctx, processed: set<string>, newPath: string, field: Option<Field>)
    requires || field.None?
             || OrElse(Resolution(ctx.synonyms, field.value.fieldType), "") == ""
             || forall i | 0 <= i < |ctx.allow| :: !StartsWith(EntryName(ctx.allow[i]), newPath + ".")
    ensures HandleRelationField(ctx, processed, newPath, field) == Value(Str("z.any()"))
  {
    var nested := NestedEntries(ctx.allow, newPath);
    if |nested| > 0 {
      assert nested[0] in ctx.allow;
    }
  }

  lemma {:induction false} AssignFind(d: seq<(string, Node)>, k: string, v: Node)
    ensures Find(Assign(d, k, v), k) == Some(v)
  {
    if d != [] && d[0].0 != k {
      AssignFind(d[1..], k, v);
    }
  }

  /** An optional relation that is not a list renders `.nullish()`; a list relation is a one-element list. */
  lemma OptionalRelation(ctx: Ctx, processed: set<string>, newPath: string, field: Field)
    requires HandleRelationField(ctx, processed, newPath, Some(field)).Value?
    ensures var n := HandleRelationField(ctx, processed, newPath, Some(field)).value;
      field.isOptional && !field.isList && n.Obj? ==> EndsWith(ObjectToZodCode(n), ".nullish()")
    ensures var n := HandleRelationField(ctx, processed, newPath, Some(field)).value;
      field.isList ==> n.Arr? || n == Str("z.any()")
  {
    var n := HandleRelationField(ctx, processed, newPath, Some(field)).value;
    if field.isOptional && !field.isList && n.Obj? {
      var next := Resolution(ctx.synonyms, field.fieldType);
      var nested := NestedEntries(ctx.allow, newPath);
      if |nested| > 0 && next.Some? && next.value != "" {
        var node := FoldNested(ctx, processed, newPath, next.value, nested, |nested|).value;
        if node.Obj? {
          AssignFind(node.entries, OptionalMarker, Bool(true));
        }
      }
      ObjectShape(n.entries);
    }
  }
}
