/**
 * Prisma types as Zod source and whole-model expansion
 * (`mapPrismaTypeToZodType` and `generateRelatedModelSchema`, src/generate-zod.ts).
 */
module RelatedSchema {
  import opened Types
  import opened Text
  import opened ScalarType
  import opened PathAllowed
  import opened ModelLookup

  /** The `switch` over the scalar tags. */
  function ScalarZodCase(t: string): Option<string>
  {
    match t
    case "String" => Some("z.string()")
    case "Int" => Some("z.number().int()")
    case "Float" => Some("z.number()")
    case "Boolean" => Some("z.boolean()")
    case "DateTime" => Some("z.date()")
    case "Json" => Some("z.any()")
    case "BigInt" => Some("z.bigint()")
    case "Decimal" => Some("z.string()")
    case "Bytes" => Some("z.instanceof(Buffer)")
    case _ => None
  }

  /** Every scalar tag has its own case, so the `default` branch is reached by no scalar. */
  lemma ScalarCasesExact(t: string)
    ensures ScalarZodCase(t).Some? <==> IsScalarType(t)
  {
  }

  /** `.nullish()` appended to an optional type that does not already carry it. */
  function WithNullish(t: string, optional: bool): (r: string)
    ensures optional ==> Contains(r, ".nullish()")
    ensures !optional || Contains(t, ".nullish()") ==> r == t
    ensures r == t || r == t + ".nullish()"
  {
    if optional && !Contains(t, ".nullish()") then
      assert StartsWith((t + ".nullish()")[|t|..], ".nullish()");
      t + ".nullish()"
    else t
  }

  /** The marker is added at most once: a second application changes nothing. */
  lemma WithNullishIdempotent(t: string, optional: bool)
    ensures WithNullish(WithNullish(t, optional), optional) == WithNullish(t, optional)
  {
  }

  /** The first branch of `mapPrismaTypeToZodType`: a scalar or an enum. */
  function ScalarOrEnumType(enums: EnumMap, t: string, allowedValues: Option<seq<string>>): string
  {
    if allowedValues.Some? || IsEnum(enums, t) then
      var values := if allowedValues.Some? then allowedValues.value else EnumValues(enums, t);
      "z.enum(" + JsonStringArray(values) + ")"
    else
      match ScalarZodCase(t)
      case Some(code) => code
      case None => "z.any()"
  }

  /** The names of the registered models. */
  function ModelNames(models: ModelMap): set<string>
  {
    set i | 0 <= i < |models| :: models[i].0
  }

  lemma RegisteredName(models: ModelMap, name: string)
    requires IsModel(models, name)
    ensures name in ModelNames(models)
  {
    var i := FindFirst(models, name);
  }

  /** Marking a registered model as processed leaves fewer models unprocessed. */
  lemma FewerUnprocessed(models: ModelMap, processed: set<string>, name: string)
    requires IsModel(models, name) && name !in processed
    ensures |ModelNames(models) - (processed + {name})| < |ModelNames(models) - processed|
  {
    RegisteredName(models, name);
    var before := ModelNames(models) - processed;
    var after := ModelNames(models) - (processed + {name});
    assert after == before - {name};
  }

  /** `mapPrismaTypeToZodType({ prismaType, currentPath, allowedEnumValues, ... })`. */
  function MapPrismaTypeToZodType(ctx: Ctx, processed: set<string>, currentPath: string, prismaType: string,
                                  allowedValues: Option<seq<string>>): (r: string)
    ensures r == "" <==> !IsScalarType(prismaType) && !IsEnum(ctx.enums, prismaType)
                         && OrElse(Resolution(ctx.synonyms, prismaType), "") == ""
    ensures r != "" ==> StartsWith(r, "z.")
    decreases |ModelNames(ctx.models) - processed|, 2
  {
    if IsScalarType(prismaType) || IsEnum(ctx.enums, prismaType) then
      ScalarOrEnumIsZod(ctx.enums, prismaType, allowedValues);
      ScalarOrEnumType(ctx.enums, prismaType, allowedValues)
    else
      match Resolution(ctx.synonyms, prismaType)
      case None => ""
      case Some(related) =>
        if related == "" then ""
        else if !IsPathAllowed(currentPath, ctx.allow) then "z.any()"
        else RelatedModelSchema(ctx, processed, currentPath, related)
  }

  /** `generateRelatedModelSchema({ modelName, currentPath, processedModels, ... })`. */
  function RelatedModelSchema(ctx: Ctx, processed: set<string>, currentPath: string, modelName: string): (r: string)
    ensures StartsWith(r, "z.") && !EndsWith(r, ".nullish()")
    decreases |ModelNames(ctx.models) - processed|, 1
  {
    if modelName in processed then "z.any()"
    else
      match ModelFields(ctx.models, modelName)
      case None => "z.any()"
      case Some(fs) =>
        var entries := SchemaFields(ctx, processed, modelName, currentPath, fs, |fs|);
        var r := ObjectText(entries);
        assert r[|r| - 2] == '}';
        r
  }

  /** `z.object({ k: v, ... })`, or `z.object({})` without entries. */
  function ObjectText(entries: seq<(string, string)>): (r: string)
    ensures StartsWith(r, "z.object({") && EndsWith(r, "})")
  {
    if entries == [] then "z.object({})"
    else
      var t := "z.object({ " + Join(EntryTexts(entries), ", ") + " })";
      assert t[..10] == "z.object({" && t[|t| - 2..] == "})";
      t
  }

  function EntryTexts(entries: seq<(string, string)>): (r: seq<string>)
    ensures |r| == |entries|
  {
    seq(|entries|, i requires 0 <= i < |entries| => entries[i].0 + ": " + entries[i].1)
  }

  /** The type of one allowed field of a model being expanded. */
  function FieldZodType(ctx: Ctx, processed: set<string>, modelName: string, fieldPath: string, field: Field): string
    requires modelName !in processed && IsModel(ctx.models, modelName)
    decreases |ModelNames(ctx.models) - processed|, 0, 0
  {
    var inner := processed + {modelName};
    FewerUnprocessed(ctx.models, processed, modelName);
    var t := if IsScalarType(field.fieldType) then MapPrismaTypeToZodType(ctx, inner, fieldPath, field.fieldType, None)
             else RelatedModelSchema(ctx, inner, fieldPath, field.fieldType);
    WithNullish(t, field.isOptional)
  }

  /**
   * The entries of `schemaFields` after the first `n` fields: each field whose
   * path is allowed, in registry order, with its type.
   */
  function SchemaFields(ctx: Ctx, processed: set<string>, modelName: string, currentPath: string,
                        fs: Fields, n: nat): (r: seq<(string, string)>)
    requires ModelFields(ctx.models, modelName) == Some(fs) && modelName !in processed && n <= |fs|
    ensures |r| <= n
    decreases |ModelNames(ctx.models) - processed|, 0, 1, n
  {
    if n == 0 then []
    else
      var rest := SchemaFields(ctx, processed, modelName, currentPath, fs, n - 1);
      var fieldPath := currentPath + "." + fs[n - 1].0;
      if !IsPathAllowed(fieldPath, ctx.allow) then rest
      else rest + [(fs[n - 1].0, FieldZodType(ctx, processed, modelName, fieldPath, fs[n - 1].1))]
  }

  /** The names of the first `n` fields whose path under `currentPath` is allowed, in order. */
  function AllowedFieldNames(allow: seq<AllowEntry>, currentPath: string, fs: Fields, n: nat): seq<string>
    requires n <= |fs|
  {
    if n == 0 then []
    else
      var rest := AllowedFieldNames(allow, currentPath, fs, n - 1);
      if IsPathAllowed(currentPath + "." + fs[n - 1].0, allow) then rest + [fs[n - 1].0] else rest
  }

  /** An already processed model and an unknown model both expand to `z.any()`. */
  lemma RelatedGuarded(ctx: Ctx, processed: set<string>, currentPath: string, modelName: string)
    requires modelName in processed || !IsModel(ctx.models, modelName)
    ensures RelatedModelSchema(ctx, processed, currentPath, modelName) == "z.any()"
  {
  }

  lemma ModelFieldsUnique(models: ModelMap, name: string, fs: Fields)
    requires ModelFields(models, name) == Some(fs)
    ensures UniqueKeys(fs)
  {
    var i := FindFirst(models, name);
  }

  /**
   * Exactly the allowed fields are kept, in registry order, and an optional
   * field's type always carries `.nullish()`.
   */
  lemma {:induction false} SchemaFieldsKept(ctx: Ctx, processed: set<string>, modelName: string, currentPath: string,
                                            fs: Fields, n: nat)
    requires ModelFields(ctx.models, modelName) == Some(fs) && modelName !in processed && n <= |fs|
    ensures Keys(SchemaFields(ctx, processed, modelName, currentPath, fs, n)) == AllowedFieldNames(ctx.allow, currentPath, fs, n)
    ensures forall j | 0 <= j < |SchemaFields(ctx, processed, modelName, currentPath, fs, n)| ::
      var e := SchemaFields(ctx, processed, modelName, currentPath, fs, n)[j];
      && FieldOf(ctx.models, modelName, e.0).Some?
      && (FieldOf(ctx.models, modelName, e.0).value.isOptional ==> Contains(e.1, ".nullish()"))
  {
    if n > 0 {
      SchemaFieldsKept(ctx, processed, modelName, currentPath, fs, n - 1);
      ModelFieldsUnique(ctx.models, modelName, fs);
      FindUnique(fs, n - 1);
      var rest := SchemaFields(ctx, processed, modelName, currentPath, fs, n - 1);
      var r := SchemaFields(ctx, processed, modelName, currentPath, fs, n);
      if IsPathAllowed(currentPath + "." + fs[n - 1].0, ctx.allow) {
        assert r == rest + [r[|rest|]];
        assert Keys(r) == Keys(rest) + [fs[n - 1].0];
      }
    }
  }

  /** A known, unprocessed model with no allowed field expands to `z.object({})`, and only then. */
  lemma RelatedEmptyObject(ctx: Ctx, processed: set<string>, currentPath: string, modelName: string, fs: Fields)
    requires ModelFields(ctx.models, modelName) == Some(fs) && modelName !in processed
    ensures RelatedModelSchema(ctx, processed, currentPath, modelName) == "z.object({})"
        <==> AllowedFieldNames(ctx.allow, currentPath, fs, |fs|) == []
  {
    var entries := SchemaFields(ctx, processed, modelName, currentPath, fs, |fs|);
    SchemaFieldsKept(ctx, processed, modelName, currentPath, fs, |fs|);
    if entries != [] {
      var t := "z.object({ " + Join(EntryTexts(entries), ", ") + " })";
      assert t[10] == ' ';
      assert "z.object({})"[10] == '}';
    }
  }

  lemma ScalarOrEnumIsZod(enums: EnumMap, t: string, allowedValues: Option<seq<string>>)
    ensures StartsWith(ScalarOrEnumType(enums, t, allowedValues), "z.")
  {
    if allowedValues.Some? || IsEnum(enums, t) {
      var values := if allowedValues.Some? then allowedValues.value else EnumValues(enums, t);
      assert ("z.enum(" + JsonStringArray(values) + ")")[..2] == "z.";
    }
  }

  /**
   * Enums and supplied values give `z.enum` of those values in their order;
   * a resolved relation on a disallowed path gives `z.any()`.
   */
  lemma MapPrismaCases(ctx: Ctx, processed: set<string>, currentPath: string, t: string, allowedValues: Option<seq<string>>)
    ensures (IsScalarType(t) || IsEnum(ctx.enums, t)) && allowedValues.Some? ==>
      MapPrismaTypeToZodType(ctx, processed, currentPath, t, allowedValues) == "z.enum(" + JsonStringArray(allowedValues.value) + ")"
    ensures IsEnum(ctx.enums, t) && allowedValues.None? ==>
      MapPrismaTypeToZodType(ctx, processed, currentPath, t, allowedValues) == "z.enum(" + JsonStringArray(EnumValues(ctx.enums, t)) + ")"
    ensures IsScalarType(t) && !IsEnum(ctx.enums, t) && allowedValues.None? ==>
      MapPrismaTypeToZodType(ctx, processed, currentPath, t, allowedValues) == ScalarZodCase(t).value
    ensures (!IsScalarType(t) && !IsEnum(ctx.enums, t) && OrElse(Resolution(ctx.synonyms, t), "") != ""
             && !IsPathAllowed(currentPath, ctx.allow)) ==>
      MapPrismaTypeToZodType(ctx, processed, currentPath, t, allowedValues) == "z.any()"
  {
    ScalarCasesExact(t);
  }

  /** Supplied values narrow a scalar or an enum to exactly those values. */
  lemma MapPrismaValues(ctx: Ctx, processed: set<string>, currentPath: string, t: string, values: seq<string>)
    requires IsScalarType(t) || IsEnum(ctx.enums, t)
    ensures MapPrismaTypeToZodType(ctx, processed, currentPath, t, Some(values)) == "z.enum(" + JsonStringArray(values) + ")"
  {
  }

  /** The set of models being expanded, which the expansion adds to and takes away from. */
  class ProcessedModels {
    var names: set<string>

    constructor (initial: set<string>)
      ensures names == initial
    {
      names := initial;
    }

    method Add(name: string)
      modifies this
      ensures names == old(names) + {name}
    {
      names := names + {name};
    }

    method Delete(name: string)
      modifies this
      ensures names == old(names) - {name}
    {
      names := names - {name};
    }
  }

  /**
   * The expansion as the source runs it: the model is added to the shared
   * set for the duration of the field loop and removed again on both exits.
   */
  method GenerateRelatedModelSchema(ctx: Ctx, processedModels: ProcessedModels, currentPath: string, modelName: string)
    returns (r: string)
    modifies processedModels
    ensures processedModels.names == old(processedModels.names)
    ensures r == RelatedModelSchema(ctx, old(processedModels.names), currentPath, modelName)
    decreases |ModelNames(ctx.models) - processedModels.names|
  {
    if modelName in processedModels.names {
      return "z.any()";
    }
    ghost var before := processedModels.names;
    processedModels.Add(modelName);
    var modelFields := ModelFields(ctx.models, modelName);
    if modelFields.None? {
      processedModels.Delete(modelName);
      assert processedModels.names == before;
      return "z.any()";
    }
    var fs := modelFields.value;
    var schemaFields: seq<(string, string)> := [];
    for i := 0 to |fs|
      invariant processedModels.names == before + {modelName}
      invariant schemaFields == SchemaFields(ctx, before, modelName, currentPath, fs, i)
    {
      var fieldName := fs[i].0;
      var field := fs[i].1;
      var fieldPath := currentPath + "." + fieldName;
      if !IsPathAllowed(fieldPath, ctx.allow) {
        continue;
      }
      var fieldZodType: string;
      if IsScalarType(field.fieldType) {
        fieldZodType := MapPrismaTypeToZodType(ctx, processedModels.names, fieldPath, field.fieldType, None);
      } else {
        FewerUnprocessed(ctx.models, before, modelName);
        fieldZodType := GenerateRelatedModelSchema(ctx, processedModels, fieldPath, field.fieldType);
      }
      if field.isOptional && !Contains(fieldZodType, ".nullish()") {
        fieldZodType := fieldZodType + ".nullish()";
      }
      schemaFields := schemaFields + [(fieldName, fieldZodType)];
    }
    processedModels.Delete(modelName);
    assert processedModels.names == before;
    if |schemaFields| == 0 {
      return "z.object({})";
    }
    var entries := seq(|schemaFields|, j requires 0 <= j < |schemaFields| => schemaFields[j].0 + ": " + schemaFields[j].1);
    return "z.object({ " + Join(entries, ", ") + " })";
  }
}
