/** The Zod type of one model field (`getZodTypeForField`, src/generate-zod.ts). */
module FieldType {
  import opened Types
  import opened Text
  import opened ScalarType
  import opened PathAllowed
  import opened ModelLookup
  import opened RelatedSchema
  import opened DefaultOperation

  /**
   * The `reduce` over `relationOperations` up to the `n`-th: each operation
   * whose path is allowed, with its schema; a throwing operation aborts the whole.
   */
  function OperationSchemas(ctx: Ctx, processed: set<string>, currentPath: string, field: Field, n: nat)
    : Outcome<seq<(string, string)>>
    requires n <= |RelationOperations|
  {
    if n == 0 then Value([])
    else
      var acc :- OperationSchemas(ctx, processed, currentPath, field, n - 1);
      var operation := RelationOperations[n - 1];
      if IsPathAllowed(currentPath + "." + operation, ctx.allow) then
        var schema :- DefaultOperationSchema(ctx, processed, operation, field.fieldType, field.isList, currentPath);
        Value(acc + [(operation, schema)])
      else Value(acc)
  }

  /** The operations among the first `n` whose path under `currentPath` is allowed, in order. */
  function AllowedOperations(allow: seq<AllowEntry>, currentPath: string, n: nat): seq<string>
    requires n <= |RelationOperations|
  {
    if n == 0 then []
    else
      var rest := AllowedOperations(allow, currentPath, n - 1);
      if IsPathAllowed(currentPath + "." + RelationOperations[n - 1], allow) then rest + [RelationOperations[n - 1]] else rest
  }

  /** `getZodTypeForField({ currentPath, fieldName, modelName, ... })`; `None` is `undefined`. */
  function GetZodTypeForField(ctx: Ctx, processed: set<string>, currentPath: string, fieldName: string, modelName: string)
    : (r: Outcome<Option<string>>)
    ensures r.Value? && r.value.Some? ==> StartsWith(r.value.value, "z.")
    ensures r == Value(None) <==> FieldOf(ctx.models, modelName, fieldName).None?
    ensures r.Thrown? ==> var f := FieldOf(ctx.models, modelName, fieldName);
      f.Some? && !IsScalarType(f.value.fieldType) && !IsEnum(ctx.enums, f.value.fieldType)
  {
    match FieldOf(ctx.models, modelName, fieldName)
    case None => Value(None)
    case Some(field) =>
      if IsScalarType(field.fieldType) || IsEnum(ctx.enums, field.fieldType) then
        var zodType := MapPrismaTypeToZodType(ctx, processed, currentPath, field.fieldType, None);
        var t := WithNullish(zodType, field.isOptional);
        assert t[..2] == zodType[..2];
        Value(Some(t))
      else
        var schemas :- OperationSchemas(ctx, processed, currentPath, field, |RelationOperations|);
        if |schemas| > 0 then
          var t := "z.object({ " + Join(EntryTexts(schemas), ", ") + " })" + (if field.isOptional then ".nullish()" else "");
          assert t[..2] == "z.";
          Value(Some(t))
        else Value(Some("z.any()"))
  }

  /** Exactly the allowed operations appear, in `relationOperations` order. */
  lemma {:induction false} OperationSchemasKeys(ctx: Ctx, processed: set<string>, currentPath: string, field: Field, n: nat)
    requires n <= |RelationOperations|
    ensures OperationSchemas(ctx, processed, currentPath, field, n).Value? ==>
      Keys(OperationSchemas(ctx, processed, currentPath, field, n).value) == AllowedOperations(ctx.allow, currentPath, n)
  {
    if n > 0 {
      OperationSchemasKeys(ctx, processed, currentPath, field, n - 1);
      var r := OperationSchemas(ctx, processed, currentPath, field, n);
      var acc := OperationSchemas(ctx, processed, currentPath, field, n - 1);
      if acc.Value? && r.Value? && IsPathAllowed(currentPath + "." + RelationOperations[n - 1], ctx.allow) {
        assert Keys(r.value) == Keys(acc.value) + [RelationOperations[n - 1]];
      }
    }
  }

  /** The fold throws exactly when some allowed operation's schema throws. */
  lemma {:induction false} OperationSchemasThrown(ctx: Ctx, processed: set<string>, currentPath: string, field: Field, n: nat)
    requires n <= |RelationOperations|
    ensures OperationSchemas(ctx, processed, currentPath, field, n).Thrown? <==>
      exists j | 0 <= j < n :: OperationThrows(ctx, processed, currentPath, field, j)
  {
    if n > 0 {
      OperationSchemasThrown(ctx, processed, currentPath, field, n - 1);
      ThrownStep(ctx, processed, currentPath, field, n);
      if OperationSchemas(ctx, processed, currentPath, field, n - 1).Thrown? {
        var j :| 0 <= j < n - 1 && OperationThrows(ctx, processed, currentPath, field, j);
        assert 0 <= j < n;
      }
    }
  }

  /** One step of the fold throws when the fold so far threw or this operation throws. */
  lemma ThrownStep(ctx: Ctx, processed: set<string>, currentPath: string, field: Field, n: nat)
    requires 0 < n <= |RelationOperations|
    ensures OperationSchemas(ctx, processed, currentPath, field, n).Thrown? <==>
      OperationSchemas(ctx, processed, currentPath, field, n - 1).Thrown? || OperationThrows(ctx, processed, currentPath, field, n - 1)
  {
  }

  /** The `j`-th relation operation is allowed and its schema throws. */
  predicate OperationThrows(ctx: Ctx, processed: set<string>, currentPath: string, field: Field, j: nat)
    requires j < |RelationOperations|
  {
    && IsPathAllowed(currentPath + "." + RelationOperations[j], ctx.allow)
    && DefaultOperationSchema(ctx, processed, RelationOperations[j], field.fieldType, field.isList, currentPath).Thrown?
  }

  /** A field the model lacks, or a model the registry lacks, gives `undefined`. */
  lemma UnknownFieldIsUndefined(ctx: Ctx, processed: set<string>, currentPath: string, fieldName: string, modelName: string)
    requires FieldOf(ctx.models, modelName, fieldName).None?
    ensures GetZodTypeForField(ctx, processed, currentPath, fieldName, modelName) == Value(None)
  {
  }

  /**
   * A scalar field gets its table type, made nullish when optional; the
   * marker is never doubled.
   */
  lemma ScalarFieldType(ctx: Ctx, processed: set<string>, currentPath: string, fieldName: string, modelName: string)
    requires FieldOf(ctx.models, modelName, fieldName).Some?
    requires IsScalarType(FieldOf(ctx.models, modelName, fieldName).value.fieldType)
    requires !IsEnum(ctx.enums, FieldOf(ctx.models, modelName, fieldName).value.fieldType)
    ensures var f := FieldOf(ctx.models, modelName, fieldName).value;
      GetZodTypeForField(ctx, processed, currentPath, fieldName, modelName)
        == Value(Some(WithNullish(ScalarZodCase(f.fieldType).value, f.isOptional)))
  {
    ScalarCasesExact(FieldOf(ctx.models, modelName, fieldName).value.fieldType);
  }

  /** A relation field with no allowed operation is `z.any()`. */
  lemma RelationWithoutOperations(ctx: Ctx, processed: set<string>, currentPath: string, fieldName: string, modelName: string)
    requires FieldOf(ctx.models, modelName, fieldName).Some?
    requires !IsScalarType(FieldOf(ctx.models, modelName, fieldName).value.fieldType)
    requires !IsEnum(ctx.enums, FieldOf(ctx.models, modelName, fieldName).value.fieldType)
    requires AllowedOperations(ctx.allow, currentPath, |RelationOperations|) == []
    ensures GetZodTypeForField(ctx, processed, currentPath, fieldName, modelName) == Value(Some("z.any()"))
  {
    var f := FieldOf(ctx.models, modelName, fieldName).value;
    OperationSchemasKeys(ctx, processed, currentPath, f, |RelationOperations|);
    NothingAllowedNothingThrown(ctx, processed, currentPath, f, |RelationOperations|);
  }

  lemma {:induction false} NothingAllowedNothingThrown(ctx: Ctx, processed: set<string>, currentPath: string, field: Field, n: nat)
    requires n <= |RelationOperations|
    requires AllowedOperations(ctx.allow, currentPath, n) == []
    ensures OperationSchemas(ctx, processed, currentPath, field, n) == Value([])
  {
    if n > 0 {
      NothingAllowedNothingThrown(ctx, processed, currentPath, field, n - 1);
    }
  }

  /** The `reduce` over `relationOperations`, stopping at the first operation that throws. */
  method CollectOperations(ctx: Ctx, processed: set<string>, currentPath: string, field: Field)
    returns (r: Outcome<seq<(string, string)>>)
    ensures r == OperationSchemas(ctx, processed, currentPath, field, |RelationOperations|)
  {
    var acc: seq<(string, string)> := [];
    for i := 0 to |RelationOperations|
      invariant OperationSchemas(ctx, processed, currentPath, field, i) == Value(acc)
    {
      var operation := RelationOperations[i];
      if IsPathAllowed(currentPath + "." + operation, ctx.allow) {
        var schema := DefaultOperationSchema(ctx, processed, operation, field.fieldType, field.isList, currentPath);
        if schema.Thrown? {
          ThrownStays(ctx, processed, currentPath, field, i + 1);
          return Thrown;
        }
        acc := acc + [(operation, schema.value)];
      }
    }
    return Value(acc);
  }

  /**
   * The same computation as the source runs it: `zodType` is reassigned for an
   * optional scalar, and the `reduce` writes each operation into an accumulator.
   */
  method ZodTypeForField(ctx: Ctx, processed: set<string>, currentPath: string, fieldName: string, modelName: string)
    returns (r: Outcome<Option<string>>)
    ensures r == GetZodTypeForField(ctx, processed, currentPath, fieldName, modelName)
  {
    var modelFields := ModelFields(ctx.models, modelName);
    if modelFields.None? || Find(modelFields.value, fieldName).None? {
      return Value(None);
    }
    var field := Find(modelFields.value, fieldName).value;
    if IsScalarType(field.fieldType) || IsEnum(ctx.enums, field.fieldType) {
      var zodType := MapPrismaTypeToZodType(ctx, processed, currentPath, field.fieldType, None);
      if field.isOptional && !Contains(zodType, ".nullish()") {
        zodType := zodType + ".nullish()";
      }
      return Value(Some(zodType));
    }
    var schemas := CollectOperations(ctx, processed, currentPath, field);
    if schemas.Thrown? {
      return Thrown;
    }
    var acc := schemas.value;
    if |acc| > 0 {
      var entries := seq(|acc|, j requires 0 <= j < |acc| => acc[j].0 + ": " + acc[j].1);
      assert entries == EntryTexts(acc);
      return Value(Some("z.object({ " + Join(entries, ", ") + " })" + (if field.isOptional then ".nullish()" else "")));
    }
    return Value(Some("z.any()"));
  }

  /** Once the fold has thrown, it stays thrown. */
  lemma {:induction false} ThrownStays(ctx: Ctx, processed: set<string>, currentPath: string, field: Field, n: nat)
    requires n <= |RelationOperations|
    requires OperationSchemas(ctx, processed, currentPath, field, n).Thrown?
    ensures OperationSchemas(ctx, processed, currentPath, field, |RelationOperations|).Thrown?
    decreases |RelationOperations| - n
  {
    if n < |RelationOperations| {
      ThrownStays(ctx, processed, currentPath, field, n + 1);
    }
  }
}
