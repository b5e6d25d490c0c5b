/** The Zod type of a terminal scalar or enum segment (`handleScalarField`, src/handlers.ts). */
module ScalarField {
  import opened Types
  import opened Text
  import opened ScalarType
  import opened ModelLookup
  import opened CustomType
  import opened RelatedSchema
  import opened DefaultOperation
  import opened FieldType

  /** JavaScript truthiness of a `type` override: objects and arrays are truthy, a string when non-empty. */
  predicate TypeTruthy(t: TypeSpec)
  {
    match t
    case TStr(s) => s != ""
    case TOther(truthy) => truthy
    case _ => true
  }

  /** What a possibly `undefined` string becomes inside a template or after `+=`. */
  function JsText(o: Option<string>): string
  {
    if o.Some? then o.value else "undefined"
  }

  /** The `.refine` suffix that carries a custom message, quoted verbatim. */
  function Refinement(message: string): string
  {
    ".refine((val) => true, { message: \"" + message + "\" })"
  }

  /** Step one: a truthy `message` appends the refinement. */
  function WithMessage(zodField: Option<string>, message: Option<string>): Option<string>
  {
    if message.Some? && message.value != "" then Some(JsText(zodField) + Refinement(message.value)) else zodField
  }

  /** Step two: an optional field gets `.nullish()` unless the text already holds it. */
  function WithOptional(zodField: Option<string>, field: Option<Field>): Option<string>
  {
    if field.Some? && field.value.isOptional && !(zodField.Some? && Contains(zodField.value, ".nullish()")) then
      Some(JsText(zodField) + ".nullish()")
    else zodField
  }

  /** Step three: a `[]` segment wraps the text in `z.array(...)`. */
  function WithArray(zodField: Option<string>, isArray: bool): Option<string>
  {
    if isArray then Some("z.array(" + JsText(zodField) + ")") else zodField
  }

  /** The final `zodField ? { [key]: zodField } : undefined`, as the kept string. */
  function Kept(zodField: Option<string>): Option<string>
  {
    if zodField.Some? && zodField.value != "" then zodField else None
  }

  /** The base type: the truthy `type` override, else the field's type from the registry. */
  function BaseType(ctx: Ctx, processed: set<string>, key: string, newPath: string, config: FieldConfig, modelName: string)
    : Outcome<Option<string>>
  {
    if config.typ.Some? && TypeTruthy(config.typ.value) then Value(Some(MapCustomTypeToZodType(config.typ.value)))
    else GetZodTypeForField(ctx, processed, newPath, key, modelName)
  }

  /**
   * `handleScalarField({ key, field, newPath, fieldConfig, modelName, isArray, ... })`;
   * `None` is `undefined`. A defined type is never empty; an optional field's
   * type always holds `.nullish()`, inside the array wrap when there is one;
   * a `[]` segment's type is a `z.array(...)`.
   */
  function HandleScalarField(ctx: Ctx, processed: set<string>, key: string, field: Option<Field>, newPath: string,
                             config: FieldConfig, modelName: string, isArray: bool): (r: Outcome<Option<string>>)
    ensures r.Value? && r.value.Some? ==> r.value.value != ""
    ensures r.Value? && field.Some? && field.value.isOptional ==> r.value.Some? && Contains(r.value.value, ".nullish()")
    ensures r.Value? && isArray ==> r.value.Some? && StartsWith(r.value.value, "z.array(")
  {
    var base :- BaseType(ctx, processed, key, newPath, config, modelName);
    var withMessage := WithMessage(base, config.message);
    var withOptional := WithOptional(withMessage, field);
    var wrapped := WithArray(withOptional, isArray);
    assert field.Some? && field.value.isOptional ==> withOptional.Some? && Contains(withOptional.value, ".nullish()") by {
      if field.Some? && field.value.isOptional {
        OptionalMarked(withMessage, field.value);
      }
    }
    assert field.Some? && field.value.isOptional && isArray ==> Contains(wrapped.value, ".nullish()") by {
      if field.Some? && field.value.isOptional && isArray {
        ContainsWrappedArray(withOptional.value, ".nullish()");
      }
    }
    assert isArray ==> StartsWith(wrapped.value, "z.array(") by {
      if isArray {
        assert wrapped.value[..8] == "z.array(";
      }
    }
    Value(Kept(wrapped))
  }

  /** Wrapping in `z.array(...)` keeps what the text contains. */
  lemma ContainsWrappedArray(t: string, p: string)
    requires Contains(t, p)
    ensures Contains("z.array(" + t + ")", p)
  {
    var i :| 0 <= i <= |t| && StartsWith(t[i..], p);
    var w := "z.array(" + t + ")";
    assert w[8 + i..][..|p|] == t[i..][..|p|];
  }

  /** The source's reassignments of `zodField`, step by step. */
  method ScalarFieldSchema(ctx: Ctx, processed: set<string>, key: string, field: Option<Field>, newPath: string,
                           config: FieldConfig, modelName: string, isArray: bool) returns (r: Outcome<Option<string>>)
    ensures r == HandleScalarField(ctx, processed, key, field, newPath, config, modelName, isArray)
  {
    var zodField: Option<string>;
    if config.typ.Some? && TypeTruthy(config.typ.value) {
      var t := MapCustomType(config.typ.value);
      zodField := Some(t);
    } else {
      var g := ZodTypeForField(ctx, processed, newPath, key, modelName);
      if g.Thrown? {
        return Thrown;
      }
      zodField := g.value;
    }
    if config.message.Some? && config.message.value != "" {
      zodField := Some(JsText(zodField) + Refinement(config.message.value));
    }
    if field.Some? && field.value.isOptional && !(zodField.Some? && Contains(zodField.value, ".nullish()")) {
      zodField := Some(JsText(zodField) + ".nullish()");
    }
    if isArray {
      zodField := Some("z.array(" + JsText(zodField) + ")");
    }
    if zodField.Some? && zodField.value != "" {
      return Value(zodField);
    }
    return Value(None);
  }

  /**
   * The result is `undefined` exactly when the base type is `undefined` and
   * none of the three steps applies.
   */
  lemma ScalarFieldUndefinedIff(ctx: Ctx, processed: set<string>, key: string, field: Option<Field>, newPath: string,
                                config: FieldConfig, modelName: string, isArray: bool)
    requires BaseType(ctx, processed, key, newPath, config, modelName).Value?
    ensures HandleScalarField(ctx, processed, key, field, newPath, config, modelName, isArray) == Value(None)
        <==> && BaseType(ctx, processed, key, newPath, config, modelName).value.None?
             && !(config.message.Some? && config.message.value != "")
             && !(field.Some? && field.value.isOptional)
             && !isArray
  {
    var base := BaseType(ctx, processed, key, newPath, config, modelName).value;
    if config.typ.Some? && TypeTruthy(config.typ.value) {
      var t := MapCustomTypeToZodType(config.typ.value);
    }
  }

  /**
   * A truthy `type` override wins: the result no longer depends on the
   * registry, the enum table, the processed set, the model or the registry
   * field's type (only on whether the field is optional), it never throws,
   * and it is never `undefined`.
   */
  lemma OverrideWins(ctx: Ctx, ctx': Ctx, processed: set<string>, processed': set<string>, key: string,
                     field: Option<Field>, field': Option<Field>, newPath: string, config: FieldConfig,
                     modelName: string, modelName': string, isArray: bool)
    requires config.typ.Some? && TypeTruthy(config.typ.value)
    requires field.Some? == field'.Some? && (field.Some? ==> field.value.isOptional == field'.value.isOptional)
    ensures HandleScalarField(ctx, processed, key, field, newPath, config, modelName, isArray)
         == HandleScalarField(ctx', processed', key, field', newPath, config, modelName', isArray)
    ensures HandleScalarField(ctx, processed, key, field, newPath, config, modelName, isArray).Value?
    ensures HandleScalarField(ctx, processed, key, field, newPath, config, modelName, isArray).value.Some?
  {
    var base := MapCustomTypeToZodType(config.typ.value);
    assert base != "";
  }

  /**
   * The steps apply in order: the message, then the nullish marker (added
   * once, and only when the text so far lacks it), then the array wrap.
   */
  lemma StepsInOrder(base: string, message: string, field: Field)
    requires message != "" && field.isOptional
    ensures WithArray(WithOptional(WithMessage(Some(base), Some(message)), Some(field)), true)
        == Some("z.array(" + WithNullish(base + Refinement(message), true) + ")")
    ensures WithArray(WithOptional(WithMessage(Some(base), Some(message)), Some(field)), false)
        == Some(WithNullish(base + Refinement(message), true))
  {
  }

  /** A type that already holds `.nullish()` is not marked again. */
  lemma NullishNotDoubled(base: string, field: Field)
    requires Contains(base, ".nullish()")
    ensures WithOptional(Some(base), Some(field)) == Some(base)
  {
  }

  /** An optional field's type always ends up holding `.nullish()`, whatever the base. */
  lemma OptionalMarked(zodField: Option<string>, field: Field)
    requires field.isOptional
    ensures WithOptional(zodField, Some(field)).Some?
    ensures Contains(WithOptional(zodField, Some(field)).value, ".nullish()")
  {
    if !(zodField.Some? && Contains(zodField.value, ".nullish()")) {
      var t := JsText(zodField);
      assert StartsWith((t + ".nullish()")[|t|..], ".nullish()");
    }
  }

  /** An undefined base with a message reads as the text `undefined` before the suffix. */
  lemma UndefinedWithMessage(message: string)
    requires message != ""
    ensures WithMessage(None, Some(message)) == Some("undefined" + Refinement(message))
  {
  }
}
