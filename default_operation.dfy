/** The schema of one relation operation (src/generate-default-operation.ts). */
module DefaultOperation {
  import opened Types
  import opened Text
  import opened ScalarType
  import opened ModelLookup
  import opened RelatedSchema

  function Spaces(n: nat): (r: string)
    ensures |r| == n && forall i | 0 <= i < n :: r[i] == ' '
  {
    seq(n, _ => ' ')
  }

  /**
   * A multi-line template literal: the opening text, one line per item
   * indented by `indent` and ended by a comma except the last, and the closing
   * text indented by `closeIndent`.
   */
  function Block(open: string, lines: seq<string>, indent: nat, closeIndent: nat, close: string): (r: string)
    ensures StartsWith(r, open)
  {
    var indented := seq(|lines|, i requires 0 <= i < |lines| => Spaces(indent) + lines[i]);
    var r := open + "\n" + Join(indented, ",\n") + "\n" + Spaces(closeIndent) + close;
    assert r[..|open|] == open;
    r
  }

  /** The predicate of the `find`: a scalar field that is unique or the id. */
  predicate IsUniqueScalar(f: Field)
  {
    IsScalarType(f.fieldType) && (f.isUnique || f.isId)
  }

  /** `Object.entries(modelFields).find(...)`. */
  function UniqueField(fs: Fields): Option<(string, Field)>
  {
    if fs == [] then None
    else if IsUniqueScalar(fs[0].1) then Some(fs[0])
    else UniqueField(fs[1..])
  }

  /** The unique field is the first unique scalar field in registry order, if any. */
  lemma {:induction false} UniqueFieldFirst(fs: Fields) returns (i: nat)
    ensures UniqueField(fs).None? <==> forall j | 0 <= j < |fs| :: !IsUniqueScalar(fs[j].1)
    ensures UniqueField(fs).Some? ==>
      && i < |fs| && fs[i] == UniqueField(fs).value && IsUniqueScalar(fs[i].1)
      && forall j | 0 <= j < i :: !IsUniqueScalar(fs[j].1)
  {
    if fs == [] || IsUniqueScalar(fs[0].1) {
      i := 0;
    } else {
      var i' := UniqueFieldFirst(fs[1..]);
      i := i' + 1;
      assert forall j | 1 <= j < |fs| :: fs[j] == fs[1..][j - 1];
    }
  }

  /** The model an operation works on: its synonym target, or the given name. */
  function ResolvedModel(synonyms: Synonyms, modelName: string): string
  {
    OrElse(Resolution(synonyms, modelName), modelName)
  }

  /**
   * `generateDefaultOperationSchema({ operation, modelName, fieldIsList, currentPath, ... })`.
   * `Object.entries` of a model missing from the registry throws.
   */
  function DefaultOperationSchema(ctx: Ctx, processed: set<string>, operation: string, modelName: string,
                                  fieldIsList: bool, currentPath: string): (r: Outcome<string>)
    ensures r.Thrown? || (r.value == "" <==> ResolvedModel(ctx.synonyms, modelName) == "")
  {
    var resolved := ResolvedModel(ctx.synonyms, modelName);
    if resolved == "" then Value("")
    else
      match ModelFields(ctx.models, resolved)
      case None => Thrown
      case Some(fs) =>
        match UniqueField(fs)
        case None => Value("z.any()")
        case Some(unique) =>
          var base := currentPath + "." + operation;
          var uniqueType := MapPrismaTypeToZodType(ctx, processed, base + ".where." + unique.0, unique.1.fieldType, None);
          OperationNonEmpty(ctx, processed, operation, resolved, fieldIsList, base, unique.0, uniqueType);
          Value(OperationText(ctx, processed, operation, resolved, fieldIsList, base, unique.0, uniqueType))
  }

  /** No operation's schema is the empty text. */
  lemma OperationNonEmpty(ctx: Ctx, processed: set<string>, operation: string, resolved: string, fieldIsList: bool,
                          base: string, uniqueName: string, uniqueType: string)
    ensures OperationText(ctx, processed, operation, resolved, fieldIsList, base, uniqueName, uniqueType) != ""
  {
  }

  /** A type made optional. */
  function Nullish(t: string): (r: string)
    ensures EndsWith(r, ".nullish()")
    ensures StartsWith(t, "z.") ==> StartsWith(r, "z.")
  {
    assert (t + ".nullish()")[|t|..] == ".nullish()";
    assert |t| >= 2 ==> (t + ".nullish()")[..2] == t[..2];
    t + ".nullish()"
  }

  /** The `switch` over the operation, with `base` the path of the operation itself. */
  function OperationText(ctx: Ctx, processed: set<string>, operation: string, resolved: string, fieldIsList: bool,
                         base: string, uniqueName: string, uniqueType: string): string
  {
    var unique := "z.object({ " + uniqueName + ": " + uniqueType + " })";
    var where := "where: " + unique;
    var anyWhere := "where: z.object({}).nullish()";
    match operation
    case "connect" => unique
    case "connectOrCreate" =>
      Block("z.object({", [where, "create: " + RelatedModelSchema(ctx, processed, base + ".create", resolved)], 12, 10, "})")
    case "create" => RelatedModelSchema(ctx, processed, base, resolved)
    case "createMany" =>
      var model := RelatedModelSchema(ctx, processed, base + ".data", resolved);
      Nullish(Block("z.object({", ["data: z.array(" + model + ")", "skipDuplicates: z.boolean().nullish()"], 12, 10, "})"))
    case "update" =>
      var inner :=
        if fieldIsList then
          Block("z.array(z.object({", [where, "data: " + RelatedModelSchema(ctx, processed, base + "[]" + ".data", resolved)], 14, 12, "}))")
        else
          Block("z.object({", ["data: " + RelatedModelSchema(ctx, processed, base + ".data", resolved)], 14, 12, "})");
      Nullish("z.object({ update: " + inner + " })")
    case "updateMany" =>
      Nullish(Block("z.object({", [anyWhere, "data: " + RelatedModelSchema(ctx, processed, base + ".data", resolved)], 12, 10, "})"))
    case "upsert" =>
      var create := RelatedModelSchema(ctx, processed, base + ".create", resolved);
      var update := RelatedModelSchema(ctx, processed, base + ".update", resolved);
      Block("z.object({", [where, "create: " + create, "update: " + update], 12, 10, "})")
    case "delete" =>
      Nullish(if fieldIsList then "z.object({ delete: z.array(" + unique + ") })" else "z.object({ delete: z.boolean() })")
    case "deleteMany" => Nullish(Block("z.object({", [anyWhere], 12, 10, "})"))
    case "disconnect" =>
      Nullish(if fieldIsList then "z.object({ disconnect: z.array(" + unique + ") })" else "z.object({ disconnect: z.boolean() })")
    case "set" =>
      var target := if fieldIsList then "z.array(" + unique + ")" else unique;
      Nullish("z.object({ set: " + target + " })")
    case _ => "z.any()"
  }

  /** It throws exactly when a non-empty resolved model is missing from the registry. */
  lemma DefaultOperationThrows(ctx: Ctx, processed: set<string>, operation: string, modelName: string,
                               fieldIsList: bool, currentPath: string)
    ensures DefaultOperationSchema(ctx, processed, operation, modelName, fieldIsList, currentPath).Thrown?
        <==> ResolvedModel(ctx.synonyms, modelName) != "" && !IsModel(ctx.models, ResolvedModel(ctx.synonyms, modelName))
  {
  }

  /** Without a unique scalar field every operation is `z.any()`. */
  lemma NoUniqueFieldIsAny(ctx: Ctx, processed: set<string>, operation: string, modelName: string,
                           fieldIsList: bool, currentPath: string)
    requires ResolvedModel(ctx.synonyms, modelName) != ""
    requires IsModel(ctx.models, ResolvedModel(ctx.synonyms, modelName))
    requires forall j | 0 <= j < |ModelFields(ctx.models, ResolvedModel(ctx.synonyms, modelName)).value| ::
      !IsUniqueScalar(ModelFields(ctx.models, ResolvedModel(ctx.synonyms, modelName)).value[j].1)
    ensures DefaultOperationSchema(ctx, processed, operation, modelName, fieldIsList, currentPath) == Value("z.any()")
  {
    var i := UniqueFieldFirst(ModelFields(ctx.models, ResolvedModel(ctx.synonyms, modelName)).value);
  }

  /** The unique field's type is its scalar type, whatever the path and the processed set. */
  lemma UniqueTypeIsScalar(ctx: Ctx, processed: set<string>, path: string, f: Field)
    requires IsUniqueScalar(f)
    ensures MapPrismaTypeToZodType(ctx, processed, path, f.fieldType, None) == ScalarOrEnumType(ctx.enums, f.fieldType, None)
  {
  }

  /** The eleven operations of `relationOperations`. */
  const RelationOperations: seq<string> :=
    [ "connect", "connectOrCreate", "create", "createMany", "delete", "deleteMany",
      "disconnect", "set", "update", "updateMany", "upsert" ]

  /** An operation outside the eleven is `z.any()`. */
  lemma UnknownOperationIsAny(ctx: Ctx, processed: set<string>, operation: string, resolved: string, fieldIsList: bool,
                              base: string, uniqueName: string, uniqueType: string)
    requires operation !in RelationOperations
    ensures OperationText(ctx, processed, operation, resolved, fieldIsList, base, uniqueName, uniqueType) == "z.any()"
  {
  }

  /**
   * The operations that change or remove related records are optional:
   * createMany, update, updateMany, delete, deleteMany, disconnect and set
   * all end in `.nullish()`.
   */
  lemma OptionalOperations(ctx: Ctx, processed: set<string>, operation: string, resolved: string, fieldIsList: bool,
                           base: string, uniqueName: string, uniqueType: string)
    requires operation in ["createMany", "update", "updateMany", "delete", "deleteMany", "disconnect", "set"]
    ensures EndsWith(OperationText(ctx, processed, operation, resolved, fieldIsList, base, uniqueName, uniqueType), ".nullish()")
  {
  }

  /** `connect` is the object of the first unique scalar field, typed by its scalar type. */
  lemma ConnectForm(ctx: Ctx, processed: set<string>, modelName: string, fieldIsList: bool, currentPath: string)
    requires var r := ResolvedModel(ctx.synonyms, modelName);
      r != "" && IsModel(ctx.models, r) && UniqueField(ModelFields(ctx.models, r).value).Some?
    ensures var u := UniqueField(ModelFields(ctx.models, ResolvedModel(ctx.synonyms, modelName)).value).value;
      DefaultOperationSchema(ctx, processed, "connect", modelName, fieldIsList, currentPath)
        == Value("z.object({ " + u.0 + ": " + ScalarOrEnumType(ctx.enums, u.1.fieldType, None) + " })")
  {
    var i := UniqueFieldFirst(ModelFields(ctx.models, ResolvedModel(ctx.synonyms, modelName)).value);
  }

  /** `t` occurs in a text that wraps `a + t + b`. */
  lemma ContainsWrapped(pre: string, a: string, t: string, b: string, post1: string, post2: string)
    ensures Contains(pre + (a + t + b) + post1 + post2, t)
  {
    ContainsMiddle(pre + a, t, b + post1 + post2);
    assert pre + (a + t + b) + post1 + post2 == pre + a + t + (b + post1 + post2);
  }

  /** Each line of a template block lies between a prefix and a suffix of the block. */
  lemma BlockLine(open: string, lines: seq<string>, indent: nat, closeIndent: nat, close: string, k: nat)
    returns (a: string, b: string)
    requires k < |lines|
    ensures Block(open, lines, indent, closeIndent, close) == a + lines[k] + b
  {
    var indented := seq(|lines|, i requires 0 <= i < |lines| => Spaces(indent) + lines[i]);
    var a', b' := JoinPiece(indented, ",\n", k);
    a := open + "\n" + a' + Spaces(indent);
    b := b' + "\n" + Spaces(closeIndent) + close;
  }

  /**
   * `create` is the expansion of the resolved model at the `.create` path with
   * the caller's processed set, the same for list and single relations, and
   * it is never made optional.
   */
  lemma CreateExpansion(ctx: Ctx, processed: set<string>, modelName: string, fieldIsList: bool, currentPath: string)
    requires var r := ResolvedModel(ctx.synonyms, modelName);
      r != "" && IsModel(ctx.models, r) && UniqueField(ModelFields(ctx.models, r).value).Some?
    ensures var d := DefaultOperationSchema(ctx, processed, "create", modelName, fieldIsList, currentPath);
      && d == Value(RelatedModelSchema(ctx, processed, currentPath + ".create", ResolvedModel(ctx.synonyms, modelName)))
      && d == DefaultOperationSchema(ctx, processed, "create", modelName, !fieldIsList, currentPath)
      && !EndsWith(d.value, ".nullish()")
  {
    assert currentPath + "." + "create" == currentPath + ".create";
  }

  /** `connectOrCreate` holds the unique-field `where` and the expansion under `.create`. */
  lemma ConnectOrCreateExpansion(ctx: Ctx, processed: set<string>, resolved: string, fieldIsList: bool,
                                 base: string, uniqueName: string, uniqueType: string)
    ensures var text := OperationText(ctx, processed, "connectOrCreate", resolved, fieldIsList, base, uniqueName, uniqueType);
      && Contains(text, "where: " + ("z.object({ " + uniqueName + ": " + uniqueType + " })"))
      && Contains(text, "create: " + RelatedModelSchema(ctx, processed, base + ".create", resolved))
  {
    var unique := "z.object({ " + uniqueName + ": " + uniqueType + " })";
    var lines := ["where: " + unique, "create: " + RelatedModelSchema(ctx, processed, base + ".create", resolved)];
    assert OperationText(ctx, processed, "connectOrCreate", resolved, fieldIsList, base, uniqueName, uniqueType)
      == Block("z.object({", lines, 12, 10, "})");
    var a0, b0 := BlockLine("z.object({", lines, 12, 10, "})", 0);
    ContainsMiddle(a0, lines[0], b0);
    var a1, b1 := BlockLine("z.object({", lines, 12, 10, "})", 1);
    ContainsMiddle(a1, lines[1], b1);
  }

  /** `upsert` expands the model twice, independently, under `.create` and `.update`. */
  lemma UpsertExpansions(ctx: Ctx, processed: set<string>, resolved: string, fieldIsList: bool,
                         base: string, uniqueName: string, uniqueType: string)
    ensures var text := OperationText(ctx, processed, "upsert", resolved, fieldIsList, base, uniqueName, uniqueType);
      && Contains(text, "where: " + ("z.object({ " + uniqueName + ": " + uniqueType + " })"))
      && Contains(text, "create: " + RelatedModelSchema(ctx, processed, base + ".create", resolved))
      && Contains(text, "update: " + RelatedModelSchema(ctx, processed, base + ".update", resolved))
  {
    var unique := "z.object({ " + uniqueName + ": " + uniqueType + " })";
    var lines := ["where: " + unique, "create: " + RelatedModelSchema(ctx, processed, base + ".create", resolved),
                  "update: " + RelatedModelSchema(ctx, processed, base + ".update", resolved)];
    assert OperationText(ctx, processed, "upsert", resolved, fieldIsList, base, uniqueName, uniqueType)
      == Block("z.object({", lines, 12, 10, "})");
    var a0, b0 := BlockLine("z.object({", lines, 12, 10, "})", 0);
    ContainsMiddle(a0, lines[0], b0);
    var a1, b1 := BlockLine("z.object({", lines, 12, 10, "})", 1);
    ContainsMiddle(a1, lines[1], b1);
    var a2, b2 := BlockLine("z.object({", lines, 12, 10, "})", 2);
    ContainsMiddle(a2, lines[2], b2);
  }

  /** `createMany` holds an array of the expansion under `.data`. */
  lemma CreateManyExpansion(ctx: Ctx, processed: set<string>, resolved: string, fieldIsList: bool,
                            base: string, uniqueName: string, uniqueType: string)
    ensures Contains(OperationText(ctx, processed, "createMany", resolved, fieldIsList, base, uniqueName, uniqueType),
                     "data: z.array(" + RelatedModelSchema(ctx, processed, base + ".data", resolved) + ")")
  {
    var lines := ["data: z.array(" + RelatedModelSchema(ctx, processed, base + ".data", resolved) + ")",
                  "skipDuplicates: z.boolean().nullish()"];
    assert OperationText(ctx, processed, "createMany", resolved, fieldIsList, base, uniqueName, uniqueType)
      == Block("z.object({", lines, 12, 10, "})") + ".nullish()";
    var a, b := BlockLine("z.object({", lines, 12, 10, "})", 0);
    ContainsMiddle(a, lines[0], b + ".nullish()");
    assert (a + lines[0] + b) + ".nullish()" == a + lines[0] + (b + ".nullish()");
  }

  /** `updateMany` holds the expansion under `.data`. */
  lemma UpdateManyExpansion(ctx: Ctx, processed: set<string>, resolved: string, fieldIsList: bool,
                            base: string, uniqueName: string, uniqueType: string)
    ensures Contains(OperationText(ctx, processed, "updateMany", resolved, fieldIsList, base, uniqueName, uniqueType),
                     "data: " + RelatedModelSchema(ctx, processed, base + ".data", resolved))
  {
    var lines := ["where: z.object({}).nullish()", "data: " + RelatedModelSchema(ctx, processed, base + ".data", resolved)];
    assert OperationText(ctx, processed, "updateMany", resolved, fieldIsList, base, uniqueName, uniqueType)
      == Block("z.object({", lines, 12, 10, "})") + ".nullish()";
    var a, b := BlockLine("z.object({", lines, 12, 10, "})", 1);
    ContainsMiddle(a, lines[1], b + ".nullish()");
    assert (a + lines[1] + b) + ".nullish()" == a + lines[1] + (b + ".nullish()");
  }

  /** `update` of a single relation holds the expansion under `.data`. */
  lemma UpdateExpansion(ctx: Ctx, processed: set<string>, resolved: string,
                        base: string, uniqueName: string, uniqueType: string)
    ensures Contains(OperationText(ctx, processed, "update", resolved, false, base, uniqueName, uniqueType),
                     "data: " + RelatedModelSchema(ctx, processed, base + ".data", resolved))
  {
    var lines := ["data: " + RelatedModelSchema(ctx, processed, base + ".data", resolved)];
    assert OperationText(ctx, processed, "update", resolved, false, base, uniqueName, uniqueType)
      == "z.object({ update: " + Block("z.object({", lines, 14, 12, "})") + " })" + ".nullish()";
    var a, b := BlockLine("z.object({", lines, 14, 12, "})", 0);
    ContainsWrapped("z.object({ update: ", a, lines[0], b, " })", ".nullish()");
  }

  /** `update` of a list relation holds the unique-field `where` and the expansion under `[].data`. */
  lemma UpdateListExpansion(ctx: Ctx, processed: set<string>, resolved: string,
                            base: string, uniqueName: string, uniqueType: string)
    ensures var text := OperationText(ctx, processed, "update", resolved, true, base, uniqueName, uniqueType);
      && Contains(text, "where: " + ("z.object({ " + uniqueName + ": " + uniqueType + " })"))
      && Contains(text, "data: " + RelatedModelSchema(ctx, processed, base + "[]" + ".data", resolved))
  {
    var unique := "z.object({ " + uniqueName + ": " + uniqueType + " })";
    var lines := ["where: " + unique, "data: " + RelatedModelSchema(ctx, processed, base + "[]" + ".data", resolved)];
    assert OperationText(ctx, processed, "update", resolved, true, base, uniqueName, uniqueType)
      == "z.object({ update: " + Block("z.array(z.object({", lines, 14, 12, "}))") + " })" + ".nullish()";
    var a0, b0 := BlockLine("z.array(z.object({", lines, 14, 12, "}))", 0);
    ContainsWrapped("z.object({ update: ", a0, lines[0], b0, " })", ".nullish()");
    var a1, b1 := BlockLine("z.array(z.object({", lines, 14, 12, "}))", 1);
    ContainsWrapped("z.object({ update: ", a1, lines[1], b1, " })", ".nullish()");
  }
}
