/**
 * The simple `where` clause pinned down by src/tests/edge-cases.spec.ts:47-63:
 * with the allow-list `where.id`, the `where` section of the `user` schema is
 * `z.object({ id: z.string() })`. The registry is cut down to the `user`
 * model's `id` and `name` fields, which is all the path touches.
 */
module SchemaExamples {
  import opened Types
  import opened Text
  import opened Normalize
  import opened PathAllowed
  import opened PathAllowedExamples
  import opened QueryOperator
  import opened ParsePrisma
  import opened ModelLookup
  import opened Helpers
  import opened ZodCode
  import opened RelatedSchema
  import opened FieldType
  import opened ScalarField
  import opened Synthesis
  import opened BuildSchema

  const StringField := Field("String", false, false, false, false)

  function UserCtx(): Ctx
  {
    Ctx([("user", [("id", StringField), ("name", StringField)])], [], [("post", ["posts"])],
        [Bare("where" + "." + "id")])
  }

  lemma SingleSegment(a: string)
    requires '.' !in a && '[' !in a
    ensures NormalSegments(a) == [a]
  {
    SplitWithout(a, '.');
    NormalizeKeyPlain(a);
  }

  /** Both prefixes of the path are allowed. */
  lemma WhereAllowed()
    ensures IsPathAllowed("where", UserCtx().allow)
    ensures IsPathAllowed("where" + "." + "id", UserCtx().allow)
  {
    var e := Bare("where" + "." + "id");
    PlainTwo("where", "id");
    SingleSegment("where");
    EntryAllowsBySegments(e, "where");
    EntryAllowsBySegments(e, "where" + "." + "id");
    assert UserCtx().allow[0] == e;
  }

  /** No segment of the path names a model. */
  lemma NoModelSegments()
    ensures ActualModel(UserCtx().models, UserCtx().synonyms, [""]) == None
    ensures ActualModel(UserCtx().models, UserCtx().synonyms, ["where"]) == None
    ensures ActualModel(UserCtx().models, UserCtx().synonyms, ["where", "id"]) == None
  {
  }

  /** `id` is a field of `user`; `where` is not, and is no operator synthesis dispatches on. */
  lemma Segments()
    ensures FieldOf(UserCtx().models, "user", "id") == Some(StringField)
    ensures PlainSegment("where") && PlainSegment("id")
    ensures Split("", '.') == [""] && Split("where", '.') == ["where"]
  {
    IdIsField();
    WhereAndIdPlain();
    SplitWithout("where", '.');
  }

  lemma IdIsField()
    ensures FieldOf(UserCtx().models, "user", "id") == Some(StringField)
  {
    assert Find(UserCtx().models, "user") == Some([("id", StringField), ("name", StringField)]);
  }

  lemma WhereAndIdPlain()
    ensures PlainSegment("where") && PlainSegment("id")
  {
    assert !EndsWith("where", "[]") && !EndsWith("id", "[]");
    assert NormalizedKey("where") == "where" && NormalizedKey("id") == "id";
  }

  /** The registry types `id` as a string. */
  lemma IdType(ctx: Ctx, path: string)
    requires ctx == UserCtx()
    ensures GetZodTypeForField(ctx, {}, path, "id", "user") == Value(Some("z.string()"))
  {
    Segments();
    ScalarFieldType(ctx, {}, path, "id", "user");
  }

  lemma IdScalar(ctx: Ctx, path: string)
    requires ctx == UserCtx()
    ensures HandleScalarField(ctx, {}, "id", Some(StringField), path, FieldConfig(None, None), "user", false)
      == Value(Some("z.string()"))
  {
    IdType(ctx, path);
  }

  /** The inner segment: `id` is a scalar field, typed by the registry. */
  lemma IdLeaf(ctx: Ctx)
    requires ctx == UserCtx()
    ensures AddToSchemaObject(ctx, {}, FieldConfig(None, None), "where", "user", ["where", "id"], 1)
      == Value(Obj([("id", Str("z.string()"))]))
  {
    WhereAllowed();
    NoModelSegments();
    Segments();
    var newPath := GetNewPath("where", "id");
    assert newPath == "where" + "." + "id";
    IdScalar(ctx, newPath);
    assert !EndsWith("id", "[]");
    assert NormalizedKey("id") == "id";
    assert Updated(ctx, "where", "user") == "user";
    TerminalValue(ctx, {}, FieldConfig(None, None), "where", "user", ["where", "id"], 1, "z.string()");
  }

  /** The outer segment: `where` nests the leaf. */
  lemma WhereTree()
    ensures AddToSchemaObject(UserCtx(), {}, FieldConfig(None, None), "", "user", ["where", "id"], 0)
      == Value(Obj([("where", Obj([("id", Str("z.string()"))]))]))
  {
    WhereAllowed();
    NoModelSegments();
    Segments();
    IdLeaf(UserCtx());
    assert !EndsWith("where", "[]");
    assert NormalizedKey("where") == "where";
    assert Updated(UserCtx(), "", "user") == "user";
    assert GetNewPath("", "where") == "where";
    InnerValue(UserCtx(), {}, FieldConfig(None, None), "", "user", ["where", "id"], 0, Obj([("id", Str("z.string()"))]));
  }

  /** The path passes `isPathValid`: `where` is a query operator and `id` a field. */
  lemma WhereValid()
    ensures IsPathValid(UserCtx(), "user", ["where", "id"])
    ensures PathModel(UserCtx(), ["where", "id"], "user") == "user"
  {
    NoModelSegments();
    var keys := ["where", "id"];
    WhereSegment(ScanAfter(UserCtx(), "user", keys, 1));
    IdSegment(ScanAfter(UserCtx(), "user", keys, 2));
    assert SegmentOk(UserCtx(), "user", keys, 0);
    assert SegmentOk(UserCtx(), "user", keys, 1);
  }

  lemma WhereSegment(s: Scan)
    ensures SegmentValid(UserCtx(), "user", "where", s)
  {
    NormalizeKeyPlain("where");
    assert QueryOperators[3] == "where";
  }

  lemma IdSegment(s: Scan)
    ensures SegmentValid(UserCtx(), "user", "id", s)
  {
    IdIsField();
  }

  /** The one entry contributes the `where` tree. */
  lemma WhereEntry(ctx: Ctx)
    requires ctx == UserCtx()
    ensures EntryTree(ctx, {}, "user", ctx.allow[0])
      == Value(Some(Obj([("where", Obj([("id", Str("z.string()"))]))])))
  {
    var e := ctx.allow[0];
    SplitTwo("where", "id", '.');
    assert Split(EntryName(e), '.') == ["where", "id"];
    WhereValid();
    WhereTree();
  }

  /** The leaf object renders as `z.object({ id: z.string() })`. */
  lemma LeafCode(leaf: seq<(string, Node)>)
    requires leaf == [("id", Str("z.string()"))]
    ensures ObjectToZodCode(Obj(leaf)) == "z.object({ id: z.string() })"
  {
    UnmarkedNoMarker(leaf);
    ObjectCode(leaf);
    assert IsIdentifier("id");
    assert ZodCode.EntryTexts(leaf) == ["id" + ": " + "z.string()"];
    assert Find(leaf, OptionalMarker).None?;
    LeafText();
  }

  lemma LeafText()
    ensures "z.object({ " + Join(["id" + ": " + "z.string()"], ", ") + " })" + "" == "z.object({ id: z.string() })"
  {
  }

  /** The `where` section renders as the test expects. */
  lemma WhereIdSection(ctx: Ctx)
    requires ctx == UserCtx()
    ensures BuildSchemaObject(ctx, {}, "user") == Value([("where", "z.object({ id: z.string() })")])
  {
    WhereEntry(ctx);
    var leaf := [("id", Str("z.string()"))];
    var t := Obj([("where", Obj(leaf))]);
    assert IsModel(ctx.models, "user");
    SingleEntrySections(ctx, {}, "user", t);
    LeafCode(leaf);
    assert Rendered(t.entries) == [("where", ObjectToZodCode(Obj(leaf)))];
  }
}
