/** The generated module text (src/render-final-schema.ts). */
module RenderFinal {
  import opened Types
  import opened Text
  import opened ZodCode
  import opened BuildSchema

  const ImportLine := "import { z } from 'zod';"

  function SchemaLine(modelName: string, schemaCode: string): string
  {
    "export const " + modelName + "Schema = " + schemaCode + ";"
  }

  function TypeLine(modelName: string): string
  {
    "export type " + modelName + "Type = z.infer<typeof " + modelName + "Schema>;"
  }

  /** The template: each line indented by two spaces, with blank indented lines between. */
  function Template(modelName: string, schemaCode: string): string
  {
    "\n  " + ImportLine + "\n  \n  " + SchemaLine(modelName, schemaCode) + "\n  \n  " + TypeLine(modelName) + "\n  "
  }

  /** The sections as an object of strings, which `objectToZodCode` passes through. */
  function SectionsNode(sections: seq<(string, string)>): (r: Node)
    ensures r.Obj? && |r.entries| == |sections|
  {
    Obj(seq(|sections|, i requires 0 <= i < |sections| => (sections[i].0, Str(sections[i].1))))
  }

  /** `renderFinalSchema({ allowedPaths, modelName, modelMap, enumMap, synonyms })`. */
  function RenderFinalSchema(ctx: Ctx, modelName: string): (r: Outcome<string>)
    ensures r.Thrown? <==> BuildSchemaObject(ctx, {}, modelName).Thrown?
    ensures r.Value? ==> StartsWith(r.value, "\n  " + ImportLine)
  {
    var schemaObject :- BuildSchemaObject(ctx, {}, modelName);
    var code := ObjectToZodCode(SectionsNode(schemaObject));
    TemplateLines(modelName, code);
    Value(Template(modelName, code))
  }

  /** Where the pieces of a seven-part text lie. */
  lemma Layout(p0: string, l1: string, p1: string, l2: string, p2: string, l3: string, p3: string)
    ensures StartsWith(p0 + l1 + p1 + l2 + p2 + l3 + p3, p0 + l1)
    ensures Contains(p0 + l1 + p1 + l2 + p2 + l3 + p3, l2)
    ensures Contains(p0 + l1 + p1 + l2 + p2 + l3 + p3, l3)
  {
    var t := p0 + l1 + p1 + l2 + p2 + l3 + p3;
    var i2 := |p0 + l1 + p1|;
    var i3 := |p0 + l1 + p1 + l2 + p2|;
    assert t[..|p0 + l1|] == p0 + l1;
    assert t[i2..][..|l2|] == l2;
    assert t[i3..][..|l3|] == l3;
  }

  /**
   * The module starts with the import, after a line break and the indentation;
   * it declares the schema constant and the inferred type.
   */
  lemma TemplateLines(modelName: string, schemaCode: string)
    ensures StartsWith(Template(modelName, schemaCode), "\n  " + ImportLine)
    ensures Contains(Template(modelName, schemaCode), SchemaLine(modelName, schemaCode))
    ensures Contains(Template(modelName, schemaCode), TypeLine(modelName))
  {
    Layout("\n  ", ImportLine, "\n  \n  ", SchemaLine(modelName, schemaCode), "\n  \n  ", TypeLine(modelName), "\n  ");
  }

  /**
   * The schema expression is the rendering of the built sections, whose
   * strings appear verbatim inside the outer `z.object`.
   */
  lemma SectionsVerbatim(sections: seq<(string, string)>)
    requires forall i | 0 <= i < |sections| :: sections[i].0 != OptionalMarker
    ensures ObjectToZodCode(SectionsNode(sections))
      == "z.object({ " + Join(seq(|sections|, i requires 0 <= i < |sections| => KeyText(sections[i].0) + ": " + sections[i].1), ", ") + " })"
  {
    var es := SectionsNode(sections).entries;
    var parts := seq(|sections|, i requires 0 <= i < |sections| => KeyText(sections[i].0) + ": " + sections[i].1);
    UnmarkedNoMarker(es);
    assert EntryTexts(es) == parts;
    var f := FindFirst(es, OptionalMarker);
    assert Find(es, OptionalMarker).None?;
    ObjectCode(es);
    var body := "z.object({ " + Join(parts, ", ") + " })";
    assert ObjectToZodCode(SectionsNode(sections)) == body + "";
    assert body + "" == body;
  }

  /** A section that is not the marker is written, key and code, into the rendered sections. */
  lemma SectionInCode(sections: seq<(string, string)>, i: nat)
    requires i < |sections| && sections[i].0 != OptionalMarker
    ensures Contains(ObjectToZodCode(SectionsNode(sections)), KeyText(sections[i].0) + ": " + sections[i].1)
  {
    var es := SectionsNode(sections).entries;
    assert es[i] == (sections[i].0, Str(sections[i].1));
    var kept := Unmarked(es);
    var j :| 0 <= j < |kept| && kept[j] == es[i];
    assert EntryTexts(es)[j] == KeyText(sections[i].0) + ": " + sections[i].1;
    ObjectCode(es);
    ContainsJoined("z.object({ ", EntryTexts(es), ", ", " })",
      if Find(es, OptionalMarker).Some? && Truthy(Find(es, OptionalMarker).value) then ".nullish()" else "", j);
  }

  /** The schema expression lies inside the template, right after the import and a blank line. */
  lemma CodeInTemplate(modelName: string, code: string)
    ensures StartsWith(Template(modelName, code), "\n  " + ImportLine + "\n  \n  " + "export const " + modelName + "Schema = " + code)
    ensures Contains(Template(modelName, code), code)
  {
    var pre := "\n  " + ImportLine + "\n  \n  " + "export const " + modelName + "Schema = ";
    var post := ";" + "\n  \n  " + TypeLine(modelName) + "\n  ";
    assert Template(modelName, code) == pre + code + post;
    assert (pre + code + post)[..|pre + code|] == pre + code;
    ContainsMiddle(pre, code, post);
  }

  /** The template around rendered sections: the opening lines, then every unmarked section. */
  lemma TemplateSections(modelName: string, sections: seq<(string, string)>)
    ensures var out := Template(modelName, ObjectToZodCode(SectionsNode(sections)));
      && StartsWith(out, "\n  " + ImportLine + "\n  \n  " + "export const " + modelName + "Schema = " + "z.object({ ")
      && forall i | 0 <= i < |sections| && sections[i].0 != OptionalMarker ::
           Contains(out, KeyText(sections[i].0) + ": " + sections[i].1)
  {
    var code := ObjectToZodCode(SectionsNode(sections));
    var out := Template(modelName, code);
    CodeInTemplate(modelName, code);
    var pre := "\n  " + ImportLine + "\n  \n  " + "export const " + modelName + "Schema = ";
    StartsWithNarrow(out, pre, code, "z.object({ ");
    forall i | 0 <= i < |sections| && sections[i].0 != OptionalMarker
      ensures Contains(out, KeyText(sections[i].0) + ": " + sections[i].1)
    {
      SectionInCode(sections, i);
      ContainsTrans(out, code, KeyText(sections[i].0) + ": " + sections[i].1);
    }
  }

  /**
   * The module opens with the import, a blank line and the schema constant,
   * whose expression is a `z.object`; every section the schema object holds,
   * other than the marker, is written there as `key: code`.
   */
  lemma SectionsInOutput(ctx: Ctx, modelName: string)
    requires BuildSchemaObject(ctx, {}, modelName).Value?
    ensures RenderFinalSchema(ctx, modelName).Value?
    ensures var out := RenderFinalSchema(ctx, modelName).value;
      var sections := BuildSchemaObject(ctx, {}, modelName).value;
      && StartsWith(out, "\n  " + ImportLine + "\n  \n  " + "export const " + modelName + "Schema = " + "z.object({ ")
      && forall i | 0 <= i < |sections| && sections[i].0 != OptionalMarker ::
           Contains(out, KeyText(sections[i].0) + ": " + sections[i].1)
  {
    TemplateSections(modelName, BuildSchemaObject(ctx, {}, modelName).value);
  }
}
