# prisma-generator-zod: the schema generation engine, in Dafny

prisma-generator-zod turns a Prisma model registry and an allow-list of dotted
field paths (`select.profile.bio`, `where.id`, `data.tags[]`, or structured
entries with a `name`, a custom `type` and a `message`) into the source text of
a Zod validator module. This project models the generation engine that does it:

- the normalisation of `[]` list markers and the allow-list test;
- the deep merge of the per-entry trees;
- the mapping of Prisma types (the nine scalar tags, enums, relations) and of
  custom override types to Zod expressions, with the synonym lookups;
- the path-scoped synthesis (`addToSchemaObject`), which walks one allowed
  path segment by segment and dispatches on query operators, terminal
  fields, relations and plain segments;
- the expansion of related models, with its cycle guard, and the schemas of
  the eleven relation operations;
- the rendering of the intermediate tree as Zod text, the fold of the
  allow-list into sections (`buildSchemaObject`, `isPathValid`), and the
  module template of `renderFinalSchema`.

JavaScript objects become ordered association lists, because key order
decides both the rendered text and which field is chosen as the unique one.
Lookups take the first entry with the key. The intermediate tree is
`Node = Str | Obj | Arr | Bool | Undef`, where `Undef` is `undefined` and
`Bool` only ever holds the `_isOptional` marker.

Where the source mutates state, the model does too:

- `generateRelatedModelSchema` is a method over a `ProcessedModels` object
  whose set it adds to and takes back.
- `deepMerge` is a method that writes keys into a copy.
- `isPathValid` is a loop carrying `fieldType` and `parentModel`.
- `resolveModelName`, `findActualModelName`, `getZodTypeForField`,
  `handleScalarField` and `mapCustomTypeToZodType` are loops or
  reassignments.

Each such method is proved equal to a specification function, and the
lemmas state the source's behaviour about those functions.

Files and modules:

- `types.dfy` (`Types`), `text.dfy` (`Text`): shared data and the JavaScript string operations.
- `normalize.dfy` (`Normalize`), `is_path_allowed.dfy` (`PathAllowed`, `PathAllowedExamples`).
- `helpers.dfy` (`Helpers`): `isObject`, `deepMerge`.
- `scalar_and_operators.dfy` (`ScalarType`, `QueryOperator`, `ParsePrisma`).
- `model_lookup.dfy` (`ModelLookup`): registry lookups, `resolveModelName`, `findActualModelName`.
- `custom_type.dfy` (`CustomType`): `mapCustomTypeToZodType` and its parsers.
- `related_schema.dfy` (`RelatedSchema`): `mapPrismaTypeToZodType`, `generateRelatedModelSchema`.
- `default_operation.dfy` (`DefaultOperation`), `field_type.dfy` (`FieldType`), `scalar_field.dfy` (`ScalarField`).
- `zod_code.dfy` (`ZodCode`): `objectToZodCode`.
- `synthesis.dfy` (`Synthesis`): `addToSchemaObject`, `handleRelationField`.
- `build_schema_object.dfy` (`BuildSchema`), `render_final_schema.dfy` (`RenderFinal`).
- `schema_examples.dfy` (`SchemaExamples`): the `where.id` example of the repository's tests.

Inputs the engine gets from elsewhere are parameters:

- the model registry, the enum registry and the synonym table (all produced
  by parsing the Prisma schema and the allow files);
- the allow-list.

The logger and `console.warn` have no effect on results and are left out.

Two behaviours of the code that are easy to miss:

- `generateDefaultOperationSchema` calls `Object.entries` on the resolved
  model without a guard. A model missing from the registry therefore throws
  a `TypeError`. This is modelled as an `Outcome` value `Thrown` that
  propagates through every caller, rather than as a precondition.
- The `in`/`notIn` narrowing selects allow entries by a prefix test on the
  normalised path without a trailing `.`, exactly as written.

## Model

| member | source | states |
|---|---|---|
| Normalize.NormalizeKey | src/normalize.ts:3-5 | the result is never longer than the key |
| Normalize.NormalizeKeyKeepsOthers | src/normalize.ts:3-5 | only brackets are removed: every other character, `.` included, survives in order |
| Normalize.NormalizeKeyWithoutMarker | src/normalize.ts:4 | a key with no `[]` substring is returned unchanged |
| Normalize.NormalizeKeyNotIdempotent | src/normalize.ts:4 | `[[]]` becomes `[]`, and a second pass gives the empty string, so normalisation is not idempotent |
| Normalize.NormalizeKeyPlain | src/normalize.ts:4 | a key without `[` is unchanged |
| Normalize.NormalizeKeyListMarker | src/normalize.ts:4 | a trailing `[]` is dropped from an otherwise plain key |
| Normalize.NormalizeAll | src/normalize.ts:9-10 | the segment map keeps the count and normalises each segment |
| Normalize.NormalizePath | src/normalize.ts:7-11 | the segments of a normalised entry are its name's segments, each normalised |
| Normalize.NormalizedSegments | src/normalize.ts:7-11 | the segments of a normalised path are the normalised segments, same number |
| PathAllowed.EntryAllowsBySegments | src/is-path-allowed.ts:10-25 | one entry's verdict is segment equality, or a strictly longer entry whose leading segments equal the path |
| PathAllowed.IsPathAllowed | src/is-path-allowed.ts:4-27 | `isPathAllowed` itself; what it means is stated by `AllowedIff` and the lemmas below |
| PathAllowed.AllowedIff | src/is-path-allowed.ts:4-27 | a path is allowed exactly when some entry, segment by segment after normalisation, equals or extends it |
| PathAllowed.AllowedMonotone | src/is-path-allowed.ts:10 | adding entries before or after never revokes an allowed path |
| PathAllowed.AllowedPrefixClosed | src/is-path-allowed.ts:13-24 | every non-empty leading segment prefix of an allowed path is allowed |
| PathAllowed.MaxSegments | src/is-path-allowed.ts:17-24 | bounds the segment count of every entry |
| PathAllowed.AllowedDepthBound | src/is-path-allowed.ts:17-24 | an allowed path has no more segments than the deepest entry |
| PathAllowed.EmptyAllowsNothing | src/is-path-allowed.ts:10 | an empty allow-list allows nothing |
| PathAllowedExamples.DemoAccepts | src/is-path-allowed.ts:13-24 | against the test allow-list, `select.id`, `select.profile.bio` and `select.profile` are allowed |
| PathAllowedExamples.DemoRejectsAge | src/is-path-allowed.ts:13-24 | `select.age` is rejected |
| PathAllowedExamples.DemoRejectsPicture | src/is-path-allowed.ts:13-24 | `select.profile.picture` is rejected |
| PathAllowedExamples.ListMarkerIgnored | src/is-path-allowed.ts:8-11 | `select.tags` is allowed by `select.tags[]` |
| Helpers.IsObjectExactlyObjects | src/helpers.ts:1-3 | `isObject` holds exactly for objects, never for arrays, strings, booleans or `undefined` |
| Helpers.Merge | src/helpers.ts:5-21 | two arrays concatenate with the target's items first; any pairing other than two objects or two arrays gives the source |
| Helpers.MergedTarget | src/helpers.ts:9-16 | the target's keys stay in place, in order |
| Helpers.SourceOnlyFind | src/helpers.ts:10-15 | a key lies in the appended part exactly when the target lacks it, with the source's value |
| Helpers.SourceOnlyMembers | src/helpers.ts:10-15 | the appended entries are exactly the source entries whose key the target lacks |
| Helpers.MergedTargetFind | src/helpers.ts:10-13 | a shared key carries the recursive merge of both values |
| Helpers.MergeObjects | src/helpers.ts:8-17 | the merged keys are the union; shared keys merge recursively, target-only keys keep the target value, source-only keys take the source value |
| Helpers.MergeKeyOrder | src/helpers.ts:9-16 | the result lists the target's keys in order, then the source-only entries in source order |
| Helpers.MergeDisjointCommutes | src/helpers.ts:8-17 | with no shared key, either merge order maps every key to the same value |
| Helpers.MergeDepth | src/helpers.ts:5-21 | merging never makes the tree deeper than the deeper input |
| Helpers.MergeAllDepth | src/generate-zod.ts:544-549 | folding an array's items into one lowers the depth, so rendering terminates |
| Helpers.DeepMerge | src/helpers.ts:5-21 | the copy-and-write loop computes `Merge` |
| ScalarType.ScalarTagsExact | src/is-scalar-type.ts:5-16 | nine distinct tags; lower-case spellings, `Enum` and `""` are not scalar |
| QueryOperator.QueryOperatorsExact | src/is-query-operator.ts:5-32 | 25 operators, matched case-sensitively; `limit`, `and` and `Where` are not among them |
| ParsePrisma.GetNewPath | src/parse-prisma.ts:51-54 | the empty path gives the key; the result ends with the key; otherwise its segments are the path's followed by the key's |
| ModelLookup.ResolutionFirst | src/generate-zod.ts:456-462 | the resolution is the first canonical name whose synonym list holds the name, and none exactly when no list does |
| ModelLookup.ResolveModelName | src/generate-zod.ts:451-463 | the early-return loop returns that resolution of `normalizedKey \|\| modelName` |
| ModelLookup.ActualModel | src/find-actual-model-name.ts:14-33 | a defined result is a registry key; none exactly when no segment names a model or a synonym of one; a result comes from some segment |
| ModelLookup.FindActualModelName | src/find-actual-model-name.ts:5-33 | the reverse loop with early returns computes `ActualModel` |
| ModelLookup.LastSegmentWins | src/find-actual-model-name.ts:14-21 | a model named by the last segment wins over all earlier ones |
| CustomType.DigitRun | src/handlers.ts:343 | the maximal run of digits at a position |
| CustomType.LengthForm | src/handlers.ts:341-350 | `length(a,b)` with decimal bounds maps to `z.string().min(a).max(b)` |
| CustomType.MinMaxForm | src/handlers.ts:362-371 | `min(n)` and `max(n)` map to `z.number().min(n)` and `z.number().max(n)` |
| CustomType.RegexForm | src/handlers.ts:352-360 | `regex(/p/)` with a one-line `p` maps to `z.string().regex(/p/)` |
| CustomType.HandleLength | src/handlers.ts:341-350 | the result is `z.any()` exactly when no `length(a,b)` with decimal bounds occurs in the text; it always starts with `z.` |
| CustomType.HandleRegex | src/handlers.ts:352-360 | the result is `z.any()` exactly when no `regex(/p/)` with a one-line `p` occurs in the text; it always starts with `z.` |
| CustomType.HandleMinMax | src/handlers.ts:362-371 | the result is `z.any()` exactly when no `min(n)` or `max(n)` with a decimal `n` occurs in the text; it always starts with `z.` |
| CustomType.UnmatchedAreAny | src/handlers.ts:275-310 | a base is `z.any()` exactly when the form its prefix selects finds no match, or, with none of the three prefixes, when it is not one of the eight table names |
| CustomType.OptionalMarker | src/handlers.ts:273-315 | a trailing `?` appends `.nullish()` to the base type; otherwise the base type is used |
| CustomType.NamedTypesExact | src/handlers.ts:283-310 | only the eight table names (`email`, `uuid`, `url`, `currency`, `nonempty`, `string`, `number`, `boolean`) escape `z.any()` |
| CustomType.MapCustomTypeToZodType | src/handlers.ts:268-321 | every result is Zod source (starts with `z.`); a number, boolean or `null` type is `z.any()` |
| CustomType.HandleObjectType | src/handlers.ts:323-339 | an array type becomes `z.array(...)` of its first element's type; any other value an object literal `z.object({ ... })` |
| CustomType.MapCustomType | src/handlers.ts:268-339 | the reassigning method computes `MapCustomTypeToZodType`, including objects and arrays through `handleObjectType` |
| RelatedSchema.ScalarCasesExact | src/generate-zod.ts:393-420 | every scalar tag has its own case, so the `default` branch is reached by no scalar |
| RelatedSchema.WithNullish | src/generate-zod.ts:522-524 | an optional type holds `.nullish()`; a type that already holds it is unchanged |
| RelatedSchema.WithNullishIdempotent | src/generate-zod.ts:522-524 | adding the marker twice equals adding it once |
| RelatedSchema.FewerUnprocessed | src/generate-zod.ts:475-479 | marking an unprocessed registered model leaves fewer models unprocessed, which bounds the expansion |
| RelatedSchema.MapPrismaTypeToZodType | src/generate-zod.ts:381-449 | the result is `''` exactly when the type is neither scalar nor enum and does not resolve via synonyms; any other result starts with `z.` |
| RelatedSchema.MapPrismaCases | src/generate-zod.ts:393-448 | supplied values or an enum give `z.enum([...])` in order; a scalar uses the table; a resolved relation on a disallowed path gives `z.any()` |
| RelatedSchema.RelatedGuarded | src/generate-zod.ts:475-486 | an already processed model, or one missing from the registry, expands to `z.any()` |
| RelatedSchema.SchemaFields | src/generate-zod.ts:490-527 | at most one entry per field looked at |
| RelatedSchema.SchemaFieldsKept | src/generate-zod.ts:490-527 | the kept fields are exactly those whose path is allowed, in registry order, each holding the marker when optional |
| RelatedSchema.RelatedEmptyObject | src/generate-zod.ts:531-533 | a known, unprocessed model expands to `z.object({})` exactly when no field path is allowed |
| RelatedSchema.RelatedModelSchema | src/generate-zod.ts:465-539 | every expansion is Zod source (starts with `z.`) and is never itself made optional (does not end in `.nullish()`) |
| RelatedSchema.ScalarOrEnumIsZod | src/generate-zod.ts:393-420 | the scalar or enum type starts with `z.` |
| RelatedSchema.ProcessedModels.constructor | src/generate-zod.ts:475 | the object holds the given set |
| RelatedSchema.ProcessedModels.Add | src/generate-zod.ts:479 | the set gains the name |
| RelatedSchema.ProcessedModels.Delete | src/generate-zod.ts:484 | the set loses the name |
| RelatedSchema.GenerateRelatedModelSchema | src/generate-zod.ts:465-539 | the add, loop and delete method returns `RelatedModelSchema` of the set it started with, and leaves the set as it found it |
| DefaultOperation.DefaultOperationSchema | src/generate-default-operation.ts:11-220 | when it does not throw, the result is `''` exactly when the resolved model name is empty |
| DefaultOperation.OperationText | src/generate-default-operation.ts:60-219 | the `switch`; what each case holds is stated by the lemmas below |
| DefaultOperation.UniqueFieldFirst | src/generate-default-operation.ts:34-37 | the unique field is the first scalar field with `isUnique` or `isId`, in registry order; none exactly when there is no such field |
| DefaultOperation.DefaultOperationThrows | src/generate-default-operation.ts:22-37 | it throws exactly when the resolved model name is non-empty and missing from the registry |
| DefaultOperation.NoUniqueFieldIsAny | src/generate-default-operation.ts:39-44 | without a unique scalar field every operation is `z.any()` |
| DefaultOperation.UniqueTypeIsScalar | src/generate-default-operation.ts:47-57 | the unique field's type is its scalar or enum type, whatever the path |
| DefaultOperation.ConnectForm | src/generate-default-operation.ts:61-63 | `connect` is `z.object({ u: T })` for the first unique field `u` and its type `T` |
| DefaultOperation.CreateExpansion | src/generate-default-operation.ts:82-93 | for a registered model with a unique field, `create` is the related model expanded at `currentPath.create` with the caller's processed set; it is the same for list and single relations and never ends in `.nullish()` |
| DefaultOperation.ConnectOrCreateExpansion | src/generate-default-operation.ts:65-80 | `connectOrCreate` holds the unique-field `where` and the expansion at `.create` |
| DefaultOperation.CreateManyExpansion | src/generate-default-operation.ts:95-110 | `createMany` holds `data: z.array(model)` with the model expanded at `.data` |
| DefaultOperation.UpdateExpansion | src/generate-default-operation.ts:127-142 | `update` on a single relation holds the expansion at `.data` |
| DefaultOperation.UpdateListExpansion | src/generate-default-operation.ts:113-126 | `update` on a list relation holds the unique-field `where` and the expansion at `[].data` |
| DefaultOperation.UpdateManyExpansion | src/generate-default-operation.ts:144-159 | `updateMany` holds the expansion at `.data` |
| DefaultOperation.UpsertExpansions | src/generate-default-operation.ts:161-187 | `upsert` holds the unique-field `where` and two independent expansions, at `.create` and at `.update` |
| DefaultOperation.OptionalOperations | src/generate-default-operation.ts:95-215 | createMany, update, updateMany, delete, deleteMany, disconnect and set end in `.nullish()` |
| DefaultOperation.UnknownOperationIsAny | src/generate-default-operation.ts:217-218 | an operation outside the eleven is `z.any()` |
| DefaultOperation.Nullish | src/generate-default-operation.ts:109 | the result ends with `.nullish()` |
| FieldType.GetZodTypeForField | src/generate-zod.ts:273-379 | a defined type starts with `z.`; `undefined` exactly when the model lacks the field; only a relation field can throw |
| FieldType.OperationSchemasKeys | src/generate-zod.ts:328-358 | the fold's keys are exactly the allowed operations, in `relationOperations` order |
| FieldType.OperationSchemasThrown | src/generate-zod.ts:328-358 | the fold throws exactly when some allowed operation's schema throws |
| FieldType.ThrownStays | src/generate-zod.ts:328-358 | once the fold has thrown it stays thrown |
| FieldType.NothingAllowedNothingThrown | src/generate-zod.ts:328-358 | with no allowed operation the fold is empty |
| FieldType.UnknownFieldIsUndefined | src/generate-zod.ts:294-300 | an unknown model or field gives `undefined` |
| FieldType.ScalarFieldType | src/generate-zod.ts:305-323 | a scalar field's type is the table type, with `.nullish()` exactly when optional |
| FieldType.RelationWithoutOperations | src/generate-zod.ts:366-377 | a relation with no allowed operation is `z.any()` |
| FieldType.ZodTypeForField | src/generate-zod.ts:273-379 | the reassigning method, with its reduce loop, computes `GetZodTypeForField` |
| ScalarField.HandleScalarField | src/handlers.ts:109-167 | a defined type is non-empty; an optional field's type holds `.nullish()`; a list's type starts with `z.array(` |
| ScalarField.ScalarFieldUndefinedIff | src/handlers.ts:127-166 | the result is `undefined` exactly when the base type is undefined, there is no non-empty message, the field is not optional and it is not a list |
| ScalarField.OverrideWins | src/handlers.ts:129-146 | with a truthy `type` override the result is defined and does not depend on the registry, the enums, the processed set, the model or the registry field's type, only on whether the field is optional |
| ScalarField.StepsInOrder | src/handlers.ts:148-163 | the message refinement comes first, then `.nullish()`, then the `z.array` wrap |
| ScalarField.NullishNotDoubled | src/handlers.ts:155-158 | a type already holding `.nullish()` is not marked again |
| ScalarField.OptionalMarked | src/handlers.ts:155-158 | an optional field's type always ends up holding `.nullish()` |
| ScalarField.UndefinedWithMessage | src/handlers.ts:148-153 | an undefined base with a message reads as the text `undefined` before the refinement |
| ScalarField.ScalarFieldSchema | src/handlers.ts:109-167 | the reassigning method computes `HandleScalarField` |
| ZodCode.Unmarked | src/generate-zod.ts:557-558 | the kept entries are exactly those whose key is not `_isOptional` |
| ZodCode.ObjectToZodCode | src/generate-zod.ts:541-576 | a string is emitted as it is; an array becomes `z.array(...)`; an object starts with `z.object({ `; any other value is `z.any()` |
| ZodCode.KeyQuoting | src/generate-zod.ts:561-562 | an identifier key is written bare and any other key in single quotes |
| ZodCode.ObjectShape | src/generate-zod.ts:555-572 | an object's text starts with `z.object({ ` and ends in `.nullish()` exactly when its marker is set |
| ZodCode.MarkedObject | src/generate-zod.ts:556-571 | setting the marker on an unmarked object only appends `.nullish()` |
| ZodCode.SingletonArray | src/generate-zod.ts:544-550 | a one-element array of an object or a string renders as `z.array` of that element |
| ZodCode.ArrayMergesItems | src/generate-zod.ts:544-550 | an array of two one-entry objects with distinct keys renders as `z.array` of the single two-entry object they merge into |
| ZodCode.TwoEntryObject | src/generate-zod.ts:555-568 | a two-entry object renders its entries in order, separated by `, ` |
| ZodCode.OtherValuesAreAny | src/generate-zod.ts:573-575 | values that are neither strings, arrays nor objects render as `z.any()` |
| ZodCode.OptionalExample | src/generate-zod.ts:555-572 | `{ _isOptional: true, name: 'z.string()' }` renders as `z.object({ name: z.string() }).nullish()` |
| Synthesis.Grows | src/generate-zod.ts:47-57 | extending the path to an allowed one never raises the recursion budget; a non-empty key lowers it |
| Synthesis.FieldNameNonEmpty | src/generate-zod.ts:200 | a field found in the registry has a non-empty name |
| Synthesis.NestedEntries | src/handlers.ts:63-66 | exactly the entries whose raw name starts with `newPath + "."` |
| Synthesis.AddToSchemaObject | src/generate-zod.ts:27-271 | each segment's tree is `undefined` or an object holding that segment's key alone |
| Synthesis.HandleRelationField | src/handlers.ts:32-107 | it throws only for a present field with allow entries nested under its path |
| Synthesis.UndefinedCases | src/generate-zod.ts:39-265 | the four ways to `undefined`: no segment left, a disallowed path, a last segment naming neither field nor enum, an undefined child |
| Synthesis.OperatorsDisjoint | src/generate-zod.ts:20-25 | the six operator lists are pairwise disjoint |
| Synthesis.FixedOperatorTypes | src/generate-zod.ts:137-140 | number operators give `z.number()` and string operators `z.string()`, whatever the registry holds |
| Synthesis.OperatorNesting | src/generate-zod.ts:70-135 | AND/OR/NOT wrap the tree of the remaining keys in a one-element list; some/every/none hold it unwrapped |
| Synthesis.ListSuffixWraps | src/generate-zod.ts:248-269 | a `[]` suffix on a plain inner segment wraps the defined child in a one-element list |
| Synthesis.TerminalScalar | src/generate-zod.ts:196-247 | a last segment naming a scalar field holds a defined type under its key alone: with `[]`, a one-item list of a `z.array(` text; otherwise a non-empty text that holds `.nullish()` when the field is optional |
| Synthesis.InnerSegment | src/generate-zod.ts:248-269 | an inner plain segment with a defined child holds, under its key alone (inside a one-item list with `[]`), an object keyed by the next segment alone |
| Synthesis.MissingParentField | src/generate-zod.ts:141-193 | with no parent field, `in`/`notIn` give `z.any()` and a scalar operator gives `undefined` |
| Synthesis.ArrayOperatorNarrows | src/generate-zod.ts:141-172 | with a scalar or enum parent field, and values listed below the operator, `in`/`notIn` give `z.array(z.enum([...]))` of those values |
| Synthesis.EnumValuesUnderMembers | src/generate-zod.ts:147-159 | the narrowing values are the non-empty remainders of the entries under the path |
| Synthesis.RelationAnyCases | src/handlers.ts:54-106 | a missing field, an unresolved type, or nothing nested under the path each give `z.any()` |
| Synthesis.OptionalRelation | src/handlers.ts:95-103 | an optional single relation renders `.nullish()`; a list relation is a one-element list or `z.any()` |
| BuildSchema.IsPathValid | src/build-schema-object.ts:86-136 | `isPathValid` itself; what it means is stated by `PathValidIff` |
| BuildSchema.PathValidIff | src/build-schema-object.ts:101-135 | a path is valid exactly when every segment passes one of the seven disjuncts, in the state its predecessors left |
| BuildSchema.PathValid | src/build-schema-object.ts:86-136 | the loop carrying `fieldType` and `parentModel` computes `IsPathValid`, stopping at the first failure |
| BuildSchema.QuerySegment | src/build-schema-object.ts:103-127 | a query-operator segment always passes and never changes the remembered parent model |
| BuildSchema.ScanCarries | src/build-schema-object.ts:99-113 | a segment that names no field and no model leaves `fieldType` and `parentModel` as they were |
| BuildSchema.InvalidStays | src/build-schema-object.ts:101 | once a segment fails the whole path fails |
| BuildSchema.PathValidSnoc | src/build-schema-object.ts:101-135 | a longer path is valid exactly when its prefix is and its last segment passes in the prefix's state |
| BuildSchema.BuildSchemaObject | src/build-schema-object.ts:13-84 | it can throw only for a registered model with a non-empty allow-list |
| BuildSchema.EntryTreeShape | src/build-schema-object.ts:59-70 | one entry's tree is an object or `undefined` |
| BuildSchema.FoldShape | src/build-schema-object.ts:29-73 | the fold only ever holds an object or `undefined` |
| BuildSchema.SingleEntrySections | src/build-schema-object.ts:29-83 | with one entry the sections are that entry's tree, rendered |
| BuildSchema.UnknownModelIsEmpty | src/build-schema-object.ts:22-27 | a target model missing from the registry gives `{}` |
| BuildSchema.EmptyAllowIsEmpty | src/build-schema-object.ts:29-83 | an empty allow-list gives `{}` |
| BuildSchema.SkippedEntries | src/build-schema-object.ts:30-57 | nameless entries and entries failing `isPathValid` leave the fold unchanged |
| BuildSchema.SectionsRendered | src/build-schema-object.ts:75-83 | every section is a top-level key of the merged tree, rendered by `objectToZodCode` |
| RenderFinal.SectionsNode | src/render-final-schema.ts:36 | the sections become an object of strings, one entry each |
| RenderFinal.RenderFinalSchema | src/render-final-schema.ts:6-49 | it throws exactly when `buildSchemaObject` throws; otherwise the output begins with a line break, two spaces and the import line |
| RenderFinal.TemplateLines | src/render-final-schema.ts:40-46 | the output begins with `"\n  "` followed by the import line, and contains the schema and the type export lines |
| RenderFinal.SectionsVerbatim | src/render-final-schema.ts:36 | section strings appear verbatim inside the outer `z.object` |
| RenderFinal.SectionsInOutput | src/render-final-schema.ts:6-49 | the output opens with the import line, a blank indented line and `export const <model>Schema = z.object({ `; every section of `buildSchemaObject` (started with no processed models) other than the marker appears in it as `key: code` |
| SchemaExamples.WhereValid | src/build-schema-object.ts:86-136 | `where.id` on `user` passes `isPathValid` |
| SchemaExamples.WhereTree | src/generate-zod.ts:27-271 | `where.id` builds `{ where: { id: 'z.string()' } }` |
| SchemaExamples.WhereEntry | src/build-schema-object.ts:30-72 | the lone `where.id` entry contributes `{ where: { id: 'z.string()' } }` |
| SchemaExamples.LeafCode | src/generate-zod.ts:555-568 | `{ id: 'z.string()' }` renders as `z.object({ id: z.string() })` |
| SchemaExamples.WhereIdSection | src/build-schema-object.ts:13-84 | with allow-list `where.id` the `where` section of `user` is `z.object({ id: z.string() })` |

## Left out

- Reading files, parsing the Prisma schema, the allow-file extraction, the
  CLI, writing output and running eslint are I/O. The registries and the
  allow-list are parameters.
- The logger and `console.warn` produce no result.
- `handleQueryOperator` (src/handlers.ts:169-266) is called by nothing in
  the generator.
- `findEnumKeyInEnumMap` is inlined into the last-segment branch of
  `AddToSchemaObject`. There it is looked up on the single remaining key.
- Synthesis.MarkOptional: the `_isOptional` marker that the source sets on the
  array of a list relation is not modelled. Concatenation drops it, and the
  array branch of `objectToZodCode` never reads it.
- Keys that look like array indices, which JavaScript orders first, and keys
  such as `__proto__` are assumed absent.
- Types.ModelMap: the registry is assumed to have no empty and no duplicate
  field names. Prisma field names are identifiers. With an empty field name
  and an allow entry `.`, the source recurses without end.
- Types.AllowEntry: a structured entry's `name` is non-empty. A nameless or
  empty-named structured entry makes `normalizePath` call `split` on an
  object. That throws inside the allow-list test, but only when it reaches
  the entry: `some` stops at the first entry that matches, so the throw
  happens only when no earlier entry allowed the path.
- Types.TypeSpec: a number, boolean or `null` type is `TOther`, which keeps
  only its truthiness; `mapCustomTypeToZodType` maps it to `z.any()`. Of an
  array `type` only the first element is read. An empty array, or one whose
  first element is `null`, throws in the source and is not modelled: a
  `TOther` head is read as a number or boolean, giving `z.object({  })`.
- JavaScript coercions are written out as strings. An `undefined` key reads
  as `"undefined"`, an object used as a key reads as `"[object Object]"`, and
  `undefined += s` reads as `"undefined" + s`.
- DefaultOperation.OptionalOperations: the delete, disconnect and set forms
  are stated only through their `.nullish()` ending. For a list relation the
  array of unique-field objects they hold is in the definition itself, with
  no separate lemma.
- SchemaExamples: the example's registry is cut down to the `user` model's
  `id` and `name` fields, which is all the path touches.
