/** The fixed Prisma scalar tags (src/is-scalar-type.ts). */
module ScalarType {

  const ScalarTypes: seq<string> :=
    ["String", "Int", "Float", "Boolean", "DateTime", "Json", "BigInt", "Decimal", "Bytes"]

  /** `isScalarType(type)`: exact, case-sensitive membership in the nine tags. */
  predicate IsScalarType(t: string)
  {
    t in ScalarTypes
  }

  /** Exactly nine distinct tags; lower-case spellings and the other names are not scalar. */
  lemma ScalarTagsExact()
    ensures |ScalarTypes| == 9
    ensures forall i, j | 0 <= i < j < |ScalarTypes| :: ScalarTypes[i] != ScalarTypes[j]
    ensures !IsScalarType("string") && !IsScalarType("int") && !IsScalarType("Enum") && !IsScalarType("")
  {
  }
}

/** The keys the path validator treats as query syntax (src/is-query-operator.ts). */
module QueryOperator {

  const QueryOperators: seq<string> :=
    [ "include", "orderBy", "select", "where", "take", "skip", "AND", "NOT", "OR",
      "some", "every", "none", "equals", "contains", "startsWith", "endsWith",
      "in", "notIn", "lt", "lte", "gt", "gte", "search", "mode", "not" ]

  /** `isQueryOperator(key)`: exact, case-sensitive membership. */
  predicate IsQueryOperator(key: string)
  {
    exists i | 0 <= i < |QueryOperators| :: QueryOperators[i] == key
  }

  /** 25 keys; `limit` is not among them and the match is case-sensitive. */
  lemma QueryOperatorsExact()
    ensures |QueryOperators| == 25
    ensures !IsQueryOperator("limit") && !IsQueryOperator("and") && !IsQueryOperator("Where")
  {
  }
}

/** Path extension (src/parse-prisma.ts, `getNewPath`). */
module ParsePrisma {
  import opened Text

  /** `currentPath ? `${currentPath}.${key}` : key`. */
  function GetNewPath(currentPath: string, key: string): (r: string)
    ensures currentPath == "" ==> r == key
    ensures EndsWith(r, key)
    ensures currentPath != "" ==> Split(r, '.') == Split(currentPath, '.') + Split(key, '.')
  {
    if currentPath != "" then
      SplitAppend(currentPath, key, '.');
      assert (currentPath + "." + key)[|currentPath| + 1..] == key;
      currentPath + "." + key
    else key
  }
}
