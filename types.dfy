/**
 * Data shapes shared by the generator: the Prisma model registry, the enum
 * registry, the synonym table, allow-list entries and the intermediate schema
 * tree. JavaScript objects are ordered association lists, because key order
 * decides both the rendered text and which field is chosen as unique.
 */
module Types {

  datatype Option<+T> = None | Some(value: T)

  /** A computation that either yields a value or throws a JavaScript TypeError. */
  datatype Outcome<+T> = Value(value: T) | Thrown
  {
    predicate IsFailure() { Thrown? }
    function PropagateFailure<U>(): Outcome<U>
      requires IsFailure()
    {
      Thrown
    }
    function Extract(): T
      requires !IsFailure()
    {
      value
    }
  }

  /** The defined values of `f` over `xs`, in order: a `filter` followed by a `map`. */
  function Collect<T, U>(xs: seq<T>, f: T -> Option<U>): seq<U>
  {
    if xs == [] then []
    else
      var rest := Collect(xs[..|xs| - 1], f);
      match f(xs[|xs| - 1])
      case Some(v) => rest + [v]
      case None => rest
  }

  /** A value is collected exactly when `f` yields it for some element. */
  lemma {:induction false} CollectMembers<T, U>(xs: seq<T>, f: T -> Option<U>, v: U)
    ensures v in Collect(xs, f) <==> exists i | 0 <= i < |xs| :: f(xs[i]) == Some(v)
  {
    if xs != [] {
      var init := xs[..|xs| - 1];
      CollectMembers(init, f, v);
      if v in Collect(init, f) {
        var i :| 0 <= i < |init| && f(init[i]) == Some(v);
        assert xs[i] == init[i];
      } else if f(xs[|xs| - 1]) != Some(v) {
        forall i | 0 <= i < |xs| ensures f(xs[i]) != Some(v) {
          if i < |init| {
            assert xs[i] == init[i];
          }
        }
      }
    }
  }

  /** Collecting never yields more values than there are elements. */
  lemma {:induction false} CollectLength<T, U>(xs: seq<T>, f: T -> Option<U>)
    ensures |Collect(xs, f)| <= |xs|
  {
    if xs != [] {
      CollectLength(xs[..|xs| - 1], f);
    }
  }

  /** When `f` yields every element itself, collecting gives the sequence back. */
  lemma {:induction false} CollectAll<T>(xs: seq<T>, f: T -> Option<T>)
    requires forall i | 0 <= i < |xs| :: f(xs[i]) == Some(xs[i])
    ensures Collect(xs, f) == xs
  {
    if xs != [] {
      var init := xs[..|xs| - 1];
      assert forall i | 0 <= i < |init| :: init[i] == xs[i];
      CollectAll(init, f);
      assert f(xs[|xs| - 1]) == Some(xs[|xs| - 1]);
      assert init + [xs[|xs| - 1]] == xs;
    }
  }

  /** The value stored under `k` in an ordered association list (first entry with that key). */
  function Find<V>(d: seq<(string, V)>, k: string): Option<V>
  {
    if d == [] then None
    else if d[0].0 == k then Some(d[0].1)
    else Find(d[1..], k)
  }

  /** `Find` yields the first entry with the key, and nothing exactly when no entry has it. */
  lemma {:induction false} FindFirst<V>(d: seq<(string, V)>, k: string) returns (i: nat)
    ensures Find(d, k).Some? ==> i < |d| && d[i] == (k, Find(d, k).value) && forall j | 0 <= j < i :: d[j].0 != k
    ensures Find(d, k).None? <==> forall j | 0 <= j < |d| :: d[j].0 != k
  {
    if d == [] {
      i := 0;
    } else if d[0].0 == k {
      i := 0;
    } else {
      var i' := FindFirst(d[1..], k);
      i := i' + 1;
      assert forall j | 1 <= j < |d| :: d[j] == d[1..][j - 1];
    }
  }

  lemma FindAppend<V>(d: seq<(string, V)>, e: seq<(string, V)>, k: string)
    ensures Find(d + e, k) == if Find(d, k).Some? then Find(d, k) else Find(e, k)
  {
    if d != [] {
      assert (d + e)[1..] == d[1..] + e;
      FindAppend(d[1..], e, k);
    } else {
      assert d + e == e;
    }
  }

  lemma FindSnoc<V>(d: seq<(string, V)>, e: (string, V), k: string)
    ensures Find(d + [e], k) == if Find(d, k).Some? then Find(d, k) else if e.0 == k then Some(e.1) else None
  {
    FindAppend(d, [e], k);
    assert [e][1..] == [];
  }

  /** With unique keys, looking up the key of an entry finds that entry. */
  lemma FindUnique<V>(d: seq<(string, V)>, k: nat)
    requires UniqueKeys(d) && k < |d|
    ensures Find(d, d[k].0) == Some(d[k].1)
  {
    var i := FindFirst(d, d[k].0);
  }

  /** The keys of an association list, in order. */
  function Keys<V>(d: seq<(string, V)>): (r: seq<string>)
    ensures |r| == |d| && forall i | 0 <= i < |d| :: r[i] == d[i].0
  {
    seq(|d|, i requires 0 <= i < |d| => d[i].0)
  }

  /** No key occurs twice, which holds of every JavaScript object. */
  predicate UniqueKeys<V>(d: seq<(string, V)>)
  {
    forall i, j | 0 <= i < |d| && 0 <= j < |d| && i != j :: d[i].0 != d[j].0
  }

  /**
   * A field of a Prisma model as produced by the schema parser; an absent
   * `isUnique` or `isId` reads as false.
   */
  datatype Field = Field(fieldType: string, isOptional: bool, isList: bool, isUnique: bool, isId: bool)

  type Fields = seq<(string, Field)>

  predicate NoEmptyFieldName(models: seq<(string, Fields)>)
  {
    forall i, j | 0 <= i < |models| && 0 <= j < |models[i].1| :: models[i].1[j].0 != ""
  }

  predicate UniqueFieldNames(models: seq<(string, Fields)>)
  {
    forall i | 0 <= i < |models| :: UniqueKeys(models[i].1)
  }

  /**
   * The model registry: model name to its fields. A Prisma field name is an
   * identifier, so it is never empty, and the fields of a model form an
   * object, so no name occurs twice.
   */
  type ModelMap = m: seq<(string, Fields)> | NoEmptyFieldName(m) && UniqueFieldNames(m) witness []

  /** The enum registry: enum name to its values. */
  type EnumMap = seq<(string, seq<string>)>

  /** The synonym table: canonical model name to the names that stand for it. */
  type Synonyms = seq<(string, seq<string>)>

  type Name = s: string | s != "" witness "_"

  /**
   * The `type` override of an allow-list entry: a custom type name, an object
   * of nested overrides, an array of which only the first element is read, or
   * any other value (a number, a boolean, `null`), of which only its
   * JavaScript truthiness is observable.
   */
  datatype TypeSpec =
    | TStr(s: string)
    | TObj(entries: seq<(string, TypeSpec)>)
    | TArr(head: TypeSpec)
    | TOther(truthy: bool)

  /** An allow-list entry: a dotted path, or a structured entry with a name. */
  datatype AllowEntry =
    | Bare(path: string)
    | Config(name: Name, typ: Option<TypeSpec>, message: Option<string>)

  /** The per-entry configuration handed to the synthesis (`{}` for a bare path). */
  datatype FieldConfig = FieldConfig(typ: Option<TypeSpec>, message: Option<string>)

  function ConfigOf(e: AllowEntry): FieldConfig
  {
    match e
    case Bare(_) => FieldConfig(None, None)
    case Config(_, t, m) => FieldConfig(t, m)
  }

  /** The raw name of an entry: the path itself, or the `name` of a structured entry. */
  function EntryName(e: AllowEntry): string
  {
    match e
    case Bare(p) => p
    case Config(n, _, _) => n
  }

  /**
   * The intermediate schema tree: leaves are Zod source strings; `Undef` is
   * JavaScript `undefined`; `Bool` only ever holds the `_isOptional` marker.
   */
  datatype Node =
    | Str(s: string)
    | Obj(entries: seq<(string, Node)>)
    | Arr(items: seq<Node>)
    | Bool(b: bool)
    | Undef

  /** JavaScript truthiness of a tree value. */
  predicate Truthy(n: Node)
  {
    match n
    case Str(s) => s != ""
    case Bool(b) => b
    case Undef => false
    case _ => true
  }

  /** Everything the generator reads besides its arguments. */
  datatype Ctx = Ctx(models: ModelMap, enums: EnumMap, synonyms: Synonyms, allow: seq<AllowEntry>)

  /** `value || fallback` for an optional string. */
  function OrElse(o: Option<string>, fallback: string): string
  {
    if o.Some? && o.value != "" then o.value else fallback
  }

  /** What `undefined` or a string becomes when used as a property key. */
  function PropertyKey(o: Option<string>): string
  {
    if o.Some? then o.value else "undefined"
  }
}
