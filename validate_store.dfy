/**
 * The best-effort shape check of stores/utils/validateStore.ts: every
 * schema field whose runtime kind differs from the declared one is
 * reported; the state itself is never changed.
 */
module ValidateStore {
  import opened Wrappers
  import opened JsValue

  /** `SchemaType`: the five kinds a schema may declare. */
  datatype SchemaType = StringKind | NumberKind | BooleanKind | ObjectKind | ArrayKind

  function KindName(t: SchemaType): string
  {
    match t
    case StringKind => "string"
    case NumberKind => "number"
    case BooleanKind => "boolean"
    case ObjectKind => "object"
    case ArrayKind => "array"
  }

  /** A schema in `Object.entries` order: (key, declared kind) pairs. */
  type Schema = seq<(string, SchemaType)>

  /** One entry of the `errors` list. */
  datatype Mismatch = Mismatch(key: string, expected: SchemaType, actual: string)

  /** A state `validateStore` inspects: truthy and of `typeof` "object". */
  predicate IsObjectState(state: Value)
  {
    Truthy(state) && TypeOf(state) == "object"
  }

  /** The runtime kind: "array" for arrays, otherwise `typeof`. */
  function ActualType(v: Value): (k: string)
    ensures k == "array" <==> v.Arr?
    ensures k == "undefined" <==> v.Undefined?
    ensures k == "object" <==> v.Obj? || v.Null?
  {
    if v.Arr? then "array" else TypeOf(v)
  }

  /** Whether a field of runtime kind `actual` is reported against `expected`. */
  predicate Flags(expected: SchemaType, actual: string)
  {
    actual != KindName(expected) && actual != "undefined"
  }

  /** The report for one schema entry: one mismatch, or none. */
  function Check(state: Value, entry: (string, SchemaType)): seq<Mismatch>
    requires IsObjectState(state)
  {
    var actual := ActualType(Get(state, entry.0));
    if Flags(entry.1, actual) then [Mismatch(entry.0, entry.1, actual)] else []
  }

  /** The `errors` list after the loop has visited every entry of `schema`. */
  function Mismatches(state: Value, schema: Schema): seq<Mismatch>
    requires IsObjectState(state)
  {
    if schema == [] then []
    else Mismatches(state, schema[..|schema| - 1]) + Check(state, schema[|schema| - 1])
  }

  function MismatchLines(errors: seq<Mismatch>): seq<string>
  {
    seq(|errors|, i requires 0 <= i < |errors| =>
      errors[i].key + ": expected " + KindName(errors[i].expected) + ", got " + errors[i].actual)
  }

  function InvalidStateWarning(storeName: string): string
  {
    "[Validation] \"" + storeName + "\" has invalid state, returning defaults"
  }

  function MismatchWarning(storeName: string, errors: seq<Mismatch>): string
  {
    "[Validation] \"" + storeName + "\" schema mismatch:\n" + Join(MismatchLines(errors), "\n")
  }

  /**
   * `validateStore(state, schema, storeName)`: the value returned, the
   * `errors` list built, and the text passed to `console.warn`, if any.
   */
  method Validate(state: Value, schema: Schema, storeName: string)
    returns (result: Value, errors: seq<Mismatch>, warning: Option<string>)
    ensures !IsObjectState(state) ==>
      result == Obj(map[]) && errors == [] && warning == Some(InvalidStateWarning(storeName))
    ensures IsObjectState(state) ==> result == state && errors == Mismatches(state, schema)
    ensures IsObjectState(state) ==>
      (warning.Some? <==> errors != []) &&
      (errors != [] ==> warning == Some(MismatchWarning(storeName, errors)))
  {
    if !Truthy(state) || TypeOf(state) != "object" {
      return Obj(map[]), [], Some(InvalidStateWarning(storeName));
    }
    errors := [];
    var i := 0;
    while i < |schema|
      invariant 0 <= i <= |schema|
      invariant errors == Mismatches(state, schema[..i])
    {
      var (key, expectedType) := schema[i];
      var value := Get(state, key);
      var actualType := ActualType(value);
      if actualType != KindName(expectedType) && actualType != "undefined" {
        errors := errors + [Mismatch(key, expectedType, actualType)];
      }
      assert schema[..i + 1][..i] == schema[..i];
      i := i + 1;
    }
    assert schema[..|schema|] == schema;
    warning := if |errors| > 0 then Some(MismatchWarning(storeName, errors)) else None;
    result := state;
  }

  /** The object states are exactly the arrays and the (non-null) objects. */
  lemma ObjectStates(state: Value)
    ensures IsObjectState(state) <==> state.Arr? || state.Obj?
  {
  }

  /**
   * A mismatch is reported for a key exactly when the schema declares it and
   * the field's kind is neither the declared one nor "undefined".
   */
  lemma {:induction false} MismatchesExactly(state: Value, schema: Schema, m: Mismatch)
    requires IsObjectState(state)
    ensures m in Mismatches(state, schema) <==>
      (m.key, m.expected) in schema &&
      m.actual == ActualType(Get(state, m.key)) &&
      Flags(m.expected, m.actual)
  {
    if schema != [] {
      var init, last := schema[..|schema| - 1], schema[|schema| - 1];
      MismatchesExactly(state, init, m);
      assert schema == init + [last];
      assert (m.key, m.expected) in schema <==> (m.key, m.expected) in init || (m.key, m.expected) == last;
    }
  }

  /** Every schema entry contributes at most one report. */
  lemma {:induction false} MismatchesBounded(state: Value, schema: Schema)
    requires IsObjectState(state)
    ensures |Mismatches(state, schema)| <= |schema|
  {
    if schema != [] {
      MismatchesBounded(state, schema[..|schema| - 1]);
    }
  }

  /** A key the state does not have is never reported. */
  lemma MissingFieldNeverFlagged(fields: map<string, Value>, schema: Schema, m: Mismatch)
    requires m.key !in fields
    ensures m !in Mismatches(Obj(fields), schema)
  {
    MismatchesExactly(Obj(fields), schema, m);
  }

  /** A key the schema does not declare is never reported. */
  lemma ExtraKeyNeverFlagged(state: Value, schema: Schema, m: Mismatch)
    requires IsObjectState(state)
    requires forall i :: 0 <= i < |schema| ==> schema[i].0 != m.key
    ensures m !in Mismatches(state, schema)
  {
    MismatchesExactly(state, schema, m);
  }

  /** Adding keys the schema does not declare does not change the report. */
  lemma {:induction false} ExtraKeysIgnored(fields: map<string, Value>, extra: map<string, Value>, schema: Schema)
    requires forall i :: 0 <= i < |schema| ==> schema[i].0 !in extra
    ensures Mismatches(Obj(fields + extra), schema) == Mismatches(Obj(fields), schema)
  {
    if schema != [] {
      ExtraKeysIgnored(fields, extra, schema[..|schema| - 1]);
    }
  }

  /** Arrays read as "array" and never pass an "object" declaration. */
  lemma ArrayIsNotObject(items: seq<Value>)
    ensures ActualType(Arr(items)) == "array"
    ensures Flags(ObjectKind, ActualType(Arr(items)))
  {
  }

  /** `null` reads as "object", so it passes an "object" declaration. */
  lemma NullPassesObject()
    ensures ActualType(Null) == "object"
    ensures !Flags(ObjectKind, ActualType(Null))
    ensures Flags(ArrayKind, ActualType(Null))
  {
  }
}
