/** JSON values, and the readers that the generated parsers are made of. */
module JsonValues {
  import opened Prelude

  datatype Json =
    | Null
    | Bool(value: bool)
    | Num(number: int)
    | Str(text: string)
    | Arr(items: seq<Json>)
    | Obj(fields: map<string, Json>)

  const INT64_MIN := -0x8000_0000_0000_0000
  const INT64_MAX := 0x7fff_ffff_ffff_ffff

  type Int64 = n: int | INT64_MIN <= n <= INT64_MAX witness 0

  datatype ParseError = NotAnObject | MissingMember(key: string) | TypeMismatch(key: string) | UnknownProperty

  datatype Parsed<+T> = Accept(value: T) | Reject(error: ParseError) {
    predicate IsFailure() {
      Reject?
    }

    function PropagateFailure<U>(): Parsed<U>
      requires Reject?
    {
      Reject(error)
    }

    function Extract(): T
      requires Accept?
    {
      value
    }
  }

  /** A member of an object. A null value has no members. */
  function Item(j: Json, key: string): Option<Json> {
    if j.Obj? && key in j.fields then Some(j.fields[key]) else None
  }

  function CheckObjectOrNull(j: Json): Parsed<()> {
    if j.Obj? || j.Null? then Accept(()) else Reject(NotAnObject)
  }

  function StringAt(j: Json, key: string): Parsed<string> {
    match Item(j, key)
    case Some(Str(s)) => Accept(s)
    case Some(_) => Reject(TypeMismatch(key))
    case None => Reject(MissingMember(key))
  }

  function BoolAt(j: Json, key: string): Parsed<bool> {
    match Item(j, key)
    case Some(Bool(b)) => Accept(b)
    case Some(_) => Reject(TypeMismatch(key))
    case None => Reject(MissingMember(key))
  }

  /** A missing member and an explicit null both give an empty optional. */
  function OptionalStringAt(j: Json, key: string): Parsed<Option<string>> {
    match Item(j, key)
    case Some(Str(s)) => Accept(Some(s))
    case Some(Null) => Accept(None)
    case Some(_) => Reject(TypeMismatch(key))
    case None => Accept(None)
  }

  function OptionalInt64At(j: Json, key: string): Parsed<Option<Int64>> {
    match Item(j, key)
    case Some(Num(n)) => if INT64_MIN <= n <= INT64_MAX then Accept(Some(n)) else Reject(TypeMismatch(key))
    case Some(Null) => Accept(None)
    case Some(_) => Reject(TypeMismatch(key))
    case None => Accept(None)
  }

  function NoAdditionalProperties(j: Json, names: set<string>): Parsed<()> {
    if j.Obj? && !(j.fields.Keys <= names) then Reject(UnknownProperty) else Accept(())
  }

  /** The members that the schema does not name, as an object. */
  function AdditionalProperties(j: Json, names: set<string>): Json {
    if j.Obj? then Obj(j.fields - names) else Obj(map[])
  }

  /** Adds one member. A null builder becomes an object. */
  function With(j: Json, key: string, value: Json): Json
    requires j.Obj? || j.Null?
  {
    Obj((if j.Obj? then j.fields else map[])[key := value])
  }

  /** Members of objects are merged one by one; anything else is replaced by the patch. */
  function Merge(original: Json, patch: Json): Json
    decreases patch
  {
    if original.Obj? && patch.Obj? then
      Obj(map k | k in original.fields.Keys + patch.fields.Keys ::
        if k !in patch.fields then original.fields[k]
        else if k in original.fields then Merge(original.fields[k], patch.fields[k])
        else patch.fields[k])
    else patch
  }

  /** The value at the end of a path of member names is this one, and it is no object. */
  predicate Leaf(j: Json, path: seq<string>, value: Json) {
    if path == [] then j == value && !value.Obj?
    else j.Obj? && path[0] in j.fields && Leaf(j.fields[path[0]], path[1..], value)
  }

  /** The patch leaves room for the path: it goes along with it through objects, and then lacks a member. */
  predicate LeavesOpen(patch: Json, path: seq<string>) {
    path != [] && patch.Obj? && (path[0] !in patch.fields || LeavesOpen(patch.fields[path[0]], path[1..]))
  }

  /** The leaves of a merge, at any depth, are those of the patch and those of the original for which the
      patch leaves room. */
  lemma {:induction false} MergeByLeaves(original: Json, patch: Json, path: seq<string>, value: Json)
    ensures Leaf(Merge(original, patch), path, value) <==>
      Leaf(patch, path, value) || (Leaf(original, path, value) && LeavesOpen(patch, path))
    decreases path
  {
    if path != [] && original.Obj? && patch.Obj? && path[0] in original.fields && path[0] in patch.fields {
      MergeByLeaves(original.fields[path[0]], patch.fields[path[0]], path[1..], value);
    }
  }

  /** No member is an object itself. */
  predicate Flat(j: Json) {
    j.Obj? && forall k :: k in j.fields ==> !j.fields[k].Obj?
  }

  /** Merging a flat patch is a plain override of members. */
  lemma MergeFlat(original: Json, patch: Json)
    requires original.Obj? && Flat(patch)
    ensures Merge(original, patch) == Obj(original.fields + patch.fields)
  {
    var merged := Merge(original, patch);
    forall k | k in merged.fields
      ensures merged.fields[k] == (original.fields + patch.fields)[k]
    {
      if k in original.fields && k in patch.fields {
        assert Merge(original.fields[k], patch.fields[k]) == patch.fields[k];
      }
    }
    assert merged.fields.Keys == (original.fields + patch.fields).Keys;
    assert merged.fields == original.fields + patch.fields;
  }

  /** A member of a merged object. */
  function MergedMember(original: map<string, Json>, patch: map<string, Json>, key: string): Json
    requires key in original || key in patch
  {
    if key !in patch then original[key]
    else if key in original then Merge(original[key], patch[key])
    else patch[key]
  }

  lemma MergeOfMembers(original: map<string, Json>, patch: map<string, Json>, merged: map<string, Json>)
    requires merged.Keys == original.Keys + patch.Keys
    requires forall k :: k in merged ==> merged[k] == MergedMember(original, patch, k)
    ensures Merge(Obj(original), Obj(patch)) == Obj(merged)
  {
    assert Merge(Obj(original), Obj(patch)).fields == merged;
  }

  /** Merges the members of the patch one after another, in an arbitrary order. */
  method MergeByMember(original: Json, patch: Json) returns (r: Json)
    ensures r == Merge(original, patch)
    decreases patch
  {
    if !original.Obj? || !patch.Obj? {
      return patch;
    }
    var fields := original.fields;
    var todo := patch.fields.Keys;
    while todo != {}
      invariant todo <= patch.fields.Keys
      invariant fields.Keys == original.fields.Keys + (patch.fields.Keys - todo)
      invariant forall k :: k in fields && k in todo ==> fields[k] == original.fields[k]
      invariant forall k :: k in fields && k !in todo ==> fields[k] == MergedMember(original.fields, patch.fields, k)
      decreases |todo|
    {
      var key :| key in todo;
      var next := patch.fields[key];
      if key in fields {
        next := MergeByMember(fields[key], next);
      }
      fields := fields[key := next];
      todo := todo - {key};
    }
    MergeOfMembers(original.fields, patch.fields, fields);
    return Obj(fields);
  }

  /** A JSON value under construction. */
  class ValueBuilder {
    var value: Json

    constructor (value: Json)
      ensures this.value == value
    {
      this.value := value;
    }

    method Set(key: string, member: Json)
      requires value.Obj? || value.Null?
      modifies this
      ensures value == With(old(value), key, member)
    {
      var fields := if value.Obj? then value.fields else map[];
      value := Obj(fields[key := member]);
    }

    method MergeIn(patch: Json)
      modifies this
      ensures value == Merge(old(value), patch)
    {
      value := MergeByMember(value, patch);
    }
  }
}
