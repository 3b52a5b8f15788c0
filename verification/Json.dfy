/** JSON values as a tree. Text parsing and printing of JSON are not modelled. */
module Json {
  import opened Base

  datatype Json =
    | Null
    | Bool(flag: bool)
    | Number(value: real)
    | String(text: string)
    | Array(items: seq<Json>)
    | Object(fields: seq<(string, Json)>)
  {
    /** A value that `===` compares by content rather than by identity. */
    predicate Primitive() {
      Null? || Bool? || Number? || String?
    }
  }

  /** The property `key` of an object, or None for `undefined`. */
  function Field(fields: seq<(string, Json)>, key: string): (r: Option<Json>)
    ensures r.Some? <==> exists i :: 0 <= i < |fields| && fields[i].0 == key
  {
    if fields == [] then None
    else if fields[0].0 == key then
      assert fields[0].0 == key; Some(fields[0].1)
    else
      assert forall i :: 1 <= i < |fields| ==> fields[i] == fields[1..][i - 1];
      Field(fields[1..], key)
  }

  /** `a === b` for two values read from different places: arrays and objects
      are distinct references and never equal; `undefined` equals no JSON value. */
  predicate StrictEquals(a: Option<Json>, b: Json) {
    a.Some? && a.value == b && b.Primitive()
  }
}
