/** Values produced by JSON.parse, with JavaScript's truthiness and own-property lookup. */
module Json {
  import opened Wrappers

  /** A JSON value. JavaScript numbers are doubles; they are reals here, which keeps
      their truthiness (only zero is falsy, and JSON text cannot denote NaN). */
  datatype JsonValue =
    | JNull
    | JBool(b: bool)
    | JNumber(n: real)
    | JString(s: string)
    | JArray(items: seq<JsonValue>)
    | JObject(fields: seq<Field>)
  {
    /** JavaScript's ToBoolean: null, false, 0 and "" are falsy; arrays and objects are truthy. */
    predicate Truthy() {
      match this
      case JNull => false
      case JBool(b) => b
      case JNumber(n) => n != 0.0
      case JString(s) => s != ""
      case JArray(_) => true
      case JObject(_) => true
    }
  }

  /** One own enumerable property of an object. */
  datatype Field = Field(key: string, value: JsonValue)

  predicate DistinctKeys(fs: seq<Field>) {
    forall i, j | 0 <= i < j < |fs| :: fs[i].key != fs[j].key
  }

  /** A parsed object: its own properties in Object.keys order. JSON.parse keeps one
      property per key, so keys are distinct. */
  type JsonObject = fs: seq<Field> | DistinctKeys(fs)

  /** `obj.hasOwnProperty(key)` */
  predicate HasOwn(obj: JsonObject, key: string) {
    exists i | 0 <= i < |obj| :: obj[i].key == key
  }

  /** `obj[key]`, with None for `undefined`. A parsed object inherits nothing under the
      keys this model reads, so only own properties are consulted. */
  function Get(obj: JsonObject, key: string): (r: Option<JsonValue>)
    ensures r.Some? <==> HasOwn(obj, key)
    ensures r.Some? ==> Field(key, r.value) in obj
    decreases |obj|
  {
    if |obj| == 0 then None
    else if obj[0].key == key then Some(obj[0].value)
    else
      var r := Get(obj[1..], key);
      assert HasOwn(obj[1..], key) ==> HasOwn(obj, key);
      assert HasOwn(obj, key) ==> HasOwn(obj[1..], key) by {
        if HasOwn(obj, key) {
          var i :| 0 <= i < |obj| && obj[i].key == key;
          assert obj[1..][i - 1].key == key;
        }
      }
      r
  }

  /** Because keys are distinct, a field of the object is exactly what lookup returns. */
  lemma GetFindsField(obj: JsonObject, f: Field)
    requires f in obj
    ensures Get(obj, f.key) == Some(f.value)
  {
    var i :| 0 <= i < |obj| && obj[i] == f;
    var r := Get(obj, f.key);
    assert r.Some?;
    var j :| 0 <= j < |obj| && obj[j] == Field(f.key, r.value);
    assert i == j;
  }

  /** The JavaScript test `obj.key && …`: the property exists and is truthy. */
  predicate TruthyProp(obj: JsonObject, key: string) {
    var v := Get(obj, key);
    v.Some? && v.value.Truthy()
  }
}
