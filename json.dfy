/**
 * JSON values as the client sees them. The codec itself (json_encode and
 * json_decode) is not modelled: a request body is the value handed to the
 * encoder, and a response body is the result the decoder produced.
 */
module Json {
  import opened Wrappers

  /** A JSON value; numbers are integers only. */
  datatype Json =
    | JNull
    | JBool(b: bool)
    | JNum(n: int)
    | JStr(s: string)
    | JArr(items: seq<Json>)
    | JObj(props: seq<Prop>)

  /** One property of a JSON object, in document order. */
  datatype Prop = Prop(key: string, val: Json)

  /** A PHP array: a list encodes as a JSON array, a keyed array as a JSON object. */
  type PhpArray = v: Json | v.JArr? || v.JObj? witness JArr([])

  /** The PHP empty array `[]`. */
  const EmptyArray: PhpArray := JArr([])

  /** The keys of an object's properties, in order. */
  function Keys(props: seq<Prop>): (ks: seq<string>)
    ensures |ks| == |props|
    ensures forall i :: 0 <= i < |props| ==> ks[i] == props[i].key
  {
    if |props| == 0 then [] else [props[0].key] + Keys(props[1..])
  }

  /** The value of `key` in an object; as PHP's decoder does, a later duplicate key wins. */
  function Lookup(props: seq<Prop>, key: string): (r: Option<Json>)
    ensures r.None? <==> key !in Keys(props)
    ensures r.Some? ==> exists i :: 0 <= i < |props| && props[i] == Prop(key, r.value)
    ensures r.Some? ==> forall j :: 0 <= j < |props| && props[j].key == key ==>
              props[j].val == r.value || exists k :: j < k < |props| && props[k].key == key
  {
    if |props| == 0 then None
    else
      var last := props[|props| - 1];
      assert Keys(props) == Keys(props[..|props| - 1]) + [last.key];
      if last.key == key then Some(last.val) else Lookup(props[..|props| - 1], key)
  }

  /** One item of an error response's `errors` list. */
  datatype ErrorItem = ErrorItem(message: string)

  /** A valid JSON document that decodes neither to null nor to an object. */
  type NonObject = v: Json | !v.JNull? && !v.JObj? witness JBool(false)

  /**
   * What json_decode made of a body.
   * Invalid: the body is not JSON (an empty body included); json_decode returned null and
   *   json_last_error() reports an error.
   * Null: the document `null`.
   * Obj: an object; `errors` is its `errors` list, empty when the property is absent or
   *   PHP-empty, and `props` are its other properties.
   * Other: any other valid document (array, string, number, boolean).
   */
  datatype Decoded =
    | Invalid
    | Null
    | Obj(errors: seq<ErrorItem>, props: seq<Prop>)
    | Other(v: NonObject)
}
