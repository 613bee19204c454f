/**
 * Value types shared by the whole model: Option and Result for the source's
 * (value, error) returns, and decoded JSON as the core sees it after
 * `json.Unmarshal` into a `map[string]interface{}`.
 */
module Values {

  datatype Option<+T> = None | Some(value: T)

  datatype Result<+T, +E> = Ok(value: T) | Err(error: E)

  /**
   * A decoded JSON value. Arrays and objects are never inspected by the core,
   * so they are kept as their text.
   */
  datatype JsonValue =
    | JString(s: string)
    | JNumber(literal: string)
    | JBool(b: bool)
    | JNull
    | JComposite(text: string)

  datatype Member = Member(key: string, value: JsonValue)

  /** No key is listed twice. */
  predicate DistinctKeys(o: seq<Member>) {
    forall i, j :: 0 <= i < j < |o| ==> o[i].key != o[j].key
  }

  /**
   * A decoded JSON object: a Go map, so no key occurs twice. Its members are
   * listed in the order in which a Go `range` loop over the map visits them;
   * Go does not fix that order, so the model takes it as given.
   */
  type JsonObject = o: seq<Member> | DistinctKeys(o) witness []

  /** Map lookup `data[key]` with Go's comma-ok form: the value bound to key, if any. */
  function Get(o: seq<Member>, key: string): (r: Option<JsonValue>)
    ensures r.None? <==> forall i :: 0 <= i < |o| ==> o[i].key != key
    ensures r.Some? ==> exists i :: 0 <= i < |o| && o[i] == Member(key, r.value)
    ensures r.Some? && DistinctKeys(o) ==>
              forall i :: 0 <= i < |o| && o[i].key == key ==> o[i].value == r.value
  {
    if o == [] then None
    else if o[0].key == key then Some(o[0].value)
    else Get(o[1..], key)
  }
}
