/**
 * The little of JavaScript's value semantics that the Chiron bridge relies on:
 * JSON documents, truthiness (what `||` and `!` test), property access on a
 * parsed document, and calls that may throw.
 */
module JsValues {
  import opened Wrappers

  /** A parsed JSON document. Object members keep their textual order. */
  datatype Json =
    | JNull
    | JBool(b: bool)
    | JNum(n: real)
    | JStr(s: string)
    | JArr(items: seq<Json>)
    | JObj(members: seq<(string, Json)>)

  /** The outcome of a call that may throw: its exception message, or its value. */
  datatype Reply<+T> = Threw(message: string) | Returned(value: T)

  /** JavaScript truthiness of a JSON value: `null`, `false`, `0` and `""` are falsy. */
  predicate Truthy(j: Json) {
    match j
    case JNull => false
    case JBool(b) => b
    case JNum(n) => n != 0.0
    case JStr(s) => s != ""
    case JArr(_) => true
    case JObj(_) => true
  }

  /** Truthiness of an optional string field: absent and `""` are falsy. */
  predicate TruthyStr(o: Option<string>) {
    o.Some? && o.value != ""
  }

  /** Truthiness of an optional number field: absent and `0` are falsy. */
  predicate TruthyNum(o: Option<real>) {
    o.Some? && o.value != 0.0
  }

  /** Truthiness of a property read, where `None` is `undefined`. */
  predicate TruthyProperty(o: Option<Json>) {
    o.Some? && Truthy(o.value)
  }

  /** `a || b` on optional strings. */
  function OrStr(a: Option<string>, b: Option<string>): (r: Option<string>)
    ensures TruthyStr(r) <==> TruthyStr(a) || TruthyStr(b)
    ensures TruthyStr(a) ==> r == a
    ensures !TruthyStr(a) ==> r == b
  {
    if TruthyStr(a) then a else b
  }

  /** `a || d` on an optional number with a numeric default. */
  function OrNum(a: Option<real>, d: real): (r: real)
    ensures TruthyNum(a) ==> r == a.value
    ensures !TruthyNum(a) ==> r == d
  {
    if TruthyNum(a) then a.value else d
  }

  /**
   * The value of member `key` of an object with the given members. When a key
   * occurs more than once, the last occurrence is the one a parser keeps.
   */
  function Lookup(members: seq<(string, Json)>, key: string): (r: Option<Json>)
    ensures r.None? <==> forall i :: 0 <= i < |members| ==> members[i].0 != key
    ensures r.Some? ==>
              exists i :: 0 <= i < |members| && members[i] == (key, r.value) &&
                          forall k :: i < k < |members| ==> members[k].0 != key
    decreases |members|
  {
    if members == [] then None
    else if members[|members| - 1].0 == key then Some(members[|members| - 1].1)
    else Lookup(members[..|members| - 1], key)
  }

  /** The message of the TypeError a property read on `null` throws. */
  function NullPropertyMessage(key: string): string {
    "Cannot read properties of null (reading '" + key + "')"
  }

  /**
   * `j.key` on a parsed document: it throws on `null`, reads the member of an
   * object, and yields `undefined` (`None`) on every other kind of value.
   */
  function Property(j: Json, key: string): (r: Reply<Option<Json>>)
    ensures r.Threw? <==> j == JNull
    ensures r.Returned? && r.value.Some? ==> j.JObj? && Lookup(j.members, key) == r.value
    ensures j.JObj? ==> r == Returned(Lookup(j.members, key))
  {
    match j
    case JNull => Threw(NullPropertyMessage(key))
    case JObj(members) => Returned(Lookup(members, key))
    case _ => Returned(None)
  }
}
