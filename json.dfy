/**
 * The values JSON.parse hands back, seen as Ruby objects, and the handful of
 * Ruby operations the delivery method applies to them: truthiness, `[]` with
 * a String key, `Hash#key?`, `Kernel#Array` and `each` with a two-parameter
 * block. Also the Ruby exceptions those operations can raise.
 */
module Json {
  import opened Wrappers

  /**
   * A parsed JSON value. An object is a Ruby Hash built by the parser: its
   * pairs in insertion order, each key once. Numbers are integers here.
   */
  datatype Json =
    | JNull
    | JBool(b: bool)
    | JNum(n: int)
    | JStr(s: string)
    | JArr(items: seq<Json>)
    | JObj(fields: seq<(string, Json)>)

  /** The Ruby exceptions the adapter can raise or rescue. */
  datatype Error =
    | ParserError                    // JSON::ParserError
    | ArgumentError(message: string)
    | NoMethodError(name: string)    // the receiver (nil included) has no such method
    | TypeError                      // a String index given to an Array or an Integer

  /** Ruby truthiness of an expression's value: only nil and false are false. */
  predicate Truthy(v: Option<Json>) {
    v.Some? && v.value != JNull && v.value != JBool(false)
  }

  /** No key occurs twice, as in the Hash the parser builds. */
  predicate DistinctKeys(fields: seq<(string, Json)>) {
    forall i, j :: 0 <= i < j < |fields| ==> fields[i].0 != fields[j].0
  }

  /**
   * `Hash#[]`: the value stored under `key`, or nil. When the JSON text names
   * a key twice the parser keeps the later value, so a later field wins.
   */
  function Lookup(fields: seq<(string, Json)>, key: string): (r: Option<Json>)
    ensures r.Some? ==> (key, r.value) in fields
    ensures r.None? <==> forall i :: 0 <= i < |fields| ==> fields[i].0 != key
    ensures forall i :: 0 <= i < |fields| && fields[i].0 == key && DistinctKeys(fields) ==> r == Some(fields[i].1)
  {
    if fields == [] then None
    else
      var later := Lookup(fields[1..], key);
      assert forall i :: 1 <= i < |fields| ==> fields[i] == fields[1..][i - 1];
      if later.Some? then later
      else if fields[0].0 == key then Some(fields[0].1)
      else None
  }

  /** A key named twice holds its later value: the last field carrying `key` decides. */
  lemma {:induction false} LookupLast(fields: seq<(string, Json)>, key: string, i: nat)
    requires i < |fields| && fields[i].0 == key
    requires forall j :: i < j < |fields| ==> fields[j].0 != key
    ensures Lookup(fields, key) == Some(fields[i].1)
  {
    if i > 0 {
      assert forall j :: i - 1 < j < |fields| - 1 ==> fields[1..][j] == fields[j + 1];
      LookupLast(fields[1..], key, i - 1);
    } else {
      assert Lookup(fields[1..], key).None?;
    }
  }

  /** `String#[]` with a String argument: is `part` a substring of `s`? */
  predicate Contains(s: string, part: string) {
    part <= s || (s != [] && Contains(s[1..], part))
  }

  /**
   * `v[key]` for a String key: a Hash looks the key up, a String returns the
   * key when it occurs in it, an Array or an Integer raises TypeError, and
   * nil and the booleans have no `[]` at all.
   */
  function Index(v: Json, key: string): Result<Option<Json>, Error> {
    match v
    case JObj(fields) => Success(Lookup(fields, key))
    case JStr(s) => Success(if Contains(s, key) then Some(JStr(key)) else None)
    case JArr(_) => Failure(TypeError)
    case JNum(_) => Failure(TypeError)
    case _ => Failure(NoMethodError("[]"))
  }

  /** `v.key?(key)`: only a Hash answers it. */
  function HasKey(v: Json, key: string): Result<bool, Error> {
    if v.JObj? then Success(Lookup(v.fields, key).Some?) else Failure(NoMethodError("key?"))
  }

  /**
   * `Kernel#Array`: nil gives the empty list, an Array itself, a Hash its
   * [key, value] pairs, and any other value the one-element list holding it.
   */
  function ArrayOf(v: Option<Json>): (r: seq<Json>)
    ensures v.None? || v == Some(JNull) ==> r == []
    ensures v.Some? && v.value.JArr? ==> r == v.value.items
    ensures v.Some? && v.value.JObj? ==>
      |r| == |v.value.fields| &&
      forall i :: 0 <= i < |r| ==> r[i] == JArr([JStr(v.value.fields[i].0), v.value.fields[i].1])
    ensures v.Some? && !v.value.JArr? && !v.value.JObj? && v.value != JNull ==> r == [v.value]
  {
    match v
    case None => []
    case Some(JNull) => []
    case Some(JArr(items)) => items
    case Some(JObj(fields)) => seq(|fields|, i requires 0 <= i < |fields| => JArr([JStr(fields[i].0), fields[i].1]))
    case Some(x) => [x]
  }

  /**
   * The two block parameters `|key, value|` that one element of an Array
   * binds: an Array element is spread over them (nil where it is short), any
   * other element goes to `key` and `value` is nil.
   */
  function BlockPair(e: Json): (Json, Json) {
    match e
    case JArr(xs) => (if |xs| > 0 then xs[0] else JNull, if |xs| > 1 then xs[1] else JNull)
    case _ => (e, JNull)
  }

  /**
   * `(v || {}).each do |key, value| … end`: the pairs the block receives, in
   * order. nil and false iterate the empty Hash; a String, a number or true
   * has no `each`.
   */
  function EachPair(v: Option<Json>): (r: Result<seq<(Json, Json)>, Error>)
    ensures !Truthy(v) ==> r == Success([])
    ensures v.Some? && v.value.JObj? ==>
      r.Success? && |r.value| == |v.value.fields| &&
      forall i :: 0 <= i < |r.value| ==> r.value[i] == (JStr(v.value.fields[i].0), v.value.fields[i].1)
    ensures v.Some? && v.value.JArr? ==>
      r.Success? && |r.value| == |v.value.items| &&
      forall i :: 0 <= i < |r.value| ==> r.value[i] == BlockPair(v.value.items[i])
    ensures Truthy(v) && (v.value.JStr? || v.value.JNum? || v.value.JBool?) ==> r == Failure(NoMethodError("each"))
  {
    if !Truthy(v) then Success([])
    else match v.value
      case JObj(fields) => Success(HashPairs(fields))
      case JArr(items) => Success(ArrayPairs(items))
      case _ => Failure(NoMethodError("each"))
  }

  /** The pairs a Hash yields to `each`, its String keys as Ruby values. */
  function HashPairs(fields: seq<(string, Json)>): (r: seq<(Json, Json)>)
    ensures |r| == |fields|
    ensures forall i :: 0 <= i < |r| ==> r[i] == (JStr(fields[i].0), fields[i].1)
  {
    if fields == [] then [] else [(JStr(fields[0].0), fields[0].1)] + HashPairs(fields[1..])
  }

  /** The pairs an Array yields to a two-parameter block. */
  function ArrayPairs(items: seq<Json>): (r: seq<(Json, Json)>)
    ensures |r| == |items|
    ensures forall i :: 0 <= i < |r| ==> r[i] == BlockPair(items[i])
  {
    if items == [] then [] else [BlockPair(items[0])] + ArrayPairs(items[1..])
  }
}
