/**
 * The protocol's message shapes (the generated `abi` types) and the
 * hand-written constructors and conversions of src/pb/mod.rs.
 */
module Pb {
  import opened Wrappers

  newtype Int64 = x: int | -0x8000_0000_0000_0000 <= x < 0x8000_0000_0000_0000

  /** The `oneof` payload of a `Value`. */
  datatype Scalar = String(s: string) | Integer(i: Int64) | Bool(b: bool)

  /** A stored value; `Value(None)` is the default (absent) value. */
  datatype Value = Value(value: Option<Scalar>)

  /** `Value::default()`: no payload. */
  const DefaultValue := Value(None)

  /** A key with an optional value; `value == None` means "nothing found". */
  datatype Kvpair = Kvpair(key: string, value: Option<Value>)

  /** `Kvpair::default()`. */
  const DefaultKvpair := Kvpair("", None)

  datatype Hset = Hset(table: string, pair: Option<Kvpair>)
  datatype Hget = Hget(table: string, key: string)
  datatype Hgetall = Hgetall(table: string)
  datatype Hmset = Hmset(table: string, pairs: seq<Kvpair>)
  datatype Hmget = Hmget(table: string, keys: seq<string>)
  datatype Hdel = Hdel(table: string, key: string)
  datatype Hmdel = Hmdel(table: string, keys: seq<string>)
  datatype Hexist = Hexist(table: string, key: string)
  datatype Hmexist = Hmexist(table: string, keys: seq<string>)

  /** The nine request variants. */
  datatype RequestData =
    | HsetData(hset: Hset)
    | HmsetData(hmset: Hmset)
    | HgetData(hget: Hget)
    | HmgetData(hmget: Hmget)
    | HgetallData(hgetall: Hgetall)
    | HdelData(hdel: Hdel)
    | HmdelData(hmdel: Hmdel)
    | HexistData(hexist: Hexist)
    | HmexistData(hmexist: Hmexist)

  /** A request; `requestData == None` is a request with no data. */
  datatype CommandRequest = CommandRequest(requestData: Option<RequestData>)

  datatype CommandResponse = CommandResponse(status: nat, message: string, values: seq<Value>, pairs: seq<Kvpair>)

  /** `Kvpair::new(key, value)`. */
  function NewKvpair(key: string, value: Value): (p: Kvpair)
    ensures p.key == key && p.value == Some(value)
    ensures p.value != None
  {
    Kvpair(key, Some(value))
  }

  /** `CommandRequest::new_hset(table, key, value)`. */
  function NewHset(table: string, key: string, value: Value): (r: CommandRequest)
    ensures r.requestData.Some? && r.requestData.value.HsetData?
    ensures r.requestData.value.hset.table == table
    ensures r.requestData.value.hset.pair == Some(NewKvpair(key, value))
  {
    CommandRequest(Some(HsetData(Hset(table, Some(NewKvpair(key, value))))))
  }

  /** `CommandRequest::new_hget` (used by the tests; defined with the generated code). */
  function NewHget(table: string, key: string): CommandRequest {
    CommandRequest(Some(HgetData(Hget(table, key))))
  }

  /** `CommandRequest::new_hgetall` (used by the tests; defined with the generated code). */
  function NewHgetall(table: string): CommandRequest {
    CommandRequest(Some(HgetallData(Hgetall(table))))
  }

  /** `impl From<String> for Value`. */
  function ValueFromString(s: string): (v: Value)
    ensures v.value == Some(String(s))
    ensures v != DefaultValue
  {
    Value(Some(String(s)))
  }

  /** `impl From<&str> for Value`: the text is copied into an owned string. */
  function ValueFromStr(s: string): (v: Value)
    ensures v.value == Some(String(s))
  {
    Value(Some(String(s)))
  }

  /** `impl From<i64> for Value` (used by the tests; defined with the generated code). */
  function ValueFromInt(i: Int64): Value {
    Value(Some(Integer(i)))
  }

  /** Both string conversions give the same value for the same text. */
  lemma FromStrAgreesWithFromString(s: string)
    ensures ValueFromStr(s) == ValueFromString(s)
    ensures ValueFromStr(s) != DefaultValue
  {
  }

  /** `impl From<Value> for CommandResponse`: status 200, the value as the one element of `values`. */
  function ValueResponse(v: Value): CommandResponse {
    CommandResponse(200, "", [v], [])
  }

  /** `impl From<Vec<Kvpair>> for CommandResponse`: status 200, the pairs as `pairs`. */
  function PairsResponse(ps: seq<Kvpair>): CommandResponse {
    CommandResponse(200, "", [], ps)
  }
}
