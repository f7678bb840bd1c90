/** Handler errors and their HTTP rendering (backend/src/error.rs). */
module Http {

  import opened Wrappers

  /** `AppError(u16, String)`: a status code and a message. `AppError::new(code, msg)`,
      which the handlers call, is this constructor. */
  datatype AppError = AppError(status: U16, message: string)

  type U16 = n: int | 0 <= n < 0x1_0000

  /** The JSON shapes the handlers build with `json!`. */
  datatype Json = JString(text: string) | JObject(members: seq<(string, Json)>)

  datatype Response = Response(status: int, body: Json)

  /** How a handler ends: a value, an `AppError`, or a panic (an `unwrap` on a
      missing value). */
  datatype Outcome<+T> = Done(value: T) | Failed(error: AppError) | Panicked

  /** The keys of a JSON object, in order. */
  function Keys(j: Json): seq<string>
  {
    match j
    case JString(_) => []
    case JObject(ms) => seq(|ms|, i requires 0 <= i < |ms| => ms[i].0)
  }

  /** The value stored under `key` in a JSON object (the first one, if repeated). */
  function Member(j: Json, key: string): Option<Json>
    decreases j, 0
  {
    match j
    case JString(_) => None
    case JObject(ms) => FirstMember(ms, key)
  }

  function FirstMember(ms: seq<(string, Json)>, key: string): Option<Json>
  {
    if ms == [] then None
    else if ms[0].0 == key then Some(ms[0].1)
    else FirstMember(ms[1..], key)
  }

  /** `StatusCode::from_u16`: the codes it accepts. */
  predicate ValidStatus(code: int)
  {
    100 <= code <= 999
  }

  /** `into_response`: the status is the error's code and the body the object
      `{"error": message}`; a code `from_u16` refuses makes `unwrap` panic (None). */
  function IntoResponse(e: AppError): (r: Option<Response>)
    ensures r.Some? <==> ValidStatus(e.status)
    ensures r.Some? ==> r.value.status == e.status
    ensures r.Some? ==> Keys(r.value.body) == ["error"]
    ensures r.Some? ==> Member(r.value.body, "error") == Some(JString(e.message))
  {
    if ValidStatus(e.status) then
      Some(Response(e.status, JObject([("error", JString(e.message))])))
    else
      None
  }

  /** The blanket `From` conversion: any other error becomes a 500 whose message
      is that error's display text. */
  function FromError(display: string): (e: AppError)
    ensures e.status == 500 && e.message == display
  {
    AppError(500, display)
  }

  /** A converted error always renders, as a 500 carrying its display text. */
  lemma ConvertedErrorRenders(display: string)
    ensures IntoResponse(FromError(display)) == Some(Response(500, JObject([("error", JString(display))])))
  {
  }

  /** `to_lowercase` on the ASCII letters; every other character is kept. */
  function Lower(s: string): (r: string)
    ensures |r| == |s|
    ensures forall i :: 0 <= i < |s| ==> r[i] == LowerChar(s[i])
  {
    if s == [] then [] else [LowerChar(s[0])] + Lower(s[1..])
  }

  function LowerChar(c: char): char
  {
    if 'A' <= c <= 'Z' then (c as int - 'A' as int + 'a' as int) as char else c
  }

  /** Lower-casing is idempotent, so a name that is already lower case is
      matched as is. */
  lemma {:induction false} LowerIdempotent(s: string)
    ensures Lower(Lower(s)) == Lower(s)
  {
    if s != [] {
      LowerIdempotent(s[1..]);
      assert Lower(s)[1..] == Lower(s[1..]);
    }
  }
}
