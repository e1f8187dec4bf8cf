/** The activity data model: result codes, modes, and the `ActivityResult`
    record whose fields are fixed by its constructor. */
module ActivityTypes {
  import opened Base
  import opened Json

  /** `ActivityResultCode`. A code read off the wire that is none of the
      three names is carried as `Unknown`. */
  datatype ResultCode = OK | CANCELED | FAILED | Unknown(raw: Json)

  /** The wire form of a code (`'ok'`, `'canceled'`, `'failed'`). */
  function CodeJson(c: ResultCode): Json
  {
    match c
    case OK => JStr("ok")
    case CANCELED => JStr("canceled")
    case FAILED => JStr("failed")
    case Unknown(raw) => raw
  }

  /** The payload of a `result` command: `{code, data}`. */
  function ResultPayload(code: ResultCode, data: Json): Json
  {
    JObj([Member("code", CodeJson(code)), Member("data", data)])
  }

  /** Reading a code off the wire: `payload['code']` compared with the three names. */
  function CodeFromJson(j: Json): (c: ResultCode)
    ensures CodeJson(c) == j
  {
    if j == JStr("ok") then OK
    else if j == JStr("canceled") then CANCELED
    else if j == JStr("failed") then FAILED
    else Unknown(j)
  }

  /** `payload['code']` as a code: the three names are recognised, and
      anything else, an absent code included, is none of them. */
  function CodeField(v: Option<Json>): (c: ResultCode)
    ensures c == OK <==> v == Some(JStr("ok"))
    ensures c == CANCELED <==> v == Some(JStr("canceled"))
    ensures c == FAILED <==> v == Some(JStr("failed"))
  {
    match v
    case Some(j) => CodeFromJson(j)
    case None => Unknown(JNull)
  }

  /** A code value that the wire form describes without ambiguity. */
  predicate Canonical(c: ResultCode) {
    c.Unknown? ==> c.raw != JStr("ok") && c.raw != JStr("canceled") && c.raw != JStr("failed")
  }

  lemma CodeWireRoundTrip(c: ResultCode)
    requires Canonical(c)
    ensures CodeFromJson(CodeJson(c)) == c
  {
  }

  /** `ActivityMode`. */
  datatype Mode = IFRAME | POPUP | REDIRECT

  function ModeName(m: Mode): string
  {
    match m
    case IFRAME => "iframe"
    case POPUP => "popup"
    case REDIRECT => "redirect"
  }

  /** The three modes have three distinct names, and no other name is a mode. */
  lemma ModeNamesDistinct(m1: Mode, m2: Mode)
    ensures ModeName(m1) == ModeName(m2) <==> m1 == m2
  {
    if m1 != m2 {
      assert ModeName(m1)[0] != ModeName(m2)[0] || |ModeName(m1)| != |ModeName(m2)|;
    }
  }

  /** An error object: its `name`, its `message` and, for a DOMException, its `code`. */
  datatype ErrorValue = ErrorValue(name: string, message: string, code: Option<int>)

  /** `new Error(message)`. */
  function PlainError(message: string): ErrorValue
  {
    ErrorValue("Error", message, None)
  }

  /** A value of the `*` data slot: a JSON value, or an `Error` instance
      (the popup port wraps a FAILED payload in one). */
  datatype Value = JsonValue(json: Json) | ErrorObject(message: string)

  const NullValue: Value := JsonValue(JNull)

  /** `String(v)`. */
  function ToJsString(v: Value): string
  {
    match v
    case ErrorObject(m) => if m == "" then "Error" else "Error: " + m
    case JsonValue(j) => JsonText(j)
  }

  function JsonText(j: Json): string
    decreases j
  {
    match j
    case JNull => "null"
    case JBool(b) => if b then "true" else "false"
    case JNum(n) => IntText(n)
    case JStr(s) => s
    case JArr(items) => ItemsText(items)
    case JObj(_) => "[object Object]"
  }

  /** `Array.prototype.join(',')`, where `null` items print as nothing. */
  function ItemsText(items: seq<Json>): string
    decreases items
  {
    if items == [] then ""
    else
      var head := if items[0] == JNull then "" else JsonText(items[0]);
      if |items| == 1 then head else head + "," + ItemsText(items[1..])
  }

  /** `payload['data']` as a port's `result` handler turns it into the
      result's data: a FAILED code wraps `data || ''` in an `Error`. */
  function ResultData(code: ResultCode, data: Option<Json>): (v: Value)
    ensures code == FAILED ==> v.ErrorObject?
    ensures code == FAILED ==> (v.message == "" <==> data.None? || Falsy(data.value) || JsonText(data.value) == "")
    ensures code != FAILED ==> v.JsonValue? && (data.Some? ==> v.json == data.value) && (data.None? ==> v == NullValue)
  {
    if code == FAILED then
      ErrorObject(if data.None? || Falsy(data.value) then "" else JsonText(data.value))
    else JsonValue(if data.Some? then data.value else JNull)
  }

  /** The record built by `new ActivityResult(code, data, origin,
      originVerified, secureChannel)`. */
  datatype ActivityResult = ActivityResult(
    code: ResultCode,
    data: Value,
    origin: string,
    originVerified: bool,
    secureChannel: bool,
    ok: bool,
    error: Option<ErrorValue>)

  /** The invariants every constructed result satisfies. */
  predicate WellFormed(r: ActivityResult) {
    && (r.code != OK ==> r.data == NullValue)
    && (r.ok <==> r.code == OK)
    && (r.error.Some? <==> r.code == FAILED)
    && (r.error.Some? ==> r.error.value == PlainError(r.error.value.message))
  }

  /** The `ActivityResult` constructor. */
  function NewActivityResult(code: ResultCode, data: Value, origin: string,
                             originVerified: bool, secureChannel: bool): (r: ActivityResult)
    ensures WellFormed(r)
    ensures r.code == code
    ensures code == OK ==> r.data == data
    ensures r.origin == origin && r.originVerified == originVerified && r.secureChannel == secureChannel
    ensures code == FAILED ==> r.error == Some(PlainError(ToJsString(data)))
  {
    ActivityResult(
      code,
      if code == OK then data else NullValue,
      origin,
      originVerified,
      secureChannel,
      code == OK,
      if code == FAILED then Some(PlainError(ToJsString(data))) else None)
  }
}
