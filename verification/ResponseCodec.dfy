/**
 * Reading and writing a response object (section 5 of JSON-RPC 2.0): the field loop that reads it, the
 * order it is written in, and when the two are inverse.
 */
module ResponseCodec {
  import opened Wrappers
  import opened Ids
  import opened Json

  type I32 = n: int | -0x8000_0000 <= n < 0x8000_0000

  datatype ErrorCode =
    | ParseError
    | OversizedRequest
    | InvalidRequest
    | MethodNotFound
    | ServerIsBusy
    | InvalidParams
    | InternalError
    | ServerError(n: I32)

  const PARSE_ERROR_CODE: I32 := -32700
  const OVERSIZED_REQUEST_CODE: I32 := -32007
  const INVALID_REQUEST_CODE: I32 := -32600
  const METHOD_NOT_FOUND_CODE: I32 := -32601
  const SERVER_IS_BUSY_CODE: I32 := -32009
  const INVALID_PARAMS_CODE: I32 := -32602
  const INTERNAL_ERROR_CODE: I32 := -32603

  function CodeOf(e: ErrorCode): (n: I32) {
    match e
    case ParseError => PARSE_ERROR_CODE
    case OversizedRequest => OVERSIZED_REQUEST_CODE
    case InvalidRequest => INVALID_REQUEST_CODE
    case MethodNotFound => METHOD_NOT_FOUND_CODE
    case ServerIsBusy => SERVER_IS_BUSY_CODE
    case InvalidParams => INVALID_PARAMS_CODE
    case InternalError => INTERNAL_ERROR_CODE
    case ServerError(n) => n
  }

  /** The code for a busy server is not among those recognised. */
  function FromCode(n: I32): (e: ErrorCode) {
    if n == PARSE_ERROR_CODE then ParseError
    else if n == OVERSIZED_REQUEST_CODE then OversizedRequest
    else if n == INVALID_REQUEST_CODE then InvalidRequest
    else if n == METHOD_NOT_FOUND_CODE then MethodNotFound
    else if n == INVALID_PARAMS_CODE then InvalidParams
    else if n == INTERNAL_ERROR_CODE then InternalError
    else ServerError(n)
  }

  datatype ErrorObject = ErrorObject(code: ErrorCode, message: string, data: Option<Json>)

  datatype TwoPointZero = TwoPointZero

  datatype ResponsePayload<+T> = Success(result: T) | Error(error: ErrorObject)

  datatype Response<+T> = Response(jsonrpc: Option<TwoPointZero>, payload: ResponsePayload<T>, id: Id)

  type Fields = seq<(string, Json)>

  // ---------------------------------------------------------------- writing

  function WriteId(id: Id): (v: Json) {
    match id
    case Null => JNull
    case Number(n) => JInt(n)
    case Str(s) => JStr(s)
  }

  function WriteError(e: ErrorObject): (v: Json) {
    JObj([("code", JInt(CodeOf(e.code))), ("message", JStr(e.message))] + if e.data.Some? then [("data", e.data.value)]
      else [])
  }

  /** The fields of a response in the order they are written. */
  function WriteFields<T>(r: Response<T>, write: T -> Json): (fields: Fields) {
    (if r.jsonrpc.Some? then [("jsonrpc", JStr("2.0"))] else [])
    + [("id", WriteId(r.id))]
    + match r.payload
      case Error(e) => [("error", WriteError(e))]
      case Success(t) => [("result", write(t))]
  }

  // ---------------------------------------------------------------- reading the values of fields

  function ReadId(v: Json): (id: Option<Id>) {
    match v
    case JNull => Some(Null)
    case JInt(n) => if 0 <= n < TWO_64 then Some(Number(n)) else None
    case JStr(s) => Some(Str(s))
    case _ => None
  }

  function ReadVersion(v: Json): (r: Option<Option<TwoPointZero>>) {
    match v
    case JNull => Some(None)
    case JStr(s) => if s == "2.0" then Some(Some(TwoPointZero)) else None
    case _ => None
  }

  function ReadCode(v: Json): (r: Option<ErrorCode>) {
    match v
    case JInt(n) => if -0x8000_0000 <= n < 0x8000_0000 then Some(FromCode(n)) else None
    case _ => None
  }

  /** Absent data and a null are the same. */
  function ReadData(v: Json): (data: Option<Json>) {
    if v == JNull then None else Some(v)
  }

  function ErrorFrom(code: Json, message: Json, data: Json): (r: Option<ErrorObject>) {
    if ReadCode(code).Some? && message.JStr? then Some(ErrorObject(ReadCode(code).value, message.s, ReadData(data)))
      else None
  }

  /** An error object has each of its fields once and no others; the list of its three values does as well. */
  function ReadError(v: Json): (r: Option<ErrorObject>) {
    match v
    case JArr(items) => if |items| == 3 then ErrorFrom(items[0], items[1], items[2]) else None
    case JObj(fields) =>
      if (forall i :: 0 <= i < |fields| ==> fields[i].0 in {"code", "message", "data"})
         && Times(fields, "code") == 1 && Times(fields, "message") == 1 && Times(fields, "data") <= 1
      then ErrorFrom(ValueOf(fields, "code").value, ValueOf(fields, "message").value,
                     if ValueOf(fields, "data").Some? then ValueOf(fields, "data").value else JNull)
      else None
    case _ => None
  }

  /** How often a field occurs. */
  function Times(fields: Fields, name: string): (n: nat)
    ensures n > 0 <==> ValueOf(fields, name).Some?
  {
    if fields == [] then 0 else (if fields[0].0 == name then 1 else 0) + Times(fields[1..], name)
  }

  /** The value of the first field of that name. */
  function ValueOf(fields: Fields, name: string): (v: Option<Json>) {
    if fields == [] then None else if fields[0].0 == name then Some(fields[0].1) else ValueOf(fields[1..], name)
  }

  // ---------------------------------------------------------------- reading a response

  /** What a list of fields says about one name: nothing, a readable value, or something to refuse. */
  datatype Said<+T> = Absent | Value(value: T) | Refused

  function Say<T>(fields: Fields, name: string, read: Json -> Option<T>): (r: Said<T>) {
    if Times(fields, name) == 0 then Absent
    else if Times(fields, name) > 1 then Refused
    else match read(ValueOf(fields, name).value) case Some(v) => Value(v) case None => Refused
  }

  /**
   * The response a list of fields stands for: an id, at most a version, and either a result or an error,
   * each at most once and readable. Other fields are ignored.
   */
  function ReadFields<T>(fields: Fields, read: Json -> Option<T>): (r: Option<Response<T>>)
    ensures r.Some?
            ==> Times(fields, "id") == 1 && Times(fields, "jsonrpc") <= 1
                && Times(fields, "result") + Times(fields, "error") == 1
    ensures r.Some? ==> (r.value.payload.Success? <==> Times(fields, "result") == 1)
  {
    var version, id := Say(fields, "jsonrpc", ReadVersion), Say(fields, "id", ReadId);
    var result, error := Say(fields, "result", read), Say(fields, "error", ReadError);
    if version.Refused? || !id.Value? then None
    else
      var jsonrpc := if version.Value? then version.value else None;
      match (result, error)
      case (Value(t), Absent) => Some(Response(jsonrpc, Success(t), id.value))
      case (Absent, Value(e)) => Some(Response(jsonrpc, Error(e), id.value))
      case _ => None
  }

  const BOTH := "result and error are mutually exclusive"

  datatype ReadFailure = DuplicateField(name: string) | MissingField(name: string) | BadValue(name: string)

  /** What has been read of one name after the fields so far. */
  ghost predicate Agrees<T>(fields: Fields, name: string, read: Json -> Option<T>, got: Option<T>) {
    match Say(fields, name, read)
    case Absent => got == None
    case Value(v) => got == Some(v)
    case Refused => false
  }

  /** A failure is about a field that is repeated, missing or there to be read. */
  predicate Explains(fields: Fields, e: ReadFailure) {
    match e
    case DuplicateField(name) => Times(fields, name) > 1
                                 || (name == BOTH && Times(fields, "result") == 1 && Times(fields, "error") == 1)
    case MissingField(name) =>
      if name == "result/error" then Times(fields, "result") == 0 && Times(fields, "error") == 0
      else Times(fields, name) == 0
    case BadValue(name) => Times(fields, name) > 0
  }

  /** The field loop: it agrees with `ReadFields`, and says which field it refused for which reason. */
  method VisitMap<T>(fields: Fields, read: Json -> Option<T>) returns (r: Result<Response<T>, ReadFailure>)
    ensures match r
            case Ok(response) => ReadFields(fields, read) == Some(response)
            case Err(_) => ReadFields(fields, read) == None
    ensures r.Err? ==> Explains(fields, r.error)
  {
    hide ReadId, ReadVersion, ReadError, Times, ValueOf;
    var jsonrpc, result, error, id := None, None, None, None;
    var i := 0;
    SayNothing("jsonrpc", ReadVersion);
    SayNothing("result", read);
    SayNothing("error", ReadError);
    SayNothing("id", ReadId);
    assert fields[..0] == [];
    while i < |fields|
      invariant 0 <= i <= |fields|
      invariant Agrees(fields[..i], "jsonrpc", ReadVersion, jsonrpc)
      invariant Agrees(fields[..i], "result", read, result)
      invariant Agrees(fields[..i], "error", ReadError, error)
      invariant Agrees(fields[..i], "id", ReadId, id)
    {
      var key, value := fields[i].0, fields[i].1;
      SayNext(fields, i, "jsonrpc", ReadVersion);
      SayNext(fields, i, "result", read);
      SayNext(fields, i, "error", ReadError);
      SayNext(fields, i, "id", ReadId);
      if key == "result" {
        if result.Some? { return Err(DuplicateField("result")); }
        result := read(value);
        if result.None? { return Err(BadValue("result")); }
      } else if key == "error" {
        if error.Some? { return Err(DuplicateField("error")); }
        error := ReadError(value);
        if error.None? { return Err(BadValue("error")); }
      } else if key == "id" {
        if id.Some? { return Err(DuplicateField("id")); }
        id := ReadId(value);
        if id.None? { return Err(BadValue("id")); }
      } else if key == "jsonrpc" {
        if jsonrpc.Some? { return Err(DuplicateField("jsonrpc")); }
        jsonrpc := ReadVersion(value);
        if jsonrpc.None? { return Err(BadValue("jsonrpc")); }
      }
      i := i + 1;
    }
    assert fields[..i] == fields;
    if id.None? { return Err(MissingField("id")); }
    match (jsonrpc, result, error)
    case (_, Some(_), Some(_)) => return Err(DuplicateField(BOTH));
    case (Some(version), Some(t), None) => return Ok(Response(version, Success(t), id.value));
    case (Some(version), None, Some(e)) => return Ok(Response(version, Error(e), id.value));
    case (None, Some(t), _) => return Ok(Response(None, Success(t), id.value));
    case (None, _, Some(e)) => return Ok(Response(None, Error(e), id.value));
    case (_, None, None) => return Err(MissingField("result/error"));
  }

  // ---------------------------------------------------------------- counting fields

  lemma {:induction false} TimesConcat(a: Fields, b: Fields, name: string)
    ensures Times(a + b, name) == Times(a, name) + Times(b, name)
    ensures ValueOf(a + b, name) == if Times(a, name) > 0 then ValueOf(a, name) else ValueOf(b, name)
  {
    if a == [] {
      assert a + b == b;
    } else {
      assert (a + b)[1..] == a[1..] + b;
      TimesConcat(a[1..], b, name);
    }
  }

  lemma SayNothing<T>(name: string, read: Json -> Option<T>)
    ensures Say([], name, read) == Absent
  {
  }

  /**
   * Reading one more field: nothing changes for other names; a second one, or an unreadable one, is refused
   * for good.
   */
  lemma SayNext<T>(fields: Fields, i: nat, name: string, read: Json -> Option<T>)
    requires i < |fields|
    ensures fields[i].0 != name ==> Say(fields[..i + 1], name, read) == Say(fields[..i], name, read)
    ensures fields[i].0 == name && Say(fields[..i], name, read) == Absent && read(fields[i].1).Some?
            ==> Say(fields[..i + 1], name, read) == Value(read(fields[i].1).value)
    ensures fields[i].0 == name && Say(fields[..i], name, read) == Absent && read(fields[i].1).None?
            ==> Say(fields, name, read) == Refused
    ensures fields[i].0 == name && Say(fields[..i], name, read) != Absent ==> Say(fields, name, read) == Refused
    ensures fields[i].0 == name ==> Times(fields, name) > 0
    ensures fields[i].0 == name && Say(fields[..i], name, read).Value? ==> Times(fields, name) > 1
  {
    var now, next, rest := fields[..i], [fields[i]], fields[i + 1..];
    assert fields[..i + 1] == now + next && fields == now + next + rest;
    assert next[1..] == [];
    TimesConcat(now, next, name);
    TimesConcat(now + next, rest, name);
  }

  // ---------------------------------------------------------------- order and unknown fields do not matter

  const NAMES := {"jsonrpc", "result", "error", "id"}

  /** The fields a response is read from. */
  function Known(fields: Fields): (r: Fields) {
    if fields == [] then [] else (if fields[0].0 in NAMES then [fields[0]] else []) + Known(fields[1..])
  }

  lemma {:induction false} KnownSuffices(fields: Fields, name: string)
    requires name in NAMES
    ensures Times(Known(fields), name) == Times(fields, name) && ValueOf(Known(fields), name) == ValueOf(fields, name)
  {
    if fields != [] {
      KnownSuffices(fields[1..], name);
      if fields[0].0 in NAMES {
        assert Known(fields)[1..] == Known(fields[1..]);
      } else {
        assert Known(fields) == Known(fields[1..]);
      }
    }
  }

  /** What taking out field `j` does. */
  lemma Without(f: Fields, j: nat, name: string)
    requires j < |f|
    ensures multiset(f[..j] + f[j + 1..]) == multiset(f) - multiset{f[j]}
    ensures Times(f, name) == Times(f[..j] + f[j + 1..], name) + if f[j].0 == name then 1 else 0
    ensures f[j].0 == name && Times(f, name) == 1 ==> ValueOf(f, name) == Some(f[j].1)
    ensures f[j].0 != name ==> ValueOf(f, name) == ValueOf(f[..j] + f[j + 1..], name)
  {
    assert f == f[..j] + [f[j]] + f[j + 1..];
    assert [f[j]][1..] == [];
    TimesConcat(f[..j], [f[j]], name);
    TimesConcat(f[..j] + [f[j]], f[j + 1..], name);
    TimesConcat(f[..j], f[j + 1..], name);
  }

  lemma WithoutFirst(f: Fields, name: string)
    requires f != []
    ensures multiset(f[1..]) == multiset(f) - multiset{f[0]}
    ensures Times(f, name) == Times(f[1..], name) + if f[0].0 == name then 1 else 0
    ensures f[0].0 == name && Times(f, name) == 1 ==> ValueOf(f, name) == Some(f[0].1)
    ensures f[0].0 != name ==> ValueOf(f, name) == ValueOf(f[1..], name)
  {
    assert f == [f[0]] + f[1..];
  }

  /** Where a permutation has the first field, and what is left without it. */
  lemma Occurs(f: Fields, g: Fields, name: string) returns (left: Fields)
    requires f != [] && multiset(f) == multiset(g)
    ensures multiset(left) == multiset(f) - multiset{f[0]}
    ensures Times(g, name) == Times(left, name) + if f[0].0 == name then 1 else 0
    ensures f[0].0 == name && Times(g, name) == 1 ==> ValueOf(g, name) == Some(f[0].1)
    ensures f[0].0 != name ==> ValueOf(g, name) == ValueOf(left, name)
  {
    hide Times, ValueOf;
    assert f[0] in multiset(g);
    var j :| 0 <= j < |g| && g[j] == f[0];
    Without(g, j, name);
    left := g[..j] + g[j + 1..];
  }

  lemma NothingPermuted(g: Fields)
    requires multiset(g) == multiset{}
    ensures g == []
  {
    assert |multiset(g)| == |g|;
  }

  lemma {:induction false} TimesPermuted(f: Fields, g: Fields, name: string)
    requires multiset(f) == multiset(g)
    ensures Times(f, name) == Times(g, name)
    ensures Times(f, name) == 1 ==> ValueOf(f, name) == ValueOf(g, name)
  {
    hide Times, ValueOf;
    if f == [] {
      NothingPermuted(g);
    } else {
      var left := Occurs(f, g, name);
      WithoutFirst(f, name);
      TimesPermuted(f[1..], left, name);
    }
  }

  lemma SaidPermuted<T>(f: Fields, g: Fields, name: string, read: Json -> Option<T>)
    requires multiset(Known(f)) == multiset(Known(g)) && name in NAMES
    ensures Say(f, name, read) == Say(g, name, read)
  {
    KnownSuffices(f, name);
    KnownSuffices(g, name);
    TimesPermuted(Known(f), Known(g), name);
  }

  /** Two lists of fields with the same known ones, in any order and among any unknown ones, read the same. */
  lemma OrderAndUnknownsDoNotMatter<T>(f: Fields, g: Fields, read: Json -> Option<T>)
    requires multiset(Known(f)) == multiset(Known(g))
    ensures ReadFields(f, read) == ReadFields(g, read)
  {
    hide Say, Known;
    SaidPermuted(f, g, "jsonrpc", ReadVersion);
    SaidPermuted(f, g, "id", ReadId);
    SaidPermuted(f, g, "result", read);
    SaidPermuted(f, g, "error", ReadError);
  }

  // ---------------------------------------------------------------- the round trip

  /** A code that reads back as itself. */
  predicate Canonical(e: ErrorCode) {
    e != ServerIsBusy
    && (e.ServerError?
        ==> e.n !in {PARSE_ERROR_CODE, OVERSIZED_REQUEST_CODE, INVALID_REQUEST_CODE, METHOD_NOT_FOUND_CODE,
            INVALID_PARAMS_CODE, INTERNAL_ERROR_CODE})
  }

  /** An error that is read back as it was: its code is canonical and its data is not a null. */
  predicate Faithful(e: ErrorObject) {
    Canonical(e.code) && e.data != Some(JNull)
  }

  /** What an error is read back as. */
  function Normal(e: ErrorObject): (r: ErrorObject) {
    e.(code := FromCode(CodeOf(e.code)), data := if e.data == Some(JNull) then None else e.data)
  }

  lemma NormalExactly(e: ErrorObject)
    ensures Normal(e) == e <==> Faithful(e)
    ensures CodeOf(Normal(e).code) == CodeOf(e.code) && Faithful(Normal(e))
  {
  }

  lemma WrittenErrorFields(code: Json, message: Json, data: Option<Json>, name: string)
    requires name in {"code", "message", "data"}
    ensures var fields := [("code", code), ("message", message)] + if data.Some? then [("data", data.value)] else [];
            && Times(fields, name) == (if name == "data" && data.None? then 0 else 1)
            && ValueOf(fields, name)
               == (if name == "code" then Some(code) else if name == "message" then Some(message) else data)
  {
    var rest := if data.Some? then [("data", data.value)] else [];
    assert rest != [] ==> rest[1..] == [];
    assert [("code", code), ("message", message)][1..] == [("message", message)];
    assert [("message", message)][1..] == [];
    TimesConcat([("code", code), ("message", message)], rest, name);
  }

  lemma ErrorRoundTrip(e: ErrorObject)
    ensures ReadError(WriteError(e)) == Some(Normal(e))
  {
    hide Times, ValueOf, FromCode, CodeOf;
    WrittenErrorFields(JInt(CodeOf(e.code)), JStr(e.message), e.data, "code");
    WrittenErrorFields(JInt(CodeOf(e.code)), JStr(e.message), e.data, "message");
    WrittenErrorFields(JInt(CodeOf(e.code)), JStr(e.message), e.data, "data");
  }

  /** One of the written lists of fields: a version perhaps, an id, and a payload under `kind`. */
  lemma WrittenFields(version: Option<Json>, id: Json, kind: string, v: Json, name: string)
    requires kind in {"result", "error"} && name in NAMES
    ensures var fields := (if version.Some? then [("jsonrpc", version.value)] else []) + [("id", id)] + [(kind, v)];
            && Times(fields, name)
               == (if name == "jsonrpc" then (if version.Some? then 1 else 0)
                 else if name == "id" || name == kind then 1 else 0)
            && ValueOf(fields, name)
               == (if name == "jsonrpc" then version else if name == "id" then Some(id)
                 else if name == kind then Some(v) else None)
  {
    var head := if version.Some? then [("jsonrpc", version.value)] else [];
    assert head != [] ==> head[1..] == [];
    assert [(kind, v)][1..] == [] && [("id", id)][1..] == [];
    TimesConcat(head, [("id", id)], name);
    TimesConcat(head + [("id", id)], [(kind, v)], name);
  }

  ghost predicate Lossless<T(!new)>(write: T -> Json, read: Json -> Option<T>) {
    forall t :: read(write(t)) == Some(t)
  }

  function NormalResponse<T>(r: Response<T>): (n: Response<T>) {
    match r.payload
    case Success(_) => r
    case Error(e) => r.(payload := Error(Normal(e)))
  }

  /** The fields of any response read back, up to an error's code and data. */
  lemma FieldsRoundTrip<T(!new)>(r: Response<T>, write: T -> Json, read: Json -> Option<T>)
    requires Lossless(write, read)
    ensures ReadFields(WriteFields(r, write), read) == Some(NormalResponse(r))
  {
    var version := if r.jsonrpc.Some? then Some(JStr("2.0")) else None;
    var kind := if r.payload.Success? then "result" else "error";
    var v := if r.payload.Success? then write(r.payload.result) else WriteError(r.payload.error);
    forall name | name in NAMES
      ensures Times(WriteFields(r, write), name)
              == (if name == "jsonrpc" then (if version.Some? then 1 else 0) else if name == "id" || name == kind then 1
                else 0)
      ensures ValueOf(WriteFields(r, write), name)
              == (if name == "jsonrpc" then version else if name == "id" then Some(WriteId(r.id))
                else if name == kind then Some(v) else None)
    {
      WrittenFields(version, WriteId(r.id), kind, v, name);
    }
    hide Times, ValueOf, WriteFields;
    if r.payload.Error? {
      ErrorRoundTrip(r.payload.error);
    }
    var fields := WriteFields(r, write);
    assert r.jsonrpc.Some? ==> r.jsonrpc.value.TwoPointZero?;
    assert Say(fields, "jsonrpc", ReadVersion) == if version.Some? then Value(Some(TwoPointZero)) else Absent;
    assert Say(fields, "id", ReadId) == Value(r.id);
    assert Say(fields, "result", read) == if r.payload.Success? then Value(r.payload.result) else Absent;
    assert Say(fields, "error", ReadError) == if r.payload.Success? then Absent else Value(Normal(r.payload.error));
  }

  /**
   * Reading gives a response back exactly if it is a success, or its error's code is canonical and its data
   * is not a null.
   */
  lemma RoundTripExactly<T(!new)>(r: Response<T>, write: T -> Json, read: Json -> Option<T>)
    requires Lossless(write, read)
    ensures ReadFields(WriteFields(r, write), read) == Some(r) <==> (r.payload.Error? ==> Faithful(r.payload.error))
  {
    FieldsRoundTrip(r, write, read);
    if r.payload.Error? {
      NormalExactly(r.payload.error);
    }
  }

  /** The busy-server error is one that does not read back. */
  lemma BusyDoesNotReadBack(id: Id, write: Json -> Json, read: Json -> Option<Json>)
    requires Lossless(write, read)
    ensures var e := ErrorObject(ServerIsBusy, "Server is busy, try again later", None);
            ReadFields(WriteFields(Response(Some(TwoPointZero), Error(e), id), write), read)
            == Some(Response(Some(TwoPointZero), Error(e.(code := ServerError(SERVER_IS_BUSY_CODE))), id))
  {
    FieldsRoundTrip(Response(Some(TwoPointZero),
      Error(ErrorObject(ServerIsBusy, "Server is busy, try again later", None)), id), write, read);
  }

  // ---------------------------------------------------------------- text

  function WriteText<T>(r: Response<T>, write: T -> Json): (text: string) {
    Print(JObj(WriteFields(r, write)))
  }

  function ReadText<T>(text: string, read: Json -> Option<T>): (r: Option<Response<T>>) {
    match ParseDocument(text)
    case Some(JObj(fields)) => ReadFields(fields, read)
    case _ => None
  }

  lemma TextRoundTrip<T(!new)>(r: Response<T>, write: T -> Json, read: Json -> Option<T>)
    requires Lossless(write, read)
    ensures ReadText(WriteText(r, write), read) == Some(NormalResponse(r))
  {
    DocumentRoundTrip(JObj(WriteFields(r, write)));
    FieldsRoundTrip(r, write, read);
  }
}
