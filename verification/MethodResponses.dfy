/**
 * The texts a server replies with and the two buffers they are built in: one that refuses to grow past a
 * limit, and one that collects the elements of a batch reply.
 */
module MethodResponses {
  import opened Wrappers
  import opened Ids
  import opened Json
  import opened ResponseCodec

  type Byte = n: nat | n < 256

  function Utf8Char(c: char): (r: seq<Byte>) {
    var n := c as int;
    if n < 0x80 then [n]
    else if n < 0x800 then [0xC0 + n / 0x40, 0x80 + n % 0x40]
    else if n < 0x1_0000 then [0xE0 + n / 0x1000, 0x80 + n / 0x40 % 0x40, 0x80 + n % 0x40]
    else [0xF0 + n / 0x4_0000, 0x80 + n / 0x1000 % 0x40, 0x80 + n / 0x40 % 0x40, 0x80 + n % 0x40]
  }

  function Utf8(s: string): (r: seq<Byte>) {
    if s == "" then [] else Utf8Char(s[0]) + Utf8(s[1..])
  }

  lemma {:induction false} Utf8Concat(a: string, b: string)
    ensures Utf8(a + b) == Utf8(a) + Utf8(b)
  {
    if a == "" {
      assert a + b == b;
    } else {
      assert (a + b)[1..] == a[1..] + b;
      Utf8Concat(a[1..], b);
    }
  }

  // ---------------------------------------------------------------- a writer with a limit

  function Joined(chunks: seq<seq<Byte>>): (r: seq<Byte>) {
    if chunks == [] then [] else Joined(chunks[..|chunks| - 1]) + chunks[|chunks| - 1]
  }

  lemma {:induction false} PrefixIsShorter(chunks: seq<seq<Byte>>, i: nat)
    requires i <= |chunks|
    ensures |Joined(chunks[..i])| <= |Joined(chunks)|
  {
    if i == |chunks| {
      assert chunks[..i] == chunks;
    } else {
      PrefixIsShorter(chunks[..|chunks| - 1], i);
      assert chunks[..|chunks| - 1][..i] == chunks[..i];
    }
  }

  class BoundedWriter {
    const maxLen: nat
    var buf: seq<Byte>

    constructor (maxLen: nat)
      ensures this.maxLen == maxLen && buf == []
    {
      this.maxLen, buf := maxLen, [];
    }

    method Write(chunk: seq<Byte>) returns (written: Option<nat>)
      modifies this
      ensures written == if |old(buf)| + |chunk| <= maxLen then Some(|chunk|) else None
      ensures buf == if written.Some? then old(buf) + chunk else old(buf)
    {
      if maxLen >= |buf| + |chunk| {
        buf := buf + chunk;
        written := Some(|chunk|);
      } else {
        written := None;
      }
    }
  }

  /**
   * Serializing into a bounded writer, for any way the text is split into writes: it succeeds exactly when
   * the whole text is within the limit, and then the buffer holds all of it.
   */
  method WriteBounded(chunks: seq<seq<Byte>>, maxLen: nat) returns (r: Option<seq<Byte>>)
    ensures r == if |Joined(chunks)| <= maxLen then Some(Joined(chunks)) else None
  {
    var writer := new BoundedWriter(maxLen);
    var i := 0;
    while i < |chunks|
      invariant 0 <= i <= |chunks|
      invariant writer.maxLen == maxLen && writer.buf == Joined(chunks[..i]) && |writer.buf| <= maxLen
    {
      assert chunks[..i + 1][..i] == chunks[..i];
      PrefixIsShorter(chunks, i + 1);
      var written := writer.Write(chunks[i]);
      if written.None? { return None; }
      i := i + 1;
    }
    assert chunks[..i] == chunks;
    return Some(writer.buf);
  }

  // ---------------------------------------------------------------- single responses

  datatype ResponseKind = MethodCall | Subscription | Batch | Notification

  /** The code of the error, if the call failed. */
  datatype MethodResponse = MethodResponse(json: seq<Byte>, failed: Option<I32>, kind: ResponseKind)

  const BATCHES_NOT_SUPPORTED_CODE: I32 := -32005
  const TOO_MANY_SUBSCRIPTIONS_CODE: I32 := -32006
  const OVERSIZED_RESPONSE_CODE: I32 := -32008
  const TOO_BIG_BATCH_REQUEST_CODE: I32 := -32010
  const TOO_BIG_BATCH_RESPONSE_CODE: I32 := -32011

  function Message(e: ErrorCode): (s: string) {
    match e
    case ParseError => "Parse error"
    case OversizedRequest => "Request is too big"
    case InvalidRequest => "Invalid request"
    case MethodNotFound => "Method not found"
    case ServerIsBusy => "Server is busy, try again later"
    case InvalidParams => "Invalid params"
    case InternalError => "Internal error"
    case ServerError(_) => "Server error"
  }

  function PlainError(e: ErrorCode): (r: ErrorObject) {
    ErrorObject(e, Message(e), None)
  }

  function LimitError(code: I32, message: string, limit: nat): (r: ErrorObject) {
    ErrorObject(FromCode(code), message, Some(JStr("Exceeded max limit of " + Decimal(limit))))
  }

  function TooBigBatchResponse(limit: nat): (r: ErrorObject) {
    LimitError(TOO_BIG_BATCH_RESPONSE_CODE, "The batch response was too large", limit)
  }

  function TooBigBatchRequest(limit: nat): (r: ErrorObject) {
    LimitError(TOO_BIG_BATCH_REQUEST_CODE, "The batch request was too large", limit)
  }

  function OversizedResponse(limit: nat): (r: ErrorObject) {
    LimitError(OVERSIZED_RESPONSE_CODE, "Response is too big", limit)
  }

  /** The JSON value of a response with the protocol version. */
  function ResponseJson(id: Id, payload: ResponsePayload<Json>): (v: Json) {
    JObj(WriteFields(Response(Some(TwoPointZero), payload, id), (v: Json) => v))
  }

  function ResponseText(id: Id, payload: ResponsePayload<Json>): (text: seq<Byte>) {
    Utf8(Print(ResponseJson(id, payload)))
  }

  function ErrorResponse(id: Id, e: ErrorObject): (rp: MethodResponse) {
    MethodResponse(ResponseText(id, Error(e)), Some(CodeOf(e.code)), MethodCall)
  }

  function NotificationResponse(): (rp: MethodResponse) {
    MethodResponse(Utf8("null"), None, Notification)
  }

  /** A response within the limit, or an error about its size. */
  function ResponseWithin(id: Id, payload: ResponsePayload<Json>, limit: nat): (rp: MethodResponse) {
    if |ResponseText(id, payload)| <= limit then
      var failed := if payload.Error? then Some(CodeOf(payload.error.code)) else None;
      MethodResponse(ResponseText(id, payload), failed, MethodCall)
    else ErrorResponse(id, OversizedResponse(limit))
  }

  /**
   * The response when the serializer gives up after `written` bytes: an error about the size if those were
   * too many already.
   */
  function BrokenResponse(id: Id, written: nat, limit: nat): (rp: MethodResponse) {
    if written <= limit then ErrorResponse(id, PlainError(InternalError))
      else ErrorResponse(id, OversizedResponse(limit))
  }

  /**
   * However the serializer splits its writes, and whether it completes or gives up after them, the response
   * is the one the size of the writes calls for.
   */
  method MakeResponse(id: Id, payload: ResponsePayload<Json>, limit: nat, writes: seq<seq<Byte>>, completes: bool)
    returns (rp: MethodResponse)
    requires completes ==> Joined(writes) == ResponseText(id, payload)
    ensures rp == if completes then ResponseWithin(id, payload, limit) else BrokenResponse(id, |Joined(writes)|, limit)
  {
    var text := WriteBounded(writes, limit);
    if text.None? {
      return ErrorResponse(id, OversizedResponse(limit));
    }
    if !completes {
      return ErrorResponse(id, PlainError(InternalError));
    }
    var failed := if payload.Error? then Some(CodeOf(payload.error.code)) else None;
    return MethodResponse(text.value, failed, MethodCall);
  }

  // ---------------------------------------------------------------- the elements of a batch reply

  const COMMA: Byte := 0x2C
  const OPEN: Byte := 0x5B
  const CLOSE: Byte := 0x5D

  /** The elements of an array, with commas between them. */
  function Elements(items: seq<seq<Byte>>): (r: seq<Byte>) {
    if items == [] then []
    else if |items| == 1 then items[0]
    else items[0] + [COMMA] + Elements(items[1..])
  }

  /** An array of the given elements. */
  function ArrayText(items: seq<seq<Byte>>): (r: seq<Byte>) {
    [OPEN] + Elements(items) + [CLOSE]
  }

  lemma {:induction false} ElementsGrow(items: seq<seq<Byte>>, item: seq<Byte>)
    ensures Elements(items + [item]) == if items == [] then item else Elements(items) + [COMMA] + item
  {
    if |items| >= 1 {
      assert (items + [item])[1..] == items[1..] + [item];
      ElementsGrow(items[1..], item);
    }
  }

  lemma {:induction false} PrefixArrayIsShorter(items: seq<seq<Byte>>, i: nat)
    requires i <= |items|
    ensures |ArrayText(items[..i])| <= |ArrayText(items)|
  {
    if i == |items| {
      assert items[..i] == items;
    } else {
      var n := |items| - 1;
      assert items[..n] + [items[n]] == items;
      ElementsGrow(items[..n], items[n]);
      PrefixArrayIsShorter(items[..n], i);
      assert items[..n][..i] == items[..i];
    }
  }

  class BatchResponseBuilder {
    var result: seq<Byte>
    const maxResponseSize: nat
    ghost var items: seq<seq<Byte>>

    /**
     * The text is the array so far with a comma in place of the closing bracket, and within the limit if
     * there is an element.
     */
    ghost predicate Valid()
      reads this
    {
      && result == [OPEN] + Elements(items) + (if items == [] then [] else [COMMA])
      && (items != [] ==> |ArrayText(items)| <= maxResponseSize)
    }

    constructor (limit: nat)
      ensures Valid() && items == [] && maxResponseSize == limit
    {
      result, maxResponseSize, items := [OPEN], limit, [];
    }

    /** An element is refused exactly when the array with it would be too long, and then nothing changes. */
    method Append(response: MethodResponse) returns (r: Result<(), MethodResponse>)
      requires Valid()
      modifies this
      ensures Valid()
      ensures r == if |ArrayText(old(items) + [response.json])| <= maxResponseSize then Ok(())
                   else Err(ErrorResponse(Null, TooBigBatchResponse(maxResponseSize)))
      ensures items == if r.Ok? then old(items) + [response.json] else old(items)
      ensures r.Err? ==> result == old(result)
    {
      ElementsGrow(items, response.json);
      var len := |response.json| + |result| + 1;
      if len > maxResponseSize {
        return Err(ErrorResponse(Null, TooBigBatchResponse(maxResponseSize)));
      }
      result := result + response.json + [COMMA];
      items := items + [response.json];
      return Ok(());
    }

    method IsEmpty() returns (empty: bool)
      requires Valid()
      ensures empty <==> items == []
    {
      empty := |result| <= 1;
    }

    /** The array of the elements, within the limit; no elements are an invalid request. */
    method Finish() returns (json: seq<Byte>)
      requires Valid()
      modifies this
      ensures old(items) == [] ==> json == ResponseText(Null, Error(PlainError(InvalidRequest)))
      ensures old(items) != [] ==> json == ArrayText(old(items)) && |json| <= maxResponseSize
    {
      if |result| == 1 {
        return ResponseText(Null, Error(PlainError(InvalidRequest)));
      }
      result := result[..|result| - 1];
      result := result + [CLOSE];
      return result;
    }
  }

  // ---------------------------------------------------------------- a batch reply as a JSON array

  function Texts(vs: seq<Json>): (r: seq<seq<Byte>>) {
    seq(|vs|, i requires 0 <= i < |vs| => Utf8(Print(vs[i])))
  }

  lemma {:induction false} ElementsOfTexts(vs: seq<Json>)
    ensures Elements(Texts(vs)) == Utf8(PrintItems(vs))
  {
    if |vs| > 1 {
      assert Texts(vs)[1..] == Texts(vs[1..]);
      ElementsOfTexts(vs[1..]);
      Utf8Concat(Print(vs[0]), ",");
      Utf8Concat(Print(vs[0]) + ",", PrintItems(vs[1..]));
      assert Utf8(",") == [COMMA] by { OneByte(','); }
    }
  }

  lemma OneByte(c: char)
    requires c as int < 0x80
    ensures Utf8([c]) == [c as int]
  {
    assert [c][1..] == "";
  }

  /** Printed elements make a printed array. */
  lemma ArrayOfTexts(vs: seq<Json>)
    ensures ArrayText(Texts(vs)) == Utf8(Print(JArr(vs)))
  {
    ElementsOfTexts(vs);
    OneByte('[');
    OneByte(']');
    Utf8Concat("[", PrintItems(vs));
    Utf8Concat("[" + PrintItems(vs), "]");
  }
}
