/**
 * How the server answers one message: a single call or notification, or a batch of them (section 6 of
 * JSON-RPC 2.0). Callbacks may answer by anything that was called before.
 */
module RpcService {
  import opened Wrappers
  import opened Ids
  import opened Json
  import opened ResponseCodec
  import opened MethodResponses

  datatype Request = Request(id: Id, name: string, params: Option<string>)

  /** A result may fail to serialize after some bytes, and a blocking method's task may fail without a result. */
  datatype Ran = Returned(payload: ResponsePayload<Json>) | NotSerialized(written: nat) | TaskFailed

  datatype SubscribeEnd = NoPermit(limit: nat) | Accepted(subId: Json) | Rejected(error: ErrorObject) | Dropped

  /** What a callback does, given the calls that were made before and the call itself. */
  datatype Callback =
    | Ordinary(run: (seq<Request>, Request) -> Ran)
    | Subscribing(subscribe: (seq<Request>, Request) -> SubscribeEnd)
    | Unsubscribing(unsubscribe: (seq<Request>, Request) -> bool)

  datatype Service = Service(methods: map<string, Callback>, maxResponseSize: nat, subscriptions: bool)

  datatype Entry = Call(req: Request) | Note | Invalid(id: Id)

  datatype BatchConfig = Disabled | Limit(n: nat) | Unlimited

  /** What reading a message, or an element of a batch, as each kind of request gives. */
  datatype Raw = Raw(call: Option<Request>, isNote: bool, id: Option<Id>)

  // ---------------------------------------------------------------- one call

  function Dispatch(svc: Service, before: seq<Request>, req: Request): (rp: MethodResponse) {
    if req.name !in svc.methods then ErrorResponse(req.id, PlainError(MethodNotFound))
    else
      match svc.methods[req.name]
      case Ordinary(run) => (
        match run(before, req)
        case Returned(payload) => ResponseWithin(req.id, payload, svc.maxResponseSize)
        case NotSerialized(written) => BrokenResponse(req.id, written, svc.maxResponseSize)
        case TaskFailed => ErrorResponse(Null, PlainError(InternalError)))
      case Subscribing(subscribe) =>
        if !svc.subscriptions then ErrorResponse(req.id, PlainError(InternalError))
        else (
          match subscribe(before, req)
          case NoPermit(limit) => ErrorResponse(req.id,
                                  LimitError(TOO_MANY_SUBSCRIPTIONS_CODE, "Too many subscriptions on the connection",
                                    limit))
          case Accepted(subId) => ResponseWithin(req.id, Success(subId), svc.maxResponseSize).(kind := Subscription)
          case Rejected(error) => ErrorResponse(req.id, error).(kind := Subscription)
          case Dropped => ErrorResponse(req.id, PlainError(InternalError)))
      case Unsubscribing(unsubscribe) =>
        if !svc.subscriptions then ErrorResponse(req.id, PlainError(InternalError))
        else ResponseWithin(req.id, Success(JBool(unsubscribe(before, req))), svc.maxResponseSize)
  }

  predicate TaskFails(svc: Service, before: seq<Request>, req: Request) {
    req.name in svc.methods && svc.methods[req.name].Ordinary? && svc.methods[req.name].run(before, req) == TaskFailed
  }

  /** A reply text: a response object with the given id. */
  ghost predicate RepliesTo(text: seq<Byte>, id: Id) {
    exists payload :: text == ResponseText(id, payload)
  }

  /** Every call is answered by a response object with its id, or with null if its task failed. */
  lemma DispatchReplies(svc: Service, before: seq<Request>, req: Request)
    ensures RepliesTo(Dispatch(svc, before, req).json, if TaskFails(svc, before, req) then Null else req.id)
  {
    hide ResponseText, CodeOf, FromCode, Message;
    var rp := Dispatch(svc, before, req);
    var id := if TaskFails(svc, before, req) then Null else req.id;
    if req.name !in svc.methods {
      assert rp.json == ResponseText(id, Error(PlainError(MethodNotFound)));
    }
  }

  // ---------------------------------------------------------------- a batch

  function CallsOf(entries: seq<Entry>): (r: seq<Request>) {
    if entries == [] then []
    else CallsOf(entries[..|entries| - 1]) + match entries[|entries| - 1] case Call(req) => [req] case _ => []
  }

  /** The reply text an entry gets, if any. */
  function AnswerTo(svc: Service, before: seq<Request>, entry: Entry): (r: Option<seq<Byte>>) {
    match entry
    case Call(req) => Some(Dispatch(svc, before, req).json)
    case Note => None
    case Invalid(id) => Some(ErrorResponse(id, PlainError(InvalidRequest)).json)
  }

  /** The reply texts of a batch in entry order. */
  function Answers(svc: Service, entries: seq<Entry>): (r: seq<seq<Byte>>) {
    if entries == [] then []
    else
      var n := |entries| - 1;
      Answers(svc, entries[..n])
      + match AnswerTo(svc, CallsOf(entries[..n]), entries[n]) case Some(text) => [text] case None => []
  }

  predicate TooLong(svc: Service, entries: seq<Entry>) {
    Answers(svc, entries) != [] && |ArrayText(Answers(svc, entries))| > svc.maxResponseSize
  }

  /** What the whole batch is answered with, in terms of the replies of its entries. */
  function BatchReply(svc: Service, entries: seq<Entry>): (rp: MethodResponse) {
    if entries == [] then MethodResponse(ResponseText(Null, Error(PlainError(InvalidRequest))), None, Batch)
    else if Answers(svc, entries) == [] then NotificationResponse()
    else if TooLong(svc, entries) then ErrorResponse(Null, TooBigBatchResponse(svc.maxResponseSize))
    else MethodResponse(ArrayText(Answers(svc, entries)), None, Batch)
  }

  lemma {:induction false} AnswersOfPrefix(svc: Service, entries: seq<Entry>, i: nat)
    requires i <= |entries|
    ensures Answers(svc, entries[..i]) <= Answers(svc, entries)
  {
    if i < |entries| {
      AnswersOfPrefix(svc, entries[..|entries| - 1], i);
      assert entries[..|entries| - 1][..i] == entries[..i];
    } else {
      assert entries[..i] == entries;
    }
  }

  lemma AnswersNext(svc: Service, entries: seq<Entry>, i: nat)
    requires i < |entries|
    ensures CallsOf(entries[..i + 1]) == if entries[i].Call? then CallsOf(entries[..i]) + [entries[i].req]
            else CallsOf(entries[..i])
    ensures Answers(svc, entries[..i + 1])
            == match AnswerTo(svc, CallsOf(entries[..i]), entries[i])
               case Some(text) => Answers(svc, entries[..i]) + [text]
               case None => Answers(svc, entries[..i])
  {
    assert entries[..i + 1][..i] == entries[..i];
  }

  lemma TooLongStays(svc: Service, entries: seq<Entry>, i: nat)
    requires i <= |entries| && TooLong(svc, entries[..i])
    ensures TooLong(svc, entries)
  {
    AnswersOfPrefix(svc, entries, i);
    assert Answers(svc, entries)[..|Answers(svc, entries[..i])|] == Answers(svc, entries[..i]);
    PrefixArrayIsShorter(Answers(svc, entries), |Answers(svc, entries[..i])|);
  }

  /** Entry `k` is the first whose reply makes the whole too long. */
  predicate FirstTooLong(svc: Service, entries: seq<Entry>, k: nat) {
    k < |entries| && TooLong(svc, entries[..k + 1]) && !TooLong(svc, entries[..k])
  }

  /** The calls a batch runs: all of them in order, or those up to the first entry that makes the reply too long. */
  ghost predicate RanFor(svc: Service, entries: seq<Entry>, ran: seq<Request>) {
    if TooLong(svc, entries) then exists k :: FirstTooLong(svc, entries, k) && ran == CallsOf(entries[..k + 1])
    else ran == CallsOf(entries)
  }

  lemma RefusedAt(svc: Service, entries: seq<Entry>, i: nat)
    requires i < |entries| && TooLong(svc, entries[..i + 1]) && !TooLong(svc, entries[..i])
    ensures RanFor(svc, entries, CallsOf(entries[..i + 1]))
    ensures BatchReply(svc, entries) == ErrorResponse(Null, TooBigBatchResponse(svc.maxResponseSize))
  {
    hide Answers, ArrayText, ErrorResponse, TooBigBatchResponse, ResponseText, CallsOf;
    TooLongStays(svc, entries, i + 1);
    assert FirstTooLong(svc, entries, i);
  }

  /** Whether one more entry makes the reply too long. */
  lemma TooLongNext(svc: Service, entries: seq<Entry>, i: nat)
    requires i < |entries| && !TooLong(svc, entries[..i])
    ensures var answer := AnswerTo(svc, CallsOf(entries[..i]), entries[i]);
            TooLong(svc, entries[..i + 1])
            <==> answer.Some? && |ArrayText(Answers(svc, entries[..i]) + [answer.value])| > svc.maxResponseSize
  {
    hide Answers, ArrayText, CallsOf, AnswerTo;
    AnswersNext(svc, entries, i);
  }

  /** The reply to a batch that is not too long, by what was collected. */
  lemma BatchEnds(svc: Service, entries: seq<Entry>)
    requires !TooLong(svc, entries)
    ensures RanFor(svc, entries, CallsOf(entries))
    ensures Answers(svc, entries) != []
            ==> BatchReply(svc, entries) == MethodResponse(ArrayText(Answers(svc, entries)), None, Batch)
    ensures entries != [] && Answers(svc, entries) == [] ==> BatchReply(svc, entries) == NotificationResponse()
    ensures entries == [] ==> Answers(svc, entries) == []
    ensures entries == []
            ==> BatchReply(svc, entries)
                == MethodResponse(ResponseText(Null, Error(PlainError(InvalidRequest))), None, Batch)
  {
    hide ArrayText, ResponseText, CallsOf;
  }

  /** The batch loop: the reply is the one the entries' replies make, and the calls run in entry order. */
  method RunBatch(svc: Service, entries: seq<Entry>) returns (rp: MethodResponse, ran: seq<Request>)
    ensures rp == BatchReply(svc, entries)
    ensures RanFor(svc, entries, ran)
  {
    assert entries[..0] == [] && Answers(svc, []) == [] && CallsOf([]) == [] && !TooLong(svc, []);
    hide *;
    var batch := new BatchResponseBuilder(svc.maxResponseSize);
    var gotNotification := false;
    ran := [];
    var i := 0;
    while i < |entries|
      invariant 0 <= i <= |entries|
      invariant batch.Valid() && batch.maxResponseSize == svc.maxResponseSize && fresh(batch)
      invariant batch.items == Answers(svc, entries[..i]) && ran == CallsOf(entries[..i])
      invariant batch.items == [] ==> (gotNotification <==> i > 0)
      invariant !TooLong(svc, entries[..i])
    {
      var entry := entries[i];
      AnswersNext(svc, entries, i);
      TooLongNext(svc, entries, i);
      AnswerIs(svc, ran, entry);
      var answer: Option<MethodResponse> := None;
      match entry {
        case Call(req) =>
          answer := Some(Dispatch(svc, ran, req));
          ran := ran + [req];
        case Note =>
          gotNotification := true;
        case Invalid(id) =>
          answer := Some(ErrorResponse(id, PlainError(InvalidRequest)));
      }
      if answer.Some? {
        var r := batch.Append(answer.value);
        if r.Err? {
          RefusedAt(svc, entries, i);
          return r.error, ran;
        }
      }
      i := i + 1;
    }
    assert entries[..i] == entries;
    BatchEnds(svc, entries);
    var empty := batch.IsEmpty();
    if empty && gotNotification {
      return NotificationResponse(), ran;
    }
    var json := batch.Finish();
    return MethodResponse(json, None, Batch), ran;
  }

  lemma AnswerIs(svc: Service, before: seq<Request>, entry: Entry)
    ensures AnswerTo(svc, before, entry)
            == match entry
               case Call(req) => Some(Dispatch(svc, before, req).json)
               case Note => None
               case Invalid(id) => Some(ErrorResponse(id, PlainError(InvalidRequest)).json)
  {
    hide Dispatch, ErrorResponse;
  }

  // ---------------------------------------------------------------- one message

  function EntryOf(raw: Raw): (entry: Entry) {
    if raw.call.Some? then Call(raw.call.value)
    else if raw.isNote then Note
    else Entry.Invalid(if raw.id.Some? then raw.id.value else Null)
  }

  function EntriesOf(raws: seq<Raw>): (entries: seq<Entry>) {
    seq(|raws|, i requires 0 <= i < |raws| => EntryOf(raws[i]))
  }

  function SingleReply(svc: Service, raw: Raw): (rp: MethodResponse) {
    if raw.call.Some? then Dispatch(svc, [], raw.call.value)
    else if raw.isNote then NotificationResponse()
    else if raw.id.Some? then ErrorResponse(raw.id.value, PlainError(InvalidRequest))
    else ErrorResponse(Null, PlainError(ParseError))
  }

  const NOT_SUPPORTED := ErrorObject(FromCode(BATCHES_NOT_SUPPORTED_CODE),
    "Batched requests are not supported by this server", None)

  /** Why a batch is turned away before any of it is run. */
  function Refusal(config: BatchConfig, elements: Option<seq<Raw>>): (r: Option<ErrorObject>) {
    if config.Disabled? then Some(NOT_SUPPORTED)
    else if elements.None? then Some(PlainError(ParseError))
    else if config.Limit? && |elements.value| > config.n then Some(TooBigBatchRequest(config.n))
    else None
  }

  /**
   * A message that is a single request, or a list of elements if it can be read as one. A batch that is
   * disabled, unreadable or over-long is answered by one error and none of it is run.
   */
  method HandleRpcCall(svc: Service, config: BatchConfig, isSingle: bool, single: Raw, elements: Option<seq<Raw>>)
    returns (rp: MethodResponse, ran: seq<Request>)
    ensures isSingle ==> rp == SingleReply(svc, single) && ran == if single.call.Some? then [single.call.value] else []
    ensures !isSingle && Refusal(config, elements).Some?
            ==> rp == ErrorResponse(Null, Refusal(config, elements).value) && ran == []
    ensures !isSingle && Refusal(config, elements).None? ==> rp == BatchReply(svc, EntriesOf(elements.value))
    ensures !isSingle && Refusal(config, elements).None? ==> RanFor(svc, EntriesOf(elements.value), ran)
  {
    hide Dispatch, Answers, ArrayText, ErrorResponse, CallsOf, BatchReply;
    if isSingle {
      if single.call.Some? {
        return Dispatch(svc, [], single.call.value), [single.call.value];
      } else if single.isNote {
        return NotificationResponse(), [];
      } else {
        var id, code := if single.id.Some? then single.id.value else Null, if single.id.Some? then InvalidRequest
          else ParseError;
        return ErrorResponse(id, PlainError(code)), [];
      }
    }
    if config.Disabled? { return ErrorResponse(Null, NOT_SUPPORTED), []; }
    if elements.None? { return ErrorResponse(Null, PlainError(ParseError)), []; }
    if config.Limit? && |elements.value| > config.n { return ErrorResponse(Null, TooBigBatchRequest(config.n)), []; }
    var entries: seq<Entry> := [];
    var i := 0;
    while i < |elements.value|
      invariant 0 <= i <= |elements.value|
      invariant entries == EntriesOf(elements.value)[..i]
    {
      var raw := elements.value[i];
      if raw.call.Some? {
        entries := entries + [Call(raw.call.value)];
      } else if raw.isNote {
        entries := entries + [Note];
      } else {
        entries := entries + [Entry.Invalid(if raw.id.Some? then raw.id.value else Null)];
      }
      i := i + 1;
    }
    assert entries == EntriesOf(elements.value);
    rp, ran := RunBatch(svc, entries);
  }

  /**
   * What a WebSocket connection sends for an answered message: neither subscription replies, which their
   * sinks send, nor notifications.
   */
  function SentOverWs(rp: MethodResponse): (text: Option<seq<Byte>>) {
    if rp.kind == MethodCall || rp.kind == Batch then Some(rp.json) else None
  }

  // ---------------------------------------------------------------- the batch reply, element by element

  /** The number of entries that are not notifications. */
  function Replying(entries: seq<Entry>): (n: nat) {
    if entries == [] then 0 else Replying(entries[..|entries| - 1]) + if entries[|entries| - 1].Note? then 0 else 1
  }

  /** The id the reply to entry `i` carries. */
  function IdFor(svc: Service, entries: seq<Entry>, i: nat): (id: Id)
    requires i < |entries| && !entries[i].Note?
  {
    match entries[i]
    case Call(req) => if TaskFails(svc, CallsOf(entries[..i]), req) then Null else req.id
    case Invalid(id) => id
  }

  function Keep(v: Json): (r: Option<Json>) {
    Some(v)
  }

  /** A value that reads as a response with the given id. */
  predicate ReadsAs(v: Json, id: Id) {
    v.JObj? && ReadFields(v.fields, Keep).Some? && ReadFields(v.fields, Keep).value.id == id
  }

  lemma ResponseReads(id: Id, payload: ResponsePayload<Json>)
    ensures ReadsAs(ResponseJson(id, payload), id)
  {
    FieldsRoundTrip(Response(Some(TwoPointZero), payload, id), (v: Json) => v, Keep);
  }

  lemma AnswerReads(svc: Service, entries: seq<Entry>, i: nat) returns (v: Json)
    requires i < |entries| && !entries[i].Note?
    ensures AnswerTo(svc, CallsOf(entries[..i]), entries[i]) == Some(Utf8(Print(v)))
    ensures ReadsAs(v, IdFor(svc, entries, i))
  {
    hide Dispatch, ReadsAs, Print, ResponseJson;
    var id := IdFor(svc, entries, i);
    var payload: ResponsePayload<Json>;
    match entries[i] {
      case Call(req) =>
        DispatchReplies(svc, CallsOf(entries[..i]), req);
        payload :| Dispatch(svc, CallsOf(entries[..i]), req).json == ResponseText(id, payload);
      case Invalid(_) =>
        payload := Error(PlainError(InvalidRequest));
    }
    v := ResponseJson(id, payload);
    ResponseReads(id, payload);
  }

  /** The values of the replies: one per entry that is not a notification, in entry order, with that entry's id. */
  ghost predicate InEntryOrder(svc: Service, entries: seq<Entry>, vs: seq<Json>) {
    && |vs| == Replying(entries)
    && forall i :: 0 <= i < |entries| && !entries[i].Note?
                   ==> Replying(entries[..i]) < |vs| && ReadsAs(vs[Replying(entries[..i])], IdFor(svc, entries, i))
  }

  lemma {:induction false} AnswersRead(svc: Service, entries: seq<Entry>) returns (vs: seq<Json>)
    ensures Answers(svc, entries) == Texts(vs) && InEntryOrder(svc, entries, vs)
  {
    hide Answers, InEntryOrder, ReadsAs, Dispatch, Print, Utf8, CallsOf, IdFor;
    if entries == [] {
      vs := [];
      NoAnswers(svc);
    } else {
      var n := |entries| - 1;
      var first := AnswersRead(svc, entries[..n]);
      AnswersNext(svc, entries, n);
      assert entries[..n + 1] == entries;
      if entries[n].Note? {
        vs := first;
      } else {
        var v := AnswerReads(svc, entries, n);
        vs := first + [v];
        assert Texts(vs) == Texts(first) + [Utf8(Print(v))];
      }
      LengthInOrder(svc, entries[..n], first);
      OrderExtends(svc, entries, first, vs);
    }
  }

  lemma NoAnswers(svc: Service)
    ensures Answers(svc, []) == Texts([]) && InEntryOrder(svc, [], [])
  {
  }

  lemma LengthInOrder(svc: Service, entries: seq<Entry>, vs: seq<Json>)
    requires InEntryOrder(svc, entries, vs)
    ensures |vs| == Replying(entries)
  {
  }

  lemma OrderExtends(svc: Service, entries: seq<Entry>, first: seq<Json>, vs: seq<Json>)
    requires entries != [] && InEntryOrder(svc, entries[..|entries| - 1], first) && first <= vs
    requires |vs| == Replying(entries)
    requires !entries[|entries| - 1].Note? ==> ReadsAs(vs[|vs| - 1], IdFor(svc, entries, |entries| - 1))
    ensures InEntryOrder(svc, entries, vs)
  {
    hide ReadsAs;
    var init := entries[..|entries| - 1];
    forall i | 0 <= i < |entries| && !entries[i].Note?
      ensures Replying(entries[..i]) < |vs| && ReadsAs(vs[Replying(entries[..i])], IdFor(svc, entries, i))
    {
      if i < |init| {
        assert init[..i] == entries[..i];
        assert IdFor(svc, init, i) == IdFor(svc, entries, i);
      }
    }
  }

  /**
   * A batch reply that is not too long is a JSON array, within the limit, that reads back as one response
   * per entry that is not a notification, in entry order and with the entries' ids.
   */
  lemma BatchReplyReads(svc: Service, entries: seq<Entry>) returns (vs: seq<Json>)
    requires Answers(svc, entries) != [] && !TooLong(svc, entries)
    ensures BatchReply(svc, entries) == MethodResponse(Utf8(Print(JArr(vs))), None, Batch)
    ensures |BatchReply(svc, entries).json| <= svc.maxResponseSize
    ensures ParseDocument(Print(JArr(vs))) == Some(JArr(vs))
    ensures InEntryOrder(svc, entries, vs)
  {
    vs := AnswersRead(svc, entries);
    ArrayOfTexts(vs);
    DocumentRoundTrip(JArr(vs));
  }

  /** A non-empty batch gets no reply at all exactly if all its entries are notifications. */
  lemma SilentExactlyOnNotifications(svc: Service, entries: seq<Entry>)
    requires entries != []
    ensures SentOverWs(BatchReply(svc, entries)) == None <==> forall i :: 0 <= i < |entries| ==> entries[i].Note?
  {
    var vs := AnswersRead(svc, entries);
    NoneReplying(entries);
  }

  lemma {:induction false} NoneReplying(entries: seq<Entry>)
    ensures Replying(entries) == 0 <==> forall i :: 0 <= i < |entries| ==> entries[i].Note?
  {
    if entries != [] {
      var n := |entries| - 1;
      NoneReplying(entries[..n]);
      assert forall i :: 0 <= i < n ==> entries[..n][i] == entries[i];
    }
  }
}
