/**
 * The async client as a transition system: any number of callers on the front end, the send task, the
 * read task, the transport and a server. A step is a lock section of the send or read side or a move of the
 * environment, so a run is any interleaving.
 *
 * The server is any server that answers each request it got at most once and with the request's id, a
 * batch as one array with one reply per request in any order. Beyond that it may send subscription items,
 * subscription errors and notifications at any time, on their own or inside arrays, true or not.
 */
module ClientSystem {
  import opened Wrappers
  import opened Ids
  import opened ClientMessages
  import opened BatchReplies
  import opened RequestManager
  import opened ClientSections
  import opened ClientTasks

  /** History: what the front end used a drawn number for. */
  datatype Call =
    | SingleCall
    | Subscribing(unsub: nat, unsubMethod: string)
    | UnsubscribeOf(sub: nat)
    | BatchCall(len: nat)

  /** Messages waiting for the send task, in no order: a caller's, or one without a caller. */
  datatype QueueKey = Op(n: nat) | Internal(k: nat)

  /** What a reply is matched by. */
  datatype WireKey = ById(id: Id) | ByRange(ids: Range)

  datatype Reply = SingleAnswer(rp: Response) | ArrayAnswer(elements: seq<Element>,
    wholeAsError: Option<SubscriptionId>)

  datatype Stage = Unsent | AtServer | Answered(reply: Reply)

  /** A request that was taken to be sent and whose reply was not read yet. */
  datatype Flight = Flight(req: WireRequest, stage: Stage)

  datatype Reading =
    | Idle
    | InArray(answers: Option<Range>, rest: seq<Element>, wholeAsError: Option<SubscriptionId>, st: ArrayState)
    | Stopped(failure: ReadFailure)

  datatype Sys = Sys(
    kind: IdKind,
    issued: nat,                       // how often the id counter was advanced
    drawn: set<nat>,                   // numbers drawn and not used yet
    calls: map<nat, Call>,
    queue: map<QueueKey, FrontToBack>,
    nextInternal: nat,
    m: Manager,
    busy: Option<WireKey>,             // what the send task is writing
    wire: map<WireKey, Flight>,
    sent: multiset<WireKey>,           // history: requests ever taken to be sent
    reading: Reading,
    log: seq<Delivery>,                // history: oneshots used, in order
    answered: map<WireKey, Reply>,     // history: what the server answered
    gone: set<Oneshot>)                // callers that stopped waiting

  /** The id made from a drawn number; the counter has 64 bits. */
  function IdOf(kind: IdKind, n: nat): (id: Id) {
    IntoId(kind, n % TWO_64)
  }

  function KeyOf(req: WireRequest): (k: Option<WireKey>) {
    match req
    case WireCall(id) => Some(ById(id))
    case WireSubscribe(id) => Some(ById(id))
    case WireUnsubscribe(id, _) => Some(ById(id))
    case WireBatch(ids) => Some(ByRange(ids))
    case WireNotification => None
  }

  /** What the server may answer. */
  ghost predicate Conforms(kind: IdKind, req: WireRequest, reply: Reply) {
    match req
    case WireCall(id) => reply.SingleAnswer? && reply.rp.id == id
    case WireSubscribe(id) => reply.SingleAnswer? && reply.rp.id == id
    case WireUnsubscribe(id, _) => reply.SingleAnswer? && reply.rp.id == id
    case WireBatch(ids) => reply.ArrayAnswer? && FullReply(kind, Replies(reply.elements), ids)
    case WireNotification => false
  }

  datatype Step =
    // callers
    | Draw
    | IssueCall(n: nat)
    | IssueSubscribe(n: nat, u: nat, unsubMethod: string)
    | IssueBatch(n: nat, len: nat)
    | Post(msg: FrontToBack)
    | Leave(n: nat)
    // the send task
    | Take(key: QueueKey)
    | Flush
    // the server
    | Answer(k: WireKey, reply: Reply)
    // the read task
    | ReadSingle(k: WireKey)
    | PushItem(subId: SubscriptionId, sent: SendResult)
    | PushError(subId: SubscriptionId)
    | PushNotification(name: string, sent: SendResult)
    | BeginArray(k: WireKey)
    | PushArray(elements: seq<Element>, wholeAsError: Option<SubscriptionId>)
    | NextElement
    | EndArray

  function Init(kind: IdKind): (s: Sys) {
    Sys(kind, 0, {}, map[], map[], 0, EMPTY, None, map[], multiset{}, Idle, [], map[], {})
  }

  /** The message a caller's operation puts on the way to the send task. */
  function CallMessage(kind: IdKind, n: nat): (msg: FrontToBack) {
    Request(IdOf(kind, n), Some(n), WireCall(IdOf(kind, n)))
  }

  function SubscribeMessage(kind: IdKind, n: nat, u: nat, unsubMethod: string): (msg: FrontToBack) {
    Subscribe(IdOf(kind, n), IdOf(kind, u), unsubMethod, n)
  }

  /** Messages that carry no oneshot and no request id. */
  predicate IsPlain(msg: FrontToBack) {
    !msg.Batch? && !msg.Request? && !msg.Subscribe?
  }

  predicate HasReply(elements: seq<Element>) {
    exists i :: 0 <= i < |elements| && elements[i].ReplyElement?
  }

  ghost predicate Enabled(s: Sys, step: Step) {
    match step
    case Draw => true
    case IssueCall(n) => n in s.drawn
    case IssueSubscribe(n, u, _) => n in s.drawn && u in s.drawn && n != u
    case IssueBatch(n, len) => n in s.drawn && len > 0 && GenerateBatchIdRange(IdOf(s.kind, n), len).Some?
    case Post(msg) => IsPlain(msg)
    case Leave(n) => true
    case Take(key) => s.busy == None && key in s.queue
    case Flush => s.busy.Some? && s.busy.value in s.wire
    case Answer(k, reply) => k in s.wire && s.wire[k].stage == AtServer && Conforms(s.kind, s.wire[k].req, reply)
    case ReadSingle(k) => s.reading == Idle && k in s.wire && s.wire[k].stage.Answered?
                          && s.wire[k].stage.reply.SingleAnswer?
    case PushItem(_, _) => s.reading == Idle
    case PushError(_) => s.reading == Idle
    case PushNotification(_, _) => s.reading == Idle
    case BeginArray(k) =>
      s.reading == Idle && k.ByRange? && k in s.wire && s.wire[k].stage.Answered? && s.wire[k].stage.reply.ArrayAnswer?
    case PushArray(elements, _) => s.reading == Idle && !HasReply(elements)
    case NextElement => s.reading.InArray? && s.reading.rest != []
    case EndArray => s.reading.InArray? && s.reading.rest == []
  }

  function Enqueue(s: Sys, msgs: seq<FrontToBack>): (s': Sys)
    decreases |msgs|
  {
    if msgs == [] then s
    else
      Enqueue(s.(queue := s.queue[Internal(s.nextInternal) := msgs[0]], nextInternal := s.nextInternal + 1), msgs[1..])
  }

  /** The manager, the callers and the send queue after a lock section. */
  function Absorb(s: Sys, e: Effect): (s': Sys) {
    Enqueue(s.(m := e.m, log := s.log + e.delivered), if e.back.Some? then [e.back.value] else [])
  }

  function StopOn(s: Sys, failure: Option<ReadFailure>): (s': Sys) {
    if failure.Some? then s.(reading := Stopped(failure.value)) else s
  }

  /** The send task starts writing a request. */
  function Transmit(s: Sys, req: Option<WireRequest>): (s': Sys) {
    if req.Some? && KeyOf(req.value).Some? then
      var k := KeyOf(req.value).value;
      s.(wire := s.wire[k := Flight(req.value, Unsent)], busy := Some(k), sent := s.sent + multiset{k})
    else s
  }

  function TakeNext(s: Sys, key: QueueKey): (s': Sys)
    requires key in s.queue
  {
    var e := FrontSection(s.m, s.queue[key]);
    Transmit(Absorb(s.(queue := s.queue - {key}), e), e.wire)
  }

  function ReadSingleNext(s: Sys, k: WireKey): (s': Sys)
    requires k in s.wire && s.wire[k].stage.Answered? && s.wire[k].stage.reply.SingleAnswer?
  {
    var e := SingleReplySection(s.m, s.wire[k].stage.reply.rp, s.gone);
    StopOn(Absorb(s.(wire := s.wire - {k}), e), FailureOf(e))
  }

  function NextElementNext(s: Sys): (s': Sys)
    requires s.reading.InArray? && s.reading.rest != []
  {
    var r := ReadElement(s.m, s.reading.st, s.reading.rest[0], s.reading.wholeAsError);
    // Closed subscriptions found in an array reach the send task only when the array is done.
    var s1 := s.(m := r.effect.m, log := s.log + r.effect.delivered,
                 reading := s.reading.(rest := s.reading.rest[1..], st := r.next));
    StopOn(s1, r.failure)
  }

  function EndArrayNext(s: Sys): (s': Sys)
    requires s.reading.InArray?
  {
    var r := FinishArray(s.m, s.reading.st);
    var s1 := s.(m := r.effect.m, log := s.log + r.effect.delivered, reading := Idle);
    var s2 := if s.reading.answers.Some? then s1.(wire := s1.wire - {ByRange(s.reading.answers.value)}) else s1;
    if r.failure.Some? then s2.(reading := Stopped(r.failure.value)) else Enqueue(s2, r.next.messages)
  }

  function Next(s: Sys, step: Step): (s': Sys)
    requires Enabled(s, step)
  {
    match step
    case Draw => s.(issued := s.issued + 1, drawn := s.drawn + {s.issued})
    case IssueCall(n) =>
      s.(drawn := s.drawn - {n}, calls := s.calls[n := SingleCall], queue := s.queue[Op(n) := CallMessage(s.kind, n)])
    case IssueSubscribe(n, u, unsubMethod) =>
      s.(drawn := s.drawn - {n, u}, calls := s.calls[n := Subscribing(u, unsubMethod)][u := UnsubscribeOf(n)],
         queue := s.queue[Op(n) := SubscribeMessage(s.kind, n, u, unsubMethod)])
    case IssueBatch(n, len) =>
      s.(drawn := s.drawn - {n}, calls := s.calls[n := BatchCall(len)],
         queue := s.queue[Op(n) := Batch(GenerateBatchIdRange(IdOf(s.kind, n), len).value, n)])
    case Post(msg) => Enqueue(s, [msg])
    case Leave(n) => s.(gone := s.gone + {n})
    case Take(key) => TakeNext(s, key)
    case Flush => s.(busy := None, wire := s.wire[s.busy.value := s.wire[s.busy.value].(stage := AtServer)])
    case Answer(k, reply) =>
      s.(wire := s.wire[k := s.wire[k].(stage := Answered(reply))], answered := s.answered[k := reply])
    case ReadSingle(k) => ReadSingleNext(s, k)
    case PushItem(subId, sent) => Absorb(s, SubscriptionItemSection(s.m, subId, sent))
    case PushError(subId) =>
      var e := SubscriptionErrorSection(s.m, subId);
      StopOn(Absorb(s, e), FailureOf(e))
    case PushNotification(name, sent) => Absorb(s, MethodNotificationSection(s.m, name, sent))
    case BeginArray(k) =>
      s.(reading := InArray(Some(k.ids), s.wire[k].stage.reply.elements, s.wire[k].stage.reply.wholeAsError, NEW_ARRAY))
    case PushArray(elements, wholeAsError) => s.(reading := InArray(None, elements, wholeAsError, NEW_ARRAY))
    case NextElement => NextElementNext(s)
    case EndArray => EndArrayNext(s)
  }

  /** The state after a run, or nothing if a step of it is not possible. */
  ghost function After(kind: IdKind, steps: seq<Step>): (s: Option<Sys>) {
    if steps == [] then Some(Init(kind))
    else
      var last := steps[|steps| - 1];
      match After(kind, steps[..|steps| - 1])
      case Some(s) => if Enabled(s, last) then Some(Next(s, last)) else None
      case None => None
  }
}
