/** Messages that cross the async client: from the front end, to and from the server, and back to callers. */
module ClientMessages {
  import opened Wrappers
  import opened Ids
  import opened Json

  datatype SubscriptionId = Num(n: U64) | Text(s: string)

  datatype Payload = Success(json: string) | Failure(code: int, message: string)

  datatype Response = Response(id: Id, payload: Payload)

  /** A subscription id in a result: an unsigned number or a string, nothing else. */
  function ParseSubscriptionId(json: string): (r: Option<SubscriptionId>) {
    match ParseDocument(json)
    case Some(JInt(n)) => if 0 <= n < TWO_64 then Some(Num(n)) else None
    case Some(JStr(s)) => Some(Text(s))
    case _ => None
  }

  /** The sending half of a caller's oneshot, named by the caller's number; it can be used up once. */
  type Oneshot = nat

  /** The sending half of a subscription's channel. */
  type Sink = nat

  datatype SubscribeFailure = CallFailed | ResultNotAnId | IdInUse

  /** What is put into a oneshot. */
  datatype Outcome =
    | CallReply(rp: Response)
    | BatchReply(rps: seq<Response>)
    | Subscribed(rp: Response, subId: SubscriptionId)
    | NotSubscribed(rp: Response, reason: SubscribeFailure)
    | Occupied

  datatype Delivery = Delivery(to: Oneshot, outcome: Outcome)

  /** What the send task writes to the transport. */
  datatype WireRequest =
    | WireCall(id: Id)
    | WireSubscribe(id: Id)
    | WireUnsubscribe(id: Id, subId: SubscriptionId)
    | WireBatch(ids: Range)
    | WireNotification

  datatype FrontToBack =
    | Batch(ids: Range, batchBack: Oneshot)
    | Notification
    | Request(id: Id, callBack: Option<Oneshot>, raw: WireRequest)
    | Subscribe(subscribeId: Id, unsubscribeId: Id, unsubscribeMethod: string, subscribeBack: Oneshot)
    | RegisterNotification(register: string, handler: Sink)
    | UnregisterNotification(unregister: string)
    | SubscriptionClosed(subId: SubscriptionId)

  /** The result of offering a message to a bounded subscription channel. */
  datatype SendResult = Sent | ChannelClosed | TooSlow
}
