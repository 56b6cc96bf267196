/**
 * The invariant of the async client: for every drawn number, which of a few phases its operation is in,
 * told from the queue, the manager, the transport and the log together.
 */
module ClientInvariant {
  import opened Wrappers
  import opened Ids
  import opened ClientMessages
  import opened BatchReplies
  import opened RequestManager
  import opened ClientTasks
  import opened ClientSystem

  /** How often a caller's oneshot was used. */
  function Uses(log: seq<Delivery>, n: nat): (k: nat) {
    if log == [] then 0 else Uses(log[..|log| - 1], n) + if log[|log| - 1].to == n then 1 else 0
  }

  /** Everything the state says about one number as the number of a single id. */
  datatype Facts = Facts(queued: Option<FrontToBack>, entry: Option<Kind>, flight: Option<WireRequest>, sent: nat,
    uses: nat)

  function FactsOf(s: Sys, n: nat): (f: Facts) {
    var id := IdOf(s.kind, n);
    Facts(if Op(n) in s.queue then Some(s.queue[Op(n)]) else None,
          if id in s.m.requests then Some(s.m.requests[id]) else None,
          if ById(id) in s.wire then Some(s.wire[ById(id)].req) else None,
          s.sent[ById(id)],
          Uses(s.log, n))
  }

  /** The same about a number as the start of a batch. */
  datatype BatchFacts = BatchFacts(queued: Option<FrontToBack>, entry: Option<Oneshot>, flight: Option<WireRequest>,
    sent: nat, uses: nat)

  function BatchFactsOf(s: Sys, n: nat, ids: Range): (f: BatchFacts) {
    BatchFacts(if Op(n) in s.queue then Some(s.queue[Op(n)]) else None,
               if ids in s.m.batches then Some(s.m.batches[ids]) else None,
               if ByRange(ids) in s.wire then Some(s.wire[ByRange(ids)].req) else None,
               s.sent[ByRange(ids)],
               Uses(s.log, n))
  }

  const RESERVED := Some(PendingMethodCall(None))

  predicate CallOk(kind: IdKind, n: nat, f: Facts) {
    var id := IdOf(kind, n);
    || f == Facts(Some(CallMessage(kind, n)), None, None, 0, 0)                                   // waiting
    || f == Facts(None, Some(PendingMethodCall(Some(n))), Some(WireCall(id)), 1, 0)               // pending
    || f == Facts(None, None, None, 1, 1)                                                         // answered
  }

  /** The subscriptions whose unsubscribe request is reserved but was not sent, and will not be. */
  predicate Abandoned(f: Facts, g: Facts) {
    f == Facts(None, RESERVED, None, 1, 1) && g == Facts(None, RESERVED, None, 0, 0)
  }

  predicate SubscribeOk(kind: IdKind, n: nat, u: nat, unsubMethod: string, f: Facts, g: Facts) {
    var id, unsub := IdOf(kind, n), IdOf(kind, u);
    || (f == Facts(Some(SubscribeMessage(kind, n, u, unsubMethod)), None, None, 0, 0)             // waiting
        && g == Facts(None, None, None, 0, 0))
    || (f == Facts(None, Some(PendingSubscription(unsub, n, unsubMethod)), Some(WireSubscribe(id)), 1, 0)   // pending
        && g == Facts(None, RESERVED, None, 0, 0))
    || (f == Facts(None, Some(Subscription(unsub, n, unsubMethod)), None, 1, 1)                   // active
        && g == Facts(None, RESERVED, None, 0, 0))
    || (f == Facts(None, RESERVED, None, 1, 1)                                                    // unsubscribing
        && g.flight.Some? && g.flight.value.WireUnsubscribe?
        && g == Facts(None, RESERVED, Some(WireUnsubscribe(unsub, g.flight.value.subId)), 1, 0))
    || (f == Facts(None, RESERVED, None, 1, 1) && g == Facts(None, None, None, 1, 0))             // unsubscribed
    || Abandoned(f, g)
    || (f == Facts(None, None, None, 1, 1) && g == Facts(None, RESERVED, None, 0, 0))             // refused or closed
  }

  predicate BatchOk(n: nat, ids: Range, f: BatchFacts) {
    || f == BatchFacts(Some(Batch(ids, n)), None, None, 0, 0)
    || f == BatchFacts(None, Some(n), Some(WireBatch(ids)), 1, 0)
    || f == BatchFacts(None, None, None, 1, 1)
  }

  /** The range of a batch that starts at a number, when it fits in 64 bits. */
  predicate Fits(n: nat, len: nat) {
    0 < len && n + len <= U64_MAX
  }

  predicate NumberOk(s: Sys, n: nat)
    requires n in s.calls
  {
    match s.calls[n]
    case SingleCall => CallOk(s.kind, n, FactsOf(s, n))
    case Subscribing(u, unsubMethod) => SubscribeOk(s.kind, n, u, unsubMethod, FactsOf(s, n), FactsOf(s, u))
    case UnsubscribeOf(_) => true
    case BatchCall(len) => Fits(n, len) && BatchOk(n, Range(n, n + len), BatchFactsOf(s, n, Range(n, n + len)))
  }

  // ---------------------------------------------------------------- nothing unaccounted for

  /** Numbers are used once, and a subscription and its unsubscribe number point to each other. */
  ghost predicate RegistryOk(s: Sys) {
    && s.issued <= TWO_64
    && (forall n :: n in s.drawn ==> n < s.issued && n !in s.calls)
    && (forall n :: n in s.calls ==> n < s.issued)
    && (forall n :: n in s.calls && s.calls[n].Subscribing? ==>
          s.calls[n].unsub != n && s.calls[n].unsub in s.calls && s.calls[s.calls[n].unsub] == UnsubscribeOf(n))
    && (forall u :: u in s.calls && s.calls[u].UnsubscribeOf? ==>
          s.calls[u].sub in s.calls && s.calls[s.calls[u].sub].Subscribing? && s.calls[s.calls[u].sub].unsub == u)
  }

  predicate KnownId(s: Sys, id: Id) {
    match TryParseInnerAsNumber(id)
    case Ok(n) => n in s.calls && !s.calls[n].BatchCall? && IdOf(s.kind, n) == id
    case Err(_) => false
  }

  predicate KnownRange(s: Sys, ids: Range) {
    ids.start in s.calls && s.calls[ids.start].BatchCall? && ids.end == ids.start + s.calls[ids.start].len
  }

  predicate KnownKey(s: Sys, k: WireKey) {
    match k
    case ById(id) => KnownId(s, id)
    case ByRange(ids) => KnownRange(s, ids)
  }

  ghost predicate AllKnown(s: Sys) {
    && (forall id :: id in s.m.requests ==> KnownId(s, id))
    && (forall ids :: ids in s.m.batches ==> KnownRange(s, ids))
    && (forall k :: k in s.wire ==> KnownKey(s, k))
    && (forall k :: k in s.sent ==> KnownKey(s, k))
  }

  /** A message without a caller: plain, or the unsubscribe of a caller that left, which is always refused. */
  predicate InternalOk(s: Sys, msg: FrontToBack) {
    || IsPlain(msg)
    || (msg.Request? && msg.callBack == None && KnownId(s, msg.id)
        && var u := TryParseInnerAsNumber(msg.id).value;
           s.calls[u].UnsubscribeOf? && Abandoned(FactsOf(s, s.calls[u].sub), FactsOf(s, u)))
  }

  ghost predicate QueueOk(s: Sys) {
    forall k :: k in s.queue ==>
      match k
      case Op(n) => n in s.calls && !s.calls[n].UnsubscribeOf?
      case Internal(i) => i < s.nextInternal && InternalOk(s, s.queue[k])
  }

  ghost predicate WireOk(s: Sys) {
    && (s.busy.Some? ==> s.busy.value in s.wire && s.wire[s.busy.value].stage == Unsent)
    && (forall k :: k in s.wire ==> KeyOf(s.wire[k].req) == Some(k) && k in s.sent)
    && (forall k :: k in s.wire && s.wire[k].stage.Answered? ==> Conforms(s.kind, s.wire[k].req, s.wire[k].stage.reply))
    && (forall k :: k in s.wire ==>
          if s.wire[k].stage.Answered? then k in s.answered && s.answered[k] == s.wire[k].stage.reply
            else k !in s.answered)
    && (forall k :: k in s.answered ==> k in s.sent)
  }

  /** The answer to the request with key `k` is the single reply `rp`. */
  predicate Answers(answered: map<WireKey, Reply>, k: WireKey, rp: Response) {
    k in answered && answered[k] == SingleAnswer(rp)
  }

  /** The answer to a batch is an array that has, at each place of the request order, the reply given for it. */
  predicate AnswersBatch(answered: map<WireKey, Reply>, ids: Range, rps: seq<Response>) {
    && ByRange(ids) in answered && answered[ByRange(ids)].ArrayAnswer?
    && ids.start + |rps| == ids.end
    && forall p :: 0 <= p < |rps| ==>
         rps[p] in Replies(answered[ByRange(ids)].elements) && ReplyNumber(rps[p]) == ids.start + p
  }

  /** The reply is a success whose result is the subscription id. */
  predicate Grants(rp: Response, subId: SubscriptionId) {
    rp.payload.Success? && ParseSubscriptionId(rp.payload.json) == Some(subId)
  }

  /** A oneshot got what the server answered to its caller's own request, a batch in request order. */
  predicate OwnReply(kind: IdKind, calls: map<nat, Call>, answered: map<WireKey, Reply>, d: Delivery) {
    && d.to in calls
    && match calls[d.to]
       case SingleCall => d.outcome.CallReply? && Answers(answered, ById(IdOf(kind, d.to)), d.outcome.rp)
       case Subscribing(_, _) =>
         && (d.outcome.Subscribed? || d.outcome.NotSubscribed?)
         && Answers(answered, ById(IdOf(kind, d.to)), d.outcome.rp)
         && (d.outcome.Subscribed? ==> Grants(d.outcome.rp, d.outcome.subId))
       case UnsubscribeOf(_) => false
       case BatchCall(len) =>
         && Fits(d.to, len) && d.outcome.BatchReply?
         && AnswersBatch(answered, Range(d.to, d.to + len), d.outcome.rps)
  }

  ghost predicate LogOk(s: Sys) {
    forall i :: 0 <= i < |s.log| ==> OwnReply(s.kind, s.calls, s.answered, s.log[i])
  }

  /** Messages the read task collects inside an array are closings only. */
  predicate OnlyPlain(msgs: seq<FrontToBack>) {
    forall i :: 0 <= i < |msgs| ==> IsPlain(msgs[i])
  }

  /** While an array is read: what was collected and what is left make up the array that answers the batch. */
  ghost predicate ReadingOk(s: Sys) {
    match s.reading
    case Idle => true
    case Stopped(failure) => failure == Unparseable || failure == EmptyArray
    case InArray(answers, rest, wholeAsError, st) =>
      && OnlyPlain(st.messages)
      && st.range == RunningRange(st.batch)
      && match answers
         case None => st.batch == [] && Replies(rest) == []
         case Some(ids) =>
           && ByRange(ids) in s.wire && s.wire[ByRange(ids)].stage.Answered?
           && s.wire[ByRange(ids)].req == WireBatch(ids)
           && s.wire[ByRange(ids)].stage.reply.ArrayAnswer?
           && st.batch + Replies(rest) == Replies(s.wire[ByRange(ids)].stage.reply.elements)
           && FullReply(s.kind, st.batch + Replies(rest), ids)
  }

  ghost predicate NumbersOk(s: Sys) {
    forall n :: n in s.calls ==> NumberOk(s, n)
  }

  ghost predicate Inv(s: Sys) {
    && RegistryOk(s)
    && NumbersOk(s)
    && AllKnown(s)
    && QueueOk(s)
    && WireOk(s)
    && LogOk(s)
    && ReadingOk(s)
    && ExactIndex(s.m)
  }

  // ---------------------------------------------------------------- ids

  lemma IdFacts(kind: IdKind, n: nat)
    requires n < TWO_64
    ensures TryParseInnerAsNumber(IdOf(kind, n)) == Ok(n)
  {
    hide IntoId, TryParseInnerAsNumber;
    IdRoundTrip(kind, n);
  }

  lemma IdsApart(kind: IdKind, a: nat, b: nat)
    requires a < TWO_64 && b < TWO_64 && a != b
    ensures IdOf(kind, a) != IdOf(kind, b)
  {
    hide IdOf;
    IdFacts(kind, a);
    IdFacts(kind, b);
  }

  lemma {:induction false} UsesAdd(a: seq<Delivery>, b: seq<Delivery>, n: nat)
    ensures Uses(a + b, n) == Uses(a, n) + Uses(b, n)
  {
    if b == [] {
      assert a + b == a;
    } else {
      UsesAdd(a, b[..|b| - 1], n);
      assert (a + b)[..|a + b| - 1] == a + b[..|b| - 1];
    }
  }

  lemma UsesShort(d: Delivery, n: nat)
    ensures Uses([], n) == 0
    ensures Uses([d], n) == if d.to == n then 1 else 0
  {
    assert [d][..0] == [];
  }

  // ---------------------------------------------------------------- frames

  /** A number none of whose facts changed is as well as it was. */
  lemma NumberKept(s: Sys, s': Sys, n: nat)
    requires n in s.calls && n in s'.calls && s'.calls[n] == s.calls[n] && s'.kind == s.kind
    requires NumberOk(s, n)
    requires match s.calls[n]
             case SingleCall => FactsOf(s', n) == FactsOf(s, n)
             case Subscribing(u, _) => FactsOf(s', n) == FactsOf(s, n) && FactsOf(s', u) == FactsOf(s, u)
             case UnsubscribeOf(_) => true
             case BatchCall(len) => Fits(n, len)
                                    ==> BatchFactsOf(s', n, Range(n, n + len)) == BatchFactsOf(s, n, Range(n, n + len))
    ensures NumberOk(s', n)
  {
    hide FactsOf, BatchFactsOf, SubscribeOk, CallOk, BatchOk;
  }
}
