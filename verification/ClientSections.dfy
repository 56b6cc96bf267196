/**
 * The sections the async client's two tasks run while they hold the manager's lock: every front-end
 * message and every kind of message from the server. Sections are values, so that any interleaving of
 * send and read steps is a sequence of them; `ClientTasks` runs them on the mutable manager.
 */
module ClientSections {
  import opened Wrappers
  import opened Ids
  import opened ClientMessages
  import opened BatchReplies
  import opened RequestManager

  /** History: what happened to subscriptions, by the id of the subscribe request. */
  datatype Event = Activated(id: Id) | Unsubscribed(id: Id) | ClosedByServer(id: Id)

  datatype Failure = BadRequestId(e: InvalidRequestId) | ExpectFailed

  /** Everything a section does. */
  datatype Effect = Effect(
    m: Manager,
    delivered: seq<Delivery>,    // oneshots used
    events: seq<Event>,
    wire: Option<WireRequest>,   // written to the transport once the lock is released
    back: Option<FrontToBack>,   // handed to the send task
    offered: Option<Sink>,       // the channel an item or notification was sent into
    failure: Option<Failure>)    // why the section could not go on

  function Quiet(m: Manager): (e: Effect) {
    Effect(m, [], [], None, None, None, None)
  }

  datatype Section =
    | Front(msg: FrontToBack)
    | SingleReply(rp: Response, gone: set<Oneshot>)
    | ArrayReply(rps: seq<Response>, ids: Range)
    | SubscriptionItem(subId: SubscriptionId, sent: SendResult)
    | SubscriptionError(subId: SubscriptionId)
    | MethodNotification(name: string, sent: SendResult)

  // ---------------------------------------------------------------- from the front end

  function FrontSection(m: Manager, msg: FrontToBack): (e: Effect) {
    match msg
    case Batch(ids, back) =>
      (match InsertPendingBatch(m, ids, back)
       case Some(m') => Quiet(m').(wire := Some(WireBatch(ids)))
       case None => Quiet(m).(delivered := [Delivery(back, Occupied)]))
    case Notification => Quiet(m).(wire := Some(WireNotification))
    case Request(id, back, raw) =>
      (match InsertPendingCall(m, id, back)
       case Some(m') => Quiet(m').(wire := Some(raw))
       case None => Quiet(m).(delivered := if back.Some? then [Delivery(back.value, Occupied)] else []))
    case Subscribe(sub, unsub, unsubMethod, back) =>
      (match InsertPendingSubscription(m, sub, unsub, back, unsubMethod)
       case Some(m') => Quiet(m').(wire := Some(WireSubscribe(sub)))
       case None => Quiet(m).(delivered := [Delivery(back, Occupied)]))
    case SubscriptionClosed(subId) =>
      if subId in m.subscriptions then
        var id := m.subscriptions[subId];
        match Unsubscribe(m, id, subId)
        case Some((m', kind)) =>
          Quiet(m').(wire := Some(WireUnsubscribe(kind.unsubId, subId)), events := [Unsubscribed(id)])
        case None => Quiet(m)
      else Quiet(m)
    case RegisterNotification(name, sink) =>
      (match InsertNotificationHandler(m, name, sink)
       case Some(m') => Quiet(m')
       case None => Quiet(m))
    case UnregisterNotification(name) => Quiet(RemoveNotificationHandler(m, name))
  }

  // ---------------------------------------------------------------- from the server

  /** The reply to a subscribe call; `m` no longer holds the pending entry. */
  function SubscribeReply(m: Manager, rp: Response, pending: Kind, gone: set<Oneshot>): (e: Effect)
    requires pending.PendingSubscription?
  {
    var back := pending.subscribeBack;
    match rp.payload
    case Failure(_, _) => Quiet(m).(delivered := [Delivery(back, NotSubscribed(rp, CallFailed))])
    case Success(json) =>
      match ParseSubscriptionId(json)
      case None => Quiet(m).(delivered := [Delivery(back, NotSubscribed(rp, ResultNotAnId))])
      case Some(subId) =>
        match InsertSubscription(m, rp.id, pending.unsubscribeId, subId, back, pending.unsubscribeMethod)
        case None => Quiet(m).(delivered := [Delivery(back, NotSubscribed(rp, IdInUse))])
        case Some(m') =>
          var e := Quiet(m').(delivered := [Delivery(back, Subscribed(rp, subId))], events := [Activated(rp.id)]);
          if back !in gone then e
          else
            // The caller left before the acknowledgement: unsubscribe through the send task.
            match Unsubscribe(m', rp.id, subId)
            case None => e
            case Some((m'', kind)) =>
              e.(m := m'',
                 events := [Activated(rp.id), Unsubscribed(rp.id)],
                 back := Some(Request(kind.unsubId, None, WireUnsubscribe(kind.unsubId, subId))))
  }

  function SingleReplySection(m: Manager, rp: Response, gone: set<Oneshot>): (e: Effect) {
    match StatusOf(m, rp.id)
    case CallPending =>
      (match CompletePendingCall(m, rp.id)
       case Some((m', Some(back))) => Quiet(m').(delivered := [Delivery(back, CallReply(rp))])
       case Some((m', None)) => Quiet(m')
       case None => Quiet(m).(failure := Some(BadRequestId(NotPendingRequest(rp.id)))))
    case SubscriptionPending =>
      (match CompletePendingSubscription(m, rp.id)
       case Some((m', kind)) => SubscribeReply(m', rp, kind, gone)
       case None => Quiet(m).(failure := Some(BadRequestId(NotPendingRequest(rp.id)))))
    case SubscriptionActive => Quiet(m).(failure := Some(BadRequestId(NotPendingRequest(rp.id))))
    case Unknown => Quiet(m).(failure := Some(BadRequestId(NotPendingRequest(rp.id))))
  }

  /** The pending batch is taken out before the replies are looked at, so a bad reply drops its oneshot unused. */
  function ArrayReplySection(m: Manager, rps: seq<Response>, ids: Range): (e: Effect) {
    match CompletePendingBatch(m, ids)
    case None => Quiet(m).(failure := Some(BadRequestId(NotPendingBatch(ids))))
    case Some((m', back)) =>
      match Placed(rps, |rps|, ids)
      case Ok(slots) => Quiet(m').(delivered := [Delivery(back, BatchReply(slots))])
      case Err(err) => Quiet(m').(failure := Some(BadRequestId(err)))
  }

  function SubscriptionItemSection(m: Manager, subId: SubscriptionId, sent: SendResult): (e: Effect) {
    if subId in m.subscriptions && m.subscriptions[subId] in m.requests
       && m.requests[m.subscriptions[subId]].Subscription?
    then
      Quiet(m).(offered := Some(m.requests[m.subscriptions[subId]].sink),
                back := if sent != Sent then Some(SubscriptionClosed(subId)) else None)
    else Quiet(m)
  }

  function SubscriptionErrorSection(m: Manager, subId: SubscriptionId): (e: Effect) {
    if subId in m.subscriptions then
      var id := m.subscriptions[subId];
      match RemoveSubscription(m, id, subId)
      case Some((m', _)) => Quiet(m').(events := [ClosedByServer(id)])
      case None => Quiet(m).(failure := Some(ExpectFailed))
    else Quiet(m)
  }

  function MethodNotificationSection(m: Manager, name: string, sent: SendResult): (e: Effect) {
    if name in m.handlers then
      Quiet(if sent != Sent then RemoveNotificationHandler(m, name) else m).(offered := Some(m.handlers[name]))
    else Quiet(m)
  }

  function RunSection(m: Manager, section: Section): (e: Effect) {
    match section
    case Front(msg) => FrontSection(m, msg)
    case SingleReply(rp, gone) => SingleReplySection(m, rp, gone)
    case ArrayReply(rps, ids) => ArrayReplySection(m, rps, ids)
    case SubscriptionItem(subId, sent) => SubscriptionItemSection(m, subId, sent)
    case SubscriptionError(subId) => SubscriptionErrorSection(m, subId)
    case MethodNotification(name, sent) => MethodNotificationSection(m, name, sent)
  }

  // ---------------------------------------------------------------- what every run keeps

  lemma SubscribeReplyKeepsIndex(m: Manager, rp: Response, pending: Kind, gone: set<Oneshot>)
    requires ExactIndex(m) && pending.PendingSubscription? && rp.id !in m.requests
    ensures ExactIndex(SubscribeReply(m, rp, pending, gone).m)
    ensures SubscribeReply(m, rp, pending, gone).failure == None
  {
    hide ParseSubscriptionId, ExactIndex;
    match rp.payload
    case Failure(_, _) =>
    case Success(json) =>
      match ParseSubscriptionId(json)
      case None =>
      case Some(subId) =>
        match InsertSubscription(m, rp.id, pending.unsubscribeId, subId, pending.subscribeBack,
          pending.unsubscribeMethod)
        case None =>
        case Some(m') =>
          IndexAfterInsert(m, rp.id, pending.unsubscribeId, subId, pending.subscribeBack, pending.unsubscribeMethod);
          IndexAfterRemove(m', subId);
  }

  lemma SingleReplyKeepsIndex(m: Manager, rp: Response, gone: set<Oneshot>)
    requires ExactIndex(m)
    ensures ExactIndex(SingleReplySection(m, rp, gone).m)
    ensures SingleReplySection(m, rp, gone).failure != Some(ExpectFailed)
  {
    hide SubscribeReply, ExactIndex;
    match StatusOf(m, rp.id)
    case CallPending => IndexKept(m, CompletePendingCall(m, rp.id).value.0);
    case SubscriptionPending =>
      var m' := CompletePendingSubscription(m, rp.id).value.0;
      IndexKept(m, m');
      SubscribeReplyKeepsIndex(m', rp, m.requests[rp.id], gone);
    case _ =>
  }

  lemma FrontKeepsIndex(m: Manager, msg: FrontToBack)
    requires ExactIndex(m)
    ensures ExactIndex(FrontSection(m, msg).m)
    ensures FrontSection(m, msg).failure == None
  {
    hide ExactIndex;
    if msg.SubscriptionClosed? {
      if msg.subId in m.subscriptions {
        IndexAfterRemove(m, msg.subId);
      }
    } else {
      FrontKeepsSubscriptions(m, msg);
      hide FrontSection;
      IndexKept(m, FrontSection(m, msg).m);
    }
  }

  /** No front-end message but the closing of a subscription touches an active one. */
  lemma FrontKeepsSubscriptions(m: Manager, msg: FrontToBack)
    requires !msg.SubscriptionClosed?
    ensures var e := FrontSection(m, msg);
            && e.failure == None && e.m.subscriptions == m.subscriptions
            && (forall id ::
                id in m.requests && m.requests[id].Subscription?
                ==> id in e.m.requests && e.m.requests[id] == m.requests[id])
            && (forall id ::
                id in e.m.requests && e.m.requests[id].Subscription?
                ==> id in m.requests && m.requests[id] == e.m.requests[id])
  {
  }

  /**
   * Whatever the section and whatever the server sent, the index stays exact and the `expect` on a server
   * close holds.
   */
  lemma SectionKeepsIndex(m: Manager, section: Section)
    requires ExactIndex(m)
    ensures ExactIndex(RunSection(m, section).m)
    ensures RunSection(m, section).failure != Some(ExpectFailed)
  {
    hide ExactIndex, SingleReplySection, FrontSection;
    match section
    case Front(msg) => FrontKeepsIndex(m, msg);
    case SingleReply(rp, gone) => SingleReplyKeepsIndex(m, rp, gone);
    case ArrayReply(rps, ids) => IndexKept(m, RunSection(m, section).m);
    case SubscriptionError(subId) =>
      if subId in m.subscriptions {
        IndexAfterRemove(m, subId);
      }
    case MethodNotification(_, _) => IndexKept(m, RunSection(m, section).m);
    case SubscriptionItem(_, _) =>
  }

  /** The manager and the subscription history after a run of sections. */
  datatype History = History(m: Manager, events: seq<Event>)

  function RunAll(sections: seq<Section>): (h: History) {
    if sections == [] then History(EMPTY, [])
    else
      var h := RunAll(sections[..|sections| - 1]);
      var e := RunSection(h.m, sections[|sections| - 1]);
      History(e.m, h.events + e.events)
  }

  /** How many subscriptions became active, were unsubscribed, and were closed by the server. */
  datatype Tally = Tally(activated: nat, unsubscribed: nat, closed: nat)

  function Counted(t: Tally, e: Event): (r: Tally) {
    match e
    case Activated(_) => t.(activated := t.activated + 1)
    case Unsubscribed(_) => t.(unsubscribed := t.unsubscribed + 1)
    case ClosedByServer(_) => t.(closed := t.closed + 1)
  }

  function TallyFrom(t: Tally, events: seq<Event>): (r: Tally) {
    if events == [] then t else Counted(TallyFrom(t, events[..|events| - 1]), events[|events| - 1])
  }

  function TallyOf(events: seq<Event>): (t: Tally) {
    TallyFrom(Tally(0, 0, 0), events)
  }

  lemma {:induction false} TallyContinues(t: Tally, a: seq<Event>, b: seq<Event>)
    ensures TallyFrom(t, a + b) == TallyFrom(TallyFrom(t, a), b)
  {
    hide Counted;
    if b == [] {
      assert a + b == a;
    } else {
      TallyContinues(t, a, b[..|b| - 1]);
      assert (a + b)[..|a + b| - 1] == a + b[..|b| - 1];
    }
  }

  lemma TallyShort(t: Tally, a: Event, b: Event)
    ensures TallyFrom(t, []) == t
    ensures TallyFrom(t, [a]) == Counted(t, a)
    ensures TallyFrom(t, [a, b]) == Counted(Counted(t, a), b)
  {
    hide Counted;
    assert [a][..0] == [] && [a, b][..1] == [a];
  }

  /** Activated and not ended since, by the tally. */
  function Open(t: Tally): (n: int) {
    t.activated - t.unsubscribed - t.closed
  }

  /** In one section, activations minus endings is the change in the number of indexed subscriptions. */
  lemma SectionBalance(m: Manager, section: Section, t: Tally)
    ensures var e := RunSection(m, section);
            |e.m.subscriptions| - |m.subscriptions| == Open(TallyFrom(t, e.events)) - Open(t)
  {
    hide RunSection, TallyFrom;
    var e := RunSection(m, section);
    var c := ChangeOfIndex(m, section);
    match c
    case Unchanged =>
      TallyShort(t, Activated(Null), Activated(Null));
    case Added(id, subId) =>
      TallyShort(t, Activated(id), Activated(id));
    case Removed(event, subId) =>
      TallyShort(t, event, event);
    case AddedAndRemoved(id) =>
      TallyShort(t, Activated(id), Unsubscribed(id));
  }

  /** How a section changed the index. */
  datatype IndexChange =
    | Unchanged
    | Added(id: Id, subId: SubscriptionId)
    | Removed(event: Event, removed: SubscriptionId)
    | AddedAndRemoved(both: Id)

  ghost predicate Explains(c: IndexChange, m: Manager, e: Effect) {
    match c
    case Unchanged => e.events == [] && e.m.subscriptions == m.subscriptions
    case Added(id, subId) =>
      e.events == [Activated(id)] && subId !in m.subscriptions && e.m.subscriptions == m.subscriptions[subId := id]
    case Removed(event, subId) =>
      e.events == [event] && !event.Activated? && subId in m.subscriptions
        && e.m.subscriptions == m.subscriptions - {subId}
    case AddedAndRemoved(id) =>
      e.events == [Activated(id), Unsubscribed(id)] && e.m.subscriptions == m.subscriptions
  }

  /** The index loses one entry per ending, gains one per activation, and a section does each at most once. */
  lemma ChangeOfIndex(m: Manager, section: Section) returns (c: IndexChange)
    ensures Explains(c, m, RunSection(m, section))
  {
    hide ParseSubscriptionId, Placed, SubscribeReply;
    c := Unchanged;
    match section
    case SingleReply(rp, gone) =>
      if StatusOf(m, rp.id) == SubscriptionPending {
        c := SubscribeReplyIndex(CompletePendingSubscription(m, rp.id).value.0, rp, m.requests[rp.id], gone);
      }
    case Front(SubscriptionClosed(subId)) =>
      if subId in m.subscriptions && Unsubscribe(m, m.subscriptions[subId], subId).Some? {
        c := Removed(Unsubscribed(m.subscriptions[subId]), subId);
      }
    case SubscriptionError(subId) =>
      if subId in m.subscriptions && RemoveSubscription(m, m.subscriptions[subId], subId).Some? {
        c := Removed(ClosedByServer(m.subscriptions[subId]), subId);
      }
    case _ =>
  }

  lemma SubscribeReplyIndex(m: Manager, rp: Response, pending: Kind, gone: set<Oneshot>) returns (c: IndexChange)
    requires pending.PendingSubscription?
    ensures Explains(c, m, SubscribeReply(m, rp, pending, gone))
  {
    hide ParseSubscriptionId;
    var e := SubscribeReply(m, rp, pending, gone);
    c := Unchanged;
    if e.events != [] {
      var subId := ParseSubscriptionId(rp.payload.json).value;
      c := if |e.events| == 1 then Added(rp.id, subId) else AddedAndRemoved(rp.id);
      assert m.subscriptions[subId := rp.id] - {subId} == m.subscriptions;
    }
  }

  /**
   * In every run of sections, in any order and whatever the server sends: the reverse index is exact, no
   * `expect` fails, and subscriptions ever activated = active + unsubscribed + closed by the server.
   */
  lemma {:induction false} EveryRun(sections: seq<Section>)
    ensures var h := RunAll(sections);
            var t := TallyOf(h.events);
            && ExactIndex(h.m)
            && t.activated == |h.m.subscriptions| + t.unsubscribed + t.closed
            && forall section :: RunSection(h.m, section).failure != Some(ExpectFailed)
  {
    hide RunSection, ExactIndex, TallyFrom;
    var h := RunAll(sections);
    if sections == [] {
      TallyShort(Tally(0, 0, 0), Activated(Null), Activated(Null));
      EmptyIndex();
    } else {
      var front := sections[..|sections| - 1];
      var last := sections[|sections| - 1];
      EveryRun(front);
      var before := RunAll(front);
      SectionKeepsIndex(before.m, last);
      SectionBalance(before.m, last, TallyOf(before.events));
      TallyContinues(Tally(0, 0, 0), before.events, RunSection(before.m, last).events);
    }
    forall section ensures RunSection(h.m, section).failure != Some(ExpectFailed) {
      SectionKeepsIndex(h.m, section);
    }
  }

  lemma EmptyIndex()
    ensures ExactIndex(EMPTY)
  {
  }
}
