/**
 * The async client's request manager: what is pending, which subscriptions are active, and the
 * operations on it. The operations are first given on values; the class at the end is the mutable
 * structure itself, each method proved against its value-level operation.
 */
module RequestManager {
  import opened Wrappers
  import opened Ids
  import opened ClientMessages

  datatype Kind =
    | PendingMethodCall(callBack: Option<Oneshot>)
    | PendingSubscription(unsubscribeId: Id, subscribeBack: Oneshot, unsubscribeMethod: string)
    | Subscription(unsubId: Id, sink: Sink, unsubMethod: string)

  datatype Manager = Manager(
    requests: map<Id, Kind>,
    subscriptions: map<SubscriptionId, Id>,
    batches: map<Range, Oneshot>,
    handlers: map<string, Sink>)

  const EMPTY := Manager(map[], map[], map[], map[])

  // Each `Insert` operation gives the new manager, or nothing when it is refused.

  function InsertPendingCall(m: Manager, id: Id, back: Option<Oneshot>): (r: Option<Manager>) {
    if id in m.requests then None
    else Some(m.(requests := m.requests[id := PendingMethodCall(back)]))
  }

  function InsertPendingBatch(m: Manager, ids: Range, back: Oneshot): (r: Option<Manager>) {
    if ids in m.batches then None else Some(m.(batches := m.batches[ids := back]))
  }

  /** Also reserves the slot of a later unsubscribe call. */
  function InsertPendingSubscription(m: Manager, sub: Id, unsub: Id, back: Oneshot,
                                     unsubMethod: string): (r: Option<Manager>) {
    if sub in m.requests || unsub in m.requests || sub == unsub then None
    else
      Some(m.(requests := m.requests[sub := PendingSubscription(unsub, back, unsubMethod)]
                                    [unsub := PendingMethodCall(None)]))
  }

  function InsertSubscription(m: Manager, sub: Id, unsub: Id, subId: SubscriptionId, sink: Sink,
                              unsubMethod: string): (r: Option<Manager>) {
    if sub in m.requests || subId in m.subscriptions then None
    else
      Some(m.(requests := m.requests[sub := Subscription(unsub, sink, unsubMethod)],
              subscriptions := m.subscriptions[subId := sub]))
  }

  function InsertNotificationHandler(m: Manager, method': string, sink: Sink): (r: Option<Manager>) {
    if method' in m.handlers then None else Some(m.(handlers := m.handlers[method' := sink]))
  }

  function RemoveNotificationHandler(m: Manager, method': string): (r: Manager) {
    m.(handlers := m.handlers - {method'})
  }

  // Each `Complete` and `Remove` operation gives the new manager and what was taken out, or nothing.

  function CompletePendingCall(m: Manager, id: Id): (r: Option<(Manager, Option<Oneshot>)>) {
    if id in m.requests && m.requests[id].PendingMethodCall? then
      Some((m.(requests := m.requests - {id}), m.requests[id].callBack))
    else None
  }

  function CompletePendingSubscription(m: Manager, id: Id): (r: Option<(Manager, Kind)>)
    ensures r.Some? ==> r.value.1.PendingSubscription?
  {
    if id in m.requests && m.requests[id].PendingSubscription? then
      Some((m.(requests := m.requests - {id}), m.requests[id]))
    else None
  }

  function CompletePendingBatch(m: Manager, ids: Range): (r: Option<(Manager, Oneshot)>) {
    if ids in m.batches then Some((m.(batches := m.batches - {ids}), m.batches[ids])) else None
  }

  /** The two ids are looked up separately: nothing here checks that they belong together. */
  function RemoveSubscription(m: Manager, id: Id, subId: SubscriptionId): (r: Option<(Manager, Kind)>)
    ensures r.Some? ==> r.value.1.Subscription?
  {
    if id in m.requests && m.requests[id].Subscription? && subId in m.subscriptions then
      Some((m.(requests := m.requests - {id}, subscriptions := m.subscriptions - {subId}), m.requests[id]))
    else None
  }

  /** Like a removal, but the request id stays behind as a call nobody waits for. */
  function Unsubscribe(m: Manager, id: Id, subId: SubscriptionId): (r: Option<(Manager, Kind)>)
    ensures r.Some? ==> r.value.1.Subscription?
  {
    if id in m.requests && m.requests[id].Subscription? && subId in m.subscriptions then
      Some((m.(requests := m.requests[id := PendingMethodCall(None)], subscriptions := m.subscriptions - {subId}),
            m.requests[id]))
    else None
  }

  datatype RequestStatus = CallPending | SubscriptionPending | SubscriptionActive | Unknown

  function StatusOf(m: Manager, id: Id): (r: RequestStatus) {
    if id !in m.requests then Unknown
    else
      match m.requests[id]
      case PendingMethodCall(_) => CallPending
      case PendingSubscription(_, _, _) => SubscriptionPending
      case Subscription(_, _, _) => SubscriptionActive
  }

  // ---------------------------------------------------------------- the index

  /**
   * The reverse index is exactly the inverse of the active subscriptions: every indexed id points to a
   * subscription entry, no two share one, and every subscription entry is indexed.
   */
  ghost predicate ExactIndex(m: Manager) {
    && (forall sid :: sid in m.subscriptions ==>
          m.subscriptions[sid] in m.requests && m.requests[m.subscriptions[sid]].Subscription?)
    && (forall a, b ::
        a in m.subscriptions && b in m.subscriptions && m.subscriptions[a] == m.subscriptions[b] ==> a == b)
    && (forall id :: id in m.requests && m.requests[id].Subscription? ==>
          exists sid :: sid in m.subscriptions && m.subscriptions[sid] == id)
  }

  /** Changing only entries that are not subscriptions keeps the index exact. */
  lemma IndexKept(m: Manager, m': Manager)
    requires ExactIndex(m) && m'.subscriptions == m.subscriptions
    requires forall id ::
             id in m.requests && m.requests[id].Subscription? ==> id in m'.requests && m'.requests[id] == m.requests[id]
    requires forall id ::
             id in m'.requests && m'.requests[id].Subscription?
             ==> id in m.requests && m.requests[id] == m'.requests[id]
    ensures ExactIndex(m')
  {
  }

  lemma IndexAfterInsert(m: Manager, sub: Id, unsub: Id, subId: SubscriptionId, sink: Sink, unsubMethod: string)
    requires ExactIndex(m)
    requires InsertSubscription(m, sub, unsub, subId, sink, unsubMethod).Some?
    ensures ExactIndex(InsertSubscription(m, sub, unsub, subId, sink, unsubMethod).value)
  {
    var m' := InsertSubscription(m, sub, unsub, subId, sink, unsubMethod).value;
    forall id | id in m'.requests && m'.requests[id].Subscription?
      ensures exists sid :: sid in m'.subscriptions && m'.subscriptions[sid] == id
    {
      if id == sub {
        assert m'.subscriptions[subId] == id;
      } else {
        var sid :| sid in m.subscriptions && m.subscriptions[sid] == id;
        assert m'.subscriptions[sid] == id;
      }
    }
  }

  /** Taking out a pair of ids keeps the index exact when the pair was looked up in the index. */
  lemma IndexAfterRemove(m: Manager, subId: SubscriptionId)
    requires ExactIndex(m) && subId in m.subscriptions
    ensures RemoveSubscription(m, m.subscriptions[subId], subId).Some?
    ensures ExactIndex(RemoveSubscription(m, m.subscriptions[subId], subId).value.0)
    ensures Unsubscribe(m, m.subscriptions[subId], subId).Some?
    ensures ExactIndex(Unsubscribe(m, m.subscriptions[subId], subId).value.0)
  {
    var sub := m.subscriptions[subId];
    var m1 := RemoveSubscription(m, sub, subId).value.0;
    var m2 := Unsubscribe(m, sub, subId).value.0;
    forall id | id in m1.requests && m1.requests[id].Subscription?
      ensures exists sid :: sid in m1.subscriptions && m1.subscriptions[sid] == id
    {
      var sid :| sid in m.subscriptions && m.subscriptions[sid] == id;
      assert m1.subscriptions[sid] == id;
    }
    forall id | id in m2.requests && m2.requests[id].Subscription?
      ensures exists sid :: sid in m2.subscriptions && m2.subscriptions[sid] == id
    {
      var sid :| sid in m.subscriptions && m.subscriptions[sid] == id;
      assert m2.subscriptions[sid] == id;
    }
  }

  /** The index entry of another subscription than the one taken out would dangle. */
  lemma OtherEntryDangles(m: Manager, m': Manager, id: Id, subId: SubscriptionId)
    requires ExactIndex(m) && subId in m.subscriptions && id in m.requests && m.requests[id].Subscription?
    requires m.subscriptions[subId] != id && m'.subscriptions == m.subscriptions - {subId}
    requires id !in m'.requests || !m'.requests[id].Subscription?
    ensures !ExactIndex(m')
  {
    var sid :| sid in m.subscriptions && m.subscriptions[sid] == id;
    assert sid in m'.subscriptions && m'.subscriptions[sid] == id;
  }

  /** A removal that succeeds keeps the index exact exactly if its two ids belong together; so does an unsubscribe. */
  lemma RemovalKeepsIndexExactly(m: Manager, id: Id, subId: SubscriptionId)
    requires ExactIndex(m) && RemoveSubscription(m, id, subId).Some?
    ensures ExactIndex(RemoveSubscription(m, id, subId).value.0) <==> m.subscriptions[subId] == id
    ensures Unsubscribe(m, id, subId).Some?
    ensures ExactIndex(Unsubscribe(m, id, subId).value.0) <==> m.subscriptions[subId] == id
  {
    if m.subscriptions[subId] == id {
      IndexAfterRemove(m, subId);
    } else {
      OtherEntryDangles(m, RemoveSubscription(m, id, subId).value.0, id, subId);
      OtherEntryDangles(m, Unsubscribe(m, id, subId).value.0, id, subId);
    }
  }

  /** There are such pairs: two subscriptions and the ids of one each. */
  lemma MismatchedRemovalBreaksIndex(a: Id, b: Id, x: SubscriptionId, y: SubscriptionId, u: Id)
    requires a != b && x != y
    ensures var m := Manager(map[a := Subscription(u, 0, ""), b := Subscription(u, 1, "")], map[x := a, y := b], map[],
            map[]);
            ExactIndex(m) && RemoveSubscription(m, a, y).Some? && !ExactIndex(RemoveSubscription(m, a, y).value.0)
  {
    var m := Manager(map[a := Subscription(u, 0, ""), b := Subscription(u, 1, "")], map[x := a, y := b], map[], map[]);
    assert m.subscriptions[x] == a && m.subscriptions[y] == b;
    var m' := RemoveSubscription(m, a, y).value.0;
    assert x in m'.subscriptions && m'.subscriptions[x] == a && a !in m'.requests;
  }

  // ---------------------------------------------------------------- the structure

  class RequestManager {
    var requests: map<Id, Kind>
    var subscriptions: map<SubscriptionId, Id>
    var batches: map<Range, Oneshot>
    var handlers: map<string, Sink>

    ghost function State(): (m: Manager)
      reads this
    {
      Manager(requests, subscriptions, batches, handlers)
    }

    constructor ()
      ensures State() == EMPTY
    {
      requests, subscriptions, batches, handlers := map[], map[], map[], map[];
    }

    method TryInsertPendingCall(id: Id, back: Option<Oneshot>) returns (ok: bool)
      modifies this
      ensures ok == InsertPendingCall(old(State()), id, back).Some?
      ensures State() == if ok then InsertPendingCall(old(State()), id, back).value else old(State())
    {
      if id in requests {
        return false;
      }
      requests := requests[id := PendingMethodCall(back)];
      return true;
    }

    method TryInsertPendingBatch(ids: Range, back: Oneshot) returns (ok: bool)
      modifies this
      ensures ok == InsertPendingBatch(old(State()), ids, back).Some?
      ensures State() == if ok then InsertPendingBatch(old(State()), ids, back).value else old(State())
    {
      if ids in batches {
        return false;
      }
      batches := batches[ids := back];
      return true;
    }

    method TryInsertPendingSubscription(sub: Id, unsub: Id, back: Oneshot, unsubMethod: string) returns (ok: bool)
      modifies this
      ensures ok == InsertPendingSubscription(old(State()), sub, unsub, back, unsubMethod).Some?
      ensures State() == if ok then InsertPendingSubscription(old(State()), sub, unsub, back, unsubMethod).value
              else old(State())
    {
      if sub !in requests && unsub !in requests && sub != unsub {
        requests := requests[sub := PendingSubscription(unsub, back, unsubMethod)];
        requests := requests[unsub := PendingMethodCall(None)];
        return true;
      }
      return false;
    }

    method TryInsertSubscription(sub: Id, unsub: Id, subId: SubscriptionId, sink: Sink, unsubMethod: string)
      returns (ok: bool)
      modifies this
      ensures ok == InsertSubscription(old(State()), sub, unsub, subId, sink, unsubMethod).Some?
      ensures State() == if ok then InsertSubscription(old(State()), sub, unsub, subId, sink, unsubMethod).value
              else old(State())
    {
      if sub !in requests && subId !in subscriptions {
        requests := requests[sub := Subscription(unsub, sink, unsubMethod)];
        subscriptions := subscriptions[subId := sub];
        return true;
      }
      return false;
    }

    method TryInsertNotificationHandler(method': string, sink: Sink) returns (ok: bool)
      modifies this
      ensures ok == InsertNotificationHandler(old(State()), method', sink).Some?
      ensures State() == if ok then InsertNotificationHandler(old(State()), method', sink).value else old(State())
    {
      if method' in handlers {
        return false;
      }
      handlers := handlers[method' := sink];
      return true;
    }

    method DropNotificationHandler(method': string)
      modifies this
      ensures State() == RemoveNotificationHandler(old(State()), method')
    {
      handlers := handlers - {method'};
    }

    method TakePendingCall(id: Id) returns (r: Option<Option<Oneshot>>)
      modifies this
      ensures match CompletePendingCall(old(State()), id)
              case Some((m, back)) => r == Some(back) && State() == m
              case None => r == None && State() == old(State())
    {
      if id in requests {
        match requests[id] {
          case PendingMethodCall(back) =>
            requests := requests - {id};
            return Some(back);
          case _ =>
        }
      }
      return None;
    }

    method TakePendingSubscription(id: Id) returns (r: Option<Kind>)
      modifies this
      ensures match CompletePendingSubscription(old(State()), id)
              case Some((m, kind)) => r == Some(kind) && State() == m
              case None => r == None && State() == old(State())
    {
      if id in requests && requests[id].PendingSubscription? {
        r := Some(requests[id]);
        requests := requests - {id};
      } else {
        r := None;
      }
    }

    method TakePendingBatch(ids: Range) returns (r: Option<Oneshot>)
      modifies this
      ensures match CompletePendingBatch(old(State()), ids)
              case Some((m, back)) => r == Some(back) && State() == m
              case None => r == None && State() == old(State())
    {
      if ids in batches {
        r := Some(batches[ids]);
        batches := batches - {ids};
      } else {
        r := None;
      }
    }

    method TakeSubscription(id: Id, subId: SubscriptionId) returns (r: Option<Kind>)
      modifies this
      ensures match RemoveSubscription(old(State()), id, subId)
              case Some((m, kind)) => r == Some(kind) && State() == m
              case None => r == None && State() == old(State())
    {
      if id in requests && subId in subscriptions && requests[id].Subscription? {
        r := Some(requests[id]);
        requests := requests - {id};
        subscriptions := subscriptions - {subId};
      } else {
        r := None;
      }
    }

    method StartUnsubscribe(id: Id, subId: SubscriptionId) returns (r: Option<Kind>)
      modifies this
      ensures match Unsubscribe(old(State()), id, subId)
              case Some((m, kind)) => r == Some(kind) && State() == m
              case None => r == None && State() == old(State())
    {
      if id in requests && subId in subscriptions && requests[id].Subscription? {
        r := Some(requests[id]);
        requests := requests[id := PendingMethodCall(None)];
        subscriptions := subscriptions - {subId};
      } else {
        r := None;
      }
    }

    method RequestIdOf(subId: SubscriptionId) returns (r: Option<Id>)
      ensures r == if subId in subscriptions then Some(subscriptions[subId]) else None
    {
      r := if subId in subscriptions then Some(subscriptions[subId]) else None;
    }
  }
}
