/**
 * What the async client's tasks do with the mutable request manager: the send task's handling of a
 * front-end message and the read task's handling of a message from the server. Every method is proved to
 * have the effect of the lock section it is, arrays element by element.
 */
module ClientTasks {
  import opened Wrappers
  import opened Ids
  import opened ClientMessages
  import opened BatchReplies
  import opened RequestManager
  import opened ClientSections

  // ---------------------------------------------------------------- arrays, on values

  /** An element of a received array, by the first parser that accepts it; sends into channels may fail. */
  datatype Element =
    | ReplyElement(rp: Response)
    | ItemElement(subId: SubscriptionId, sent: SendResult)
    | OtherElement(notification: Option<(string, SendResult)>)

  datatype ReadFailure = WrongId(e: InvalidRequestId) | Unparseable | EmptyArray | RangeOverflow | Panicked

  /** The read task's local variables while it goes through an array. */
  datatype ArrayState = ArrayState(batch: seq<Response>, range: Option<Range>, gotNotification: bool,
    messages: seq<FrontToBack>)

  const NEW_ARRAY := ArrayState([], None, false, [])

  datatype ReadStep = ReadStep(effect: Effect, next: ArrayState, failure: Option<ReadFailure>)

  function FailureOf(e: Effect): (f: Option<ReadFailure>) {
    match e.failure
    case None => None
    case Some(BadRequestId(id)) => Some(WrongId(id))
    case Some(ExpectFailed) => Some(Panicked)
  }

  /**
   * One element. An element that is neither a reply nor a subscription item is tried against the text of
   * the whole array as a subscription error before it is tried as a notification.
   */
  function ReadElement(m: Manager, st: ArrayState, element: Element,
                       wholeAsError: Option<SubscriptionId>): (r: ReadStep) {
    match element
    case ReplyElement(rp) =>
      (match TryParseInnerAsNumber(rp.id)
       case Err(e) => ReadStep(Quiet(m), st, Some(WrongId(e)))
       case Ok(n) => ReadStep(Quiet(m), st.(batch := st.batch + [rp], range := Some(Widen(st.range, n))), None))
    case ItemElement(subId, sent) =>
      var e := SubscriptionItemSection(m, subId, sent);
      var messages := if e.back.Some? then st.messages + [e.back.value] else st.messages;
      ReadStep(e, st.(gotNotification := true, messages := messages), None)
    case OtherElement(notification) =>
      match wholeAsError
      case Some(subId) =>
        var e := SubscriptionErrorSection(m, subId);
        ReadStep(e, st.(gotNotification := true), FailureOf(e))
      case None =>
        match notification
        case Some((name, sent)) =>
          ReadStep(MethodNotificationSection(m, name, sent), st.(gotNotification := true), None)
        case None => ReadStep(Quiet(m), st, Some(Unparseable))
  }

  /** After the last element: the replies, if there were any, belong to one batch. */
  function FinishArray(m: Manager, st: ArrayState): (r: ReadStep) {
    match st.range
    case None => ReadStep(Quiet(m), st, if st.gotNotification then None else Some(EmptyArray))
    case Some(range) =>
      match Exclusive(range)
      case None => ReadStep(Quiet(m), st, Some(RangeOverflow))
      case Some(ids) =>
        var e := ArrayReplySection(m, st.batch, ids);
        ReadStep(e, st, FailureOf(e))
  }

  /** The manager after the send side handled some messages. */
  function AfterFronts(m: Manager, msgs: seq<FrontToBack>): (m': Manager) {
    if msgs == [] then m else FrontSection(AfterFronts(m, msgs[..|msgs| - 1]), msgs[|msgs| - 1]).m
  }

  /**
   * The whole array as far as the first failure. The lock is taken for each element anew: `between` is what
   * the send side handles before each element and before the end.
   */
  function ReadArray(m: Manager, st: ArrayState, elements: seq<Element>, wholeAsError: Option<SubscriptionId>,
                     between: seq<seq<FrontToBack>>): (r: ReadStep)
    requires |between| == |elements| + 1
    decreases |elements|
  {
    var m1 := AfterFronts(m, between[0]);
    if elements == [] then FinishArray(m1, st)
    else
      var step := ReadElement(m1, st, elements[0], wholeAsError);
      if step.failure.Some? then step
        else ReadArray(step.effect.m, step.next, elements[1..], wholeAsError, between[1..])
  }

  /** The replies among the elements of an array. */
  function Replies(elements: seq<Element>): (r: seq<Response>) {
    if elements == [] then []
    else
      var front := Replies(elements[..|elements| - 1]);
      match elements[|elements| - 1]
      case ReplyElement(rp) => front + [rp]
      case _ => front
  }

  // ---------------------------------------------------------------- the send task

  method HandleFrontendMessage(mgr: RequestManager, msg: FrontToBack)
    returns (wire: Option<WireRequest>, delivered: seq<Delivery>)
    modifies mgr
    ensures mgr.State() == FrontSection(old(mgr.State()), msg).m
    ensures wire == FrontSection(old(mgr.State()), msg).wire
    ensures delivered == FrontSection(old(mgr.State()), msg).delivered
  {
    wire, delivered := None, [];
    match msg {
      case Batch(ids, back) =>
        var ok := mgr.TryInsertPendingBatch(ids, back);
        if !ok {
          return None, [Delivery(back, Occupied)];
        }
        wire := Some(WireBatch(ids));
      case Notification =>
        wire := Some(WireNotification);
      case Request(id, back, raw) =>
        var ok := mgr.TryInsertPendingCall(id, back);
        if !ok {
          if back.Some? {
            delivered := [Delivery(back.value, Occupied)];
          }
          return;
        }
        wire := Some(raw);
      case Subscribe(sub, unsub, unsubMethod, back) =>
        var ok := mgr.TryInsertPendingSubscription(sub, unsub, back, unsubMethod);
        if !ok {
          return None, [Delivery(back, Occupied)];
        }
        wire := Some(WireSubscribe(sub));
      case SubscriptionClosed(subId) =>
        var id := mgr.RequestIdOf(subId);
        if id.Some? {
          var unsub := BuildUnsubscribeMessage(mgr, id.value, subId);
          if unsub.Some? {
            wire := Some(unsub.value.raw);
          }
        }
      case RegisterNotification(name, sink) =>
        var _ := mgr.TryInsertNotificationHandler(name, sink);
      case UnregisterNotification(name) =>
        mgr.DropNotificationHandler(name);
    }
  }

  /** The unsubscribe request of an active subscription, which leaves the index by this. */
  method BuildUnsubscribeMessage(mgr: RequestManager, id: Id, subId: SubscriptionId) returns (r: Option<FrontToBack>)
    modifies mgr
    ensures match Unsubscribe(old(mgr.State()), id, subId)
            case Some((m, kind)) => mgr.State() == m
                                    && r == Some(Request(kind.unsubId, None, WireUnsubscribe(kind.unsubId, subId)))
            case None => mgr.State() == old(mgr.State()) && r == None
  {
    var taken := mgr.StartUnsubscribe(id, subId);
    match taken {
      case Some(kind) => r := Some(Request(kind.unsubId, None, WireUnsubscribe(kind.unsubId, subId)));
      case None => r := None;
    }
  }

  // ---------------------------------------------------------------- the read task

  method ProcessSingleResponse(mgr: RequestManager, rp: Response, gone: set<Oneshot>)
    returns (r: Result<Option<FrontToBack>, InvalidRequestId>, delivered: seq<Delivery>)
    modifies mgr
    ensures var e := SingleReplySection(old(mgr.State()), rp, gone);
            && mgr.State() == e.m && delivered == e.delivered
            && match e.failure
               case Some(BadRequestId(err)) => r == Err(err)
               case Some(ExpectFailed) => false
               case None => r == Ok(e.back)
  {
    hide ParseSubscriptionId;
    delivered := [];
    var known := rp.id in mgr.requests;
    if known && mgr.requests[rp.id].PendingMethodCall? {
      var taken := mgr.TakePendingCall(rp.id);
      if taken.value.Some? {
        delivered := [Delivery(taken.value.value, CallReply(rp))];
      }
      return Ok(None), delivered;
    }
    if known && mgr.requests[rp.id].PendingSubscription? {
      ghost var before := mgr.State();
      var taken := mgr.TakePendingSubscription(rp.id);
      assert mgr.State() == CompletePendingSubscription(before, rp.id).value.0;
      var pending := taken.value;
      if rp.payload.Failure? {
        return Ok(None), [Delivery(pending.subscribeBack, NotSubscribed(rp, CallFailed))];
      }
      var parsed := ParseSubscriptionId(rp.payload.json);
      if parsed.None? {
        return Ok(None), [Delivery(pending.subscribeBack, NotSubscribed(rp, ResultNotAnId))];
      }
      var ok := mgr.TryInsertSubscription(rp.id, pending.unsubscribeId, parsed.value, pending.subscribeBack,
        pending.unsubscribeMethod);
      if !ok {
        return Ok(None), [Delivery(pending.subscribeBack, NotSubscribed(rp, IdInUse))];
      }
      delivered := [Delivery(pending.subscribeBack, Subscribed(rp, parsed.value))];
      if pending.subscribeBack !in gone {
        return Ok(None), delivered;
      }
      var unsub := BuildUnsubscribeMessage(mgr, rp.id, parsed.value);
      return Ok(unsub), delivered;
    }
    return Err(NotPendingRequest(rp.id)), [];
  }

  method ProcessBatchResponse(mgr: RequestManager, rps: seq<Response>, ids: Range)
    returns (r: Result<(), InvalidRequestId>, delivered: seq<Delivery>)
    modifies mgr
    ensures var e := ArrayReplySection(old(mgr.State()), rps, ids);
            && mgr.State() == e.m && delivered == e.delivered
            && match e.failure
               case Some(BadRequestId(err)) => r == Err(err)
               case Some(ExpectFailed) => false
               case None => r == Ok(())
  {
    hide Placed;
    var taken := mgr.TakePendingBatch(ids);
    if taken.None? {
      return Err(NotPendingBatch(ids)), [];
    }
    var placed := PlaceReplies(rps, ids);
    match placed {
      case Err(e) => return Err(e), [];
      case Ok(slots) => return Ok(()), [Delivery(taken.value, BatchReply(slots))];
    }
  }

  /** The channel the item is sent into, and the subscription to close when that channel did not take it. */
  method ProcessSubscriptionResponse(mgr: RequestManager, subId: SubscriptionId, sent: SendResult)
    returns (r: Option<SubscriptionId>, offered: Option<Sink>)
    ensures var e := SubscriptionItemSection(mgr.State(), subId, sent);
            && mgr.State() == e.m && offered == e.offered
            && e.back == match r { case Some(s) => Some(SubscriptionClosed(s)) case None => None }
  {
    var id := mgr.RequestIdOf(subId);
    if id.Some? && id.value in mgr.requests && mgr.requests[id.value].Subscription? {
      offered := Some(mgr.requests[id.value].sink);
      return if sent != Sent then Some(subId) else None, offered;
    }
    return None, None;
  }

  /** The lookup comes first, so the removal cannot fail while the index is exact. */
  method ProcessSubscriptionClose(mgr: RequestManager, subId: SubscriptionId)
    requires ExactIndex(mgr.State())
    modifies mgr
    ensures ExactIndex(mgr.State())
    ensures SubscriptionErrorSection(old(mgr.State()), subId).failure == None
    ensures mgr.State() == SubscriptionErrorSection(old(mgr.State()), subId).m
  {
    var id := mgr.RequestIdOf(subId);
    if id.Some? {
      IndexAfterRemove(mgr.State(), subId);
      var taken := mgr.TakeSubscription(id.value, subId);
      assert taken.Some?;
    }
  }

  method ProcessNotification(mgr: RequestManager, name: string, sent: SendResult) returns (offered: Option<Sink>)
    modifies mgr
    ensures mgr.State() == MethodNotificationSection(old(mgr.State()), name, sent).m
    ensures offered == MethodNotificationSection(old(mgr.State()), name, sent).offered
  {
    offered := None;
    if name in mgr.handlers {
      offered := Some(mgr.handlers[name]);
      if sent != Sent {
        mgr.DropNotificationHandler(name);
      }
    }
  }

  /** What the send side does while the read side does not hold the lock. */
  method SendSide(mgr: RequestManager, msgs: seq<FrontToBack>)
    requires ExactIndex(mgr.State())
    modifies mgr
    ensures ExactIndex(mgr.State()) && mgr.State() == AfterFronts(old(mgr.State()), msgs)
  {
    hide ExactIndex, FrontSection;
    assert msgs[..0] == [];
    for i := 0 to |msgs|
      invariant ExactIndex(mgr.State()) && mgr.State() == AfterFronts(old(mgr.State()), msgs[..i])
    {
      assert msgs[..i + 1][..i] == msgs[..i];
      FrontKeepsIndex(mgr.State(), msgs[i]);
      var _, _ := HandleFrontendMessage(mgr, msgs[i]);
    }
    assert msgs[..|msgs|] == msgs;
  }

  /** The loop over a received array, with the send side at work between its elements. */
  method HandleArray(mgr: RequestManager, elements: seq<Element>, wholeAsError: Option<SubscriptionId>,
                     between: seq<seq<FrontToBack>>)
    returns (r: Result<seq<FrontToBack>, ReadFailure>, delivered: seq<Delivery>)
    requires ExactIndex(mgr.State()) && |between| == |elements| + 1
    modifies mgr
    ensures ExactIndex(mgr.State())
    ensures var step := ReadArray(old(mgr.State()), NEW_ARRAY, elements, wholeAsError, between);
            && mgr.State() == step.effect.m && delivered == step.effect.delivered
            && r == match step.failure { case Some(f) => Err(f) case None => Ok(step.next.messages) }
  {
    hide ExactIndex, ArrayReplySection, AfterFronts;
    var st := NEW_ARRAY;
    var i := 0;
    delivered := [];
    assert elements[0..] == elements && between[0..] == between;
    while i < |elements|
      invariant 0 <= i <= |elements|
      invariant ExactIndex(mgr.State())
      invariant ReadArray(old(mgr.State()), NEW_ARRAY, elements, wholeAsError, between)
             == ReadArray(mgr.State(), st, elements[i..], wholeAsError, between[i..])
    {
      SendSide(mgr, between[i]);
      ghost var step := ReadElement(mgr.State(), st, elements[i], wholeAsError);
      ElementKeepsIndex(mgr.State(), st, elements[i], wholeAsError);
      assert elements[i..][1..] == elements[i + 1..] && between[i..][1..] == between[i + 1..];
      match elements[i] {
        case ReplyElement(rp) =>
          match TryParseInnerAsNumber(rp.id) {
            case Err(e) => return Err(WrongId(e)), [];
            case Ok(n) =>
              var lo, hi := n, n;
              if st.range.Some? {
                lo, hi := st.range.value.start, st.range.value.end;
              }
              if n < lo {
                lo := n;
              }
              if n > hi {
                hi := n;
              }
              st := st.(batch := st.batch + [rp], range := Some(Range(lo, hi)));
          }
        case ItemElement(subId, sent) =>
          st := st.(gotNotification := true);
          var closed, _ := ProcessSubscriptionResponse(mgr, subId, sent);
          if closed.Some? {
            st := st.(messages := st.messages + [SubscriptionClosed(closed.value)]);
          }
        case OtherElement(notification) =>
          if wholeAsError.Some? {
            st := st.(gotNotification := true);
            ProcessSubscriptionClose(mgr, wholeAsError.value);
          } else if notification.Some? {
            st := st.(gotNotification := true);
            var _ := ProcessNotification(mgr, notification.value.0, notification.value.1);
          } else {
            return Err(Unparseable), [];
          }
      }
      assert step.failure == None && mgr.State() == step.effect.m && st == step.next;
      i := i + 1;
    }
    SendSide(mgr, between[i]);
    if st.range.Some? {
      if st.range.value.end == U64_MAX {
        return Err(RangeOverflow), [];
      }
      var ids := Range(st.range.value.start, st.range.value.end + 1);
      SectionKeepsIndex(mgr.State(), ArrayReply(st.batch, ids));
      var done;
      done, delivered := ProcessBatchResponse(mgr, st.batch, ids);
      if done.Err? {
        return Err(WrongId(done.error)), delivered;
      }
    } else if !st.gotNotification {
      return Err(EmptyArray), [];
    }
    return Ok(st.messages), delivered;
  }

  lemma ElementKeepsIndex(m: Manager, st: ArrayState, element: Element, wholeAsError: Option<SubscriptionId>)
    requires ExactIndex(m)
    ensures ExactIndex(ReadElement(m, st, element, wholeAsError).effect.m)
  {
    hide ExactIndex;
    match element
    case ReplyElement(_) =>
    case ItemElement(subId, sent) => SectionKeepsIndex(m, SubscriptionItem(subId, sent));
    case OtherElement(notification) =>
      if wholeAsError.Some? {
        SectionKeepsIndex(m, SubscriptionError(wholeAsError.value));
      } else if notification.Some? {
        SectionKeepsIndex(m, MethodNotification(notification.value.0, notification.value.1));
      }
  }

  // ---------------------------------------------------------------- what an array gives

  lemma {:induction false} RepliesCons(elements: seq<Element>)
    requires elements != []
    ensures Replies(elements) == (if elements[0].ReplyElement? then [elements[0].rp] else []) + Replies(elements[1..])
  {
    var front := elements[..|elements| - 1];
    if front == [] {
      assert elements[1..] == [];
      assert Replies(front) == [];
    } else {
      RepliesCons(front);
      assert front[1..] == elements[1..][..|elements| - 2];
      var last := elements[|elements| - 1];
      assert Replies(elements[1..]) == Replies(front[1..]) + if last.ReplyElement? then [last.rp] else [];
    }
  }

  /** An element the loop can read: a reply whose id is a number, an item, or something one of the parsers takes. */
  predicate Readable(element: Element, wholeAsError: Option<SubscriptionId>) {
    match element
    case ReplyElement(rp) => ReplyNumber(rp) >= 0
    case ItemElement(_, _) => true
    case OtherElement(notification) => wholeAsError.Some? || notification.Some?
  }

  predicate AllReadable(elements: seq<Element>, wholeAsError: Option<SubscriptionId>) {
    forall i :: 0 <= i < |elements| ==> Readable(elements[i], wholeAsError)
  }

  /** The pending batches of `m` are pending in `m'`. */
  ghost predicate BatchesStay(m: Manager, m': Manager) {
    forall ids :: ids in m.batches ==> ids in m'.batches && m'.batches[ids] == m.batches[ids]
  }

  lemma {:induction false} FrontsKeep(m: Manager, msgs: seq<FrontToBack>)
    requires ExactIndex(m)
    ensures ExactIndex(AfterFronts(m, msgs)) && BatchesStay(m, AfterFronts(m, msgs))
  {
    hide ExactIndex, FrontSection;
    if msgs != [] {
      var n := |msgs| - 1;
      FrontsKeep(m, msgs[..n]);
      FrontKeepsIndex(AfterFronts(m, msgs[..n]), msgs[n]);
      FrontKeepsBatches(AfterFronts(m, msgs[..n]), msgs[n]);
    }
  }

  lemma FrontKeepsBatches(m: Manager, msg: FrontToBack)
    ensures BatchesStay(m, FrontSection(m, msg).m)
  {
  }

  /** One element: it is read exactly if it is readable, and then a reply is collected and the range widened. */
  lemma ElementCollects(m: Manager, st: ArrayState, element: Element, wholeAsError: Option<SubscriptionId>)
    requires ExactIndex(m) && st.range == RunningRange(st.batch)
    ensures var step := ReadElement(m, st, element, wholeAsError);
            && (step.failure == None <==> Readable(element, wholeAsError))
            && step.failure != Some(Panicked)
            && (step.failure == None ==>
                  && step.next.batch == st.batch + (if element.ReplyElement? then [element.rp] else [])
                  && step.next.range == RunningRange(step.next.batch)
                  && BatchesStay(m, step.effect.m))
  {
    hide ExactIndex, TryParseInnerAsNumber;
    match element
    case ReplyElement(rp) =>
      var more := st.batch + [rp];
      assert more[..|more| - 1] == st.batch;
    case ItemElement(_, _) =>
    case OtherElement(_) =>
      if wholeAsError.Some? {
        SectionKeepsIndex(m, SubscriptionError(wholeAsError.value));
      }
  }

  /**
   * Whatever the send side does between the elements: if all elements are readable, all replies are collected
   * in order and the range is that of their numbers; otherwise reading fails.
   */
  lemma {:induction false} ArrayCollects(m: Manager, st: ArrayState, elements: seq<Element>,
                                         wholeAsError: Option<SubscriptionId>, between: seq<seq<FrontToBack>>)
    returns (m': Manager, st': ArrayState)
    requires ExactIndex(m) && st.range == RunningRange(st.batch) && |between| == |elements| + 1
    ensures ExactIndex(m') && BatchesStay(m, m')
    ensures AllReadable(elements, wholeAsError) ==>
              && ReadArray(m, st, elements, wholeAsError, between) == FinishArray(m', st')
              && st'.batch == st.batch + Replies(elements) && st'.range == RunningRange(st'.batch)
    ensures !AllReadable(elements, wholeAsError) ==> ReadArray(m, st, elements, wholeAsError, between).failure.Some?
    decreases |elements|
  {
    hide ExactIndex, ReadElement, FinishArray, RunningRange, Readable, AllReadable, ReadArray, Replies, AfterFronts;
    FrontsKeep(m, between[0]);
    ReadArrayStep(m, st, elements, wholeAsError, between);
    ReadableStep(elements, wholeAsError);
    var m1 := AfterFronts(m, between[0]);
    m', st' := m1, st;
    if elements == [] {
      assert st.batch + [] == st.batch;
    } else {
      var step := ReadElement(m1, st, elements[0], wholeAsError);
      ElementCollects(m1, st, elements[0], wholeAsError);
      ElementKeepsIndex(m1, st, elements[0], wholeAsError);
      if step.failure == None {
        m', st' := ArrayCollects(step.effect.m, step.next, elements[1..], wholeAsError, between[1..]);
        RepliesCons(elements);
      }
    }
  }

  lemma ReadArrayStep(m: Manager, st: ArrayState, elements: seq<Element>, wholeAsError: Option<SubscriptionId>,
                      between: seq<seq<FrontToBack>>)
    requires |between| == |elements| + 1
    ensures var m1 := AfterFronts(m, between[0]);
            ReadArray(m, st, elements, wholeAsError, between)
            == if elements == [] then FinishArray(m1, st)
               else
                 var step := ReadElement(m1, st, elements[0], wholeAsError);
                 if step.failure.Some? then step
                 else ReadArray(step.effect.m, step.next, elements[1..], wholeAsError, between[1..])
  {
    hide AfterFronts, FinishArray, ReadElement;
  }

  lemma ReadableStep(elements: seq<Element>, wholeAsError: Option<SubscriptionId>)
    ensures elements == [] ==> AllReadable(elements, wholeAsError) && Replies(elements) == []
    ensures elements != []
            ==> (AllReadable(elements, wholeAsError)
                 <==> Readable(elements[0], wholeAsError) && AllReadable(elements[1..], wholeAsError))
  {
    hide Readable;
    if elements != [] && Readable(elements[0], wholeAsError) && AllReadable(elements[1..], wholeAsError) {
      forall i | 0 <= i < |elements|
        ensures Readable(elements[i], wholeAsError)
      {
        assert i > 0 ==> elements[i] == elements[1..][i - 1];
      }
    }
  }

  /**
   * An array whose replies answer a pending batch in full, in any order, among whatever else it holds: its
   * caller, and nobody else, gets the replies in request order.
   */
  lemma FullReplyResolves(m: Manager, kind: IdKind, elements: seq<Element>, wholeAsError: Option<SubscriptionId>,
                          between: seq<seq<FrontToBack>>, ids: Range)
    requires ExactIndex(m) && |between| == |elements| + 1 && ids in m.batches && FullReply(kind, Replies(elements), ids)
    requires AllReadable(elements, wholeAsError)
    ensures var r := ReadArray(m, NEW_ARRAY, elements, wholeAsError, between);
            var rps := Replies(elements);
            && r.failure == None && ids !in r.effect.m.batches && Placed(rps, |rps|, ids).Ok?
            && r.effect.delivered == [Delivery(m.batches[ids], BatchReply(Placed(rps, |rps|, ids).value))]
            && forall p: nat :: p < ids.end - ids.start ==>
                 var rp := Placed(rps, |rps|, ids).value[p]; rp in rps && ReplyNumber(rp) == ids.start + p
  {
    var rps := Replies(elements);
    assert RunningRange([]) == None;
    hide ExactIndex, ReadArray, RunningRange, Readable, FullReply, Placed, ReplyNumber, Replies;
    var m', st := ArrayCollects(m, NEW_ARRAY, elements, wholeAsError, between);
    assert [] + rps == rps;
    RangeRecovered(kind, rps, ids);
    RepliesInRequestOrder(kind, rps, ids);
  }
}
