/**
 * What the async client promises over every run: any number of callers, any interleaving of its tasks,
 * any conforming server, as long as the 64-bit id counter has not wrapped.
 */
module ClientTheorems {
  import opened Wrappers
  import opened Ids
  import opened ClientMessages
  import opened BatchReplies
  import opened RequestManager
  import opened ClientSections
  import opened ClientTasks
  import opened ClientSystem
  import opened ClientInvariant
  import opened ClientProofs
  import opened ClientRuns
  import J = Json

  lemma InitInv(kind: IdKind)
    ensures Inv(Init(kind))
  {
  }

  /** One step of the invariant's proof: every step, by every task, keeps it. */
  lemma StepKeeps(s: Sys, step: Step)
    requires Inv(s) && Enabled(s, step) && Next(s, step).issued <= TWO_64
    ensures Inv(Next(s, step))
  {
    hide Inv, Absorb, TakeNext, ReadSingleNext, NextElementNext, EndArrayNext, Enqueue, Conforms, IdOf;
    hide GenerateBatchIdRange;
    match step
    case Draw => DrawKeeps(s);
    case IssueCall(n) => IssueCallKeeps(s, n);
    case IssueSubscribe(n, u, unsubMethod) => IssueSubscribeKeeps(s, n, u, unsubMethod);
    case IssueBatch(n, len) => IssueBatchKeeps(s, n, len);
    case Post(msg) => EnqueueKeeps(s, [msg]);
    case Leave(n) => LeaveKeeps(s, n);
    case Take(key) => TakeKeeps(s, key);
    case Flush => FlushKeeps(s);
    case Answer(k, reply) =>
      StageKeeps(s, k, Answered(reply), s.busy);
      assert Staged(s, k, Answered(reply), s.busy) == Next(s, step);
    case ReadSingle(k) => ReadSingleKeeps(s, k);
    case PushItem(subId, sent) => PushItemKeeps(s, subId, sent);
    case PushError(subId) => PushErrorKeeps(s, subId);
    case PushNotification(name, sent) => PushNotificationKeeps(s, name, sent);
    case BeginArray(k) => BeginArrayKeeps(s, k);
    case PushArray(elements, wholeAsError) => PushArrayKeeps(s, elements, wholeAsError);
    case NextElement => NextElementKeeps(s);
    case EndArray => EndArrayKeeps(s);
  }

  lemma FlushKeeps(s: Sys)
    requires Inv(s) && s.busy.Some? && s.busy.value in s.wire
    ensures Inv(s.(busy := None, wire := s.wire[s.busy.value := s.wire[s.busy.value].(stage := AtServer)]))
  {
    hide RegistryOk, NumbersOk, AllKnown, QueueOk, LogOk, ReadingOk, ExactIndex, Conforms;
    StageKeeps(s, s.busy.value, AtServer, None);
    assert s.(busy := None, wire := s.wire[s.busy.value := s.wire[s.busy.value].(stage := AtServer)])
        == Staged(s, s.busy.value, AtServer, None);
  }

  lemma BeginArrayKeeps(s: Sys, k: WireKey)
    requires Inv(s) && k.ByRange? && k in s.wire && s.wire[k].stage.Answered? && s.wire[k].stage.reply.ArrayAnswer?
    ensures Inv(s.(reading := InArray(Some(k.ids), s.wire[k].stage.reply.elements, s.wire[k].stage.reply.wholeAsError,
            NEW_ARRAY)))
  {
    hide RegistryOk, NumbersOk, AllKnown, QueueOk, LogOk, ExactIndex, FullReply, Replies;
    var elements := s.wire[k].stage.reply.elements;
    assert Conforms(s.kind, s.wire[k].req, s.wire[k].stage.reply);
    assert s.wire[k].req == WireBatch(k.ids);
    assert [] + Replies(elements) == Replies(elements);
    ReadingKeeps(s, InArray(Some(k.ids), elements, s.wire[k].stage.reply.wholeAsError, NEW_ARRAY));
  }

  lemma PushArrayKeeps(s: Sys, elements: seq<Element>, wholeAsError: Option<SubscriptionId>)
    requires Inv(s) && !HasReply(elements)
    ensures Inv(s.(reading := InArray(None, elements, wholeAsError, NEW_ARRAY)))
  {
    hide RegistryOk, NumbersOk, AllKnown, QueueOk, WireOk, LogOk, ExactIndex, Replies, HasReply;
    NoReplies(elements);
    ReadingKeeps(s, InArray(None, elements, wholeAsError, NEW_ARRAY));
  }

  lemma {:induction false} RunKeeps(kind: IdKind, steps: seq<Step>)
    requires After(kind, steps).Some? && After(kind, steps).value.issued <= TWO_64
    ensures Inv(After(kind, steps).value) && After(kind, steps).value.kind == kind
  {
    hide Inv, Next, Enabled;
    if steps == [] {
      InitInv(kind);
    } else {
      var front, last := steps[..|steps| - 1], steps[|steps| - 1];
      var s := After(kind, front).value;
      Monotone(s, last);
      RunKeeps(kind, front);
      StepKeeps(s, last);
      StepKind(s, last);
    }
  }

  // ---------------------------------------------------------------- the promises

  /** A state some run leads to, with the counter not wrapped. */
  ghost predicate Reachable(s: Sys) {
    exists kind, steps :: After(kind, steps) == Some(s) && s.issued <= TWO_64
  }

  lemma ReachableInv(s: Sys)
    requires Reachable(s)
    ensures Inv(s)
  {
    hide Inv;
    var kind, steps :| After(kind, steps) == Some(s) && s.issued <= TWO_64;
    RunKeeps(kind, steps);
  }

  /**
   * The read task never stops because of a reply id, an overflowing range or a failed expectation: only a
   * text that is no message, or an empty array, can stop it.
   */
  lemma NeverAnInvalidId(s: Sys)
    requires Reachable(s)
    ensures s.reading.Stopped? ==> s.reading.failure == Unparseable || s.reading.failure == EmptyArray
  {
    ReachableInv(s);
  }

  /** Every oneshot is used at most once, only with the reply to its own request, and never with a refusal. */
  lemma EachCallerOwnReply(s: Sys)
    requires Reachable(s)
    ensures forall n: nat :: Uses(s.log, n) <= 1
    ensures forall i ::
            0 <= i < |s.log| ==> OwnReply(s.kind, s.calls, s.answered, s.log[i]) && s.log[i].outcome != Occupied
  {
    hide AllKnown, QueueOk, WireOk, ReadingOk, ExactIndex, IdOf, Uses;
    ReachableInv(s);
    forall n: nat ensures Uses(s.log, n) <= 1 {
      if n in s.calls {
        NumberFrom(s, n);
        if s.calls[n].UnsubscribeOf? {
          NumberFrom(s, s.calls[n].sub);
        }
      } else {
        forall i | 0 <= i < |s.log| ensures s.log[i].to != n {
          assert OwnReply(s.kind, s.calls, s.answered, s.log[i]);
        }
        NoUse(s.log, n);
      }
    }
    forall i | 0 <= i < |s.log|
      ensures OwnReply(s.kind, s.calls, s.answered, s.log[i]) && s.log[i].outcome != Occupied {
    }
  }

  /** What a caller's operation is matched by on the transport. */
  function KeyOfCall(s: Sys, n: nat): (k: WireKey)
    requires n in s.calls && (s.calls[n].BatchCall? ==> Fits(n, s.calls[n].len))
  {
    if s.calls[n].BatchCall? then ByRange(Range(n, n + s.calls[n].len)) else ById(IdOf(s.kind, n))
  }

  /** The manager has an entry for the operation that its reply has not reached yet. */
  predicate IsPending(s: Sys, n: nat)
    requires n in s.calls && (s.calls[n].BatchCall? ==> Fits(n, s.calls[n].len))
  {
    var id := IdOf(s.kind, n);
    match s.calls[n]
    case SingleCall => id in s.m.requests
    case Subscribing(_, _) => id in s.m.requests && s.m.requests[id].PendingSubscription?
    case UnsubscribeOf(_) => false
    case BatchCall(len) => Range(n, n + len) in s.m.batches
  }

  /**
   * A caller, whether of a call, a subscription or a batch, is waiting for the send task, waiting for the
   * server with its request on the way, or answered: exactly one of these.
   */
  lemma EachCallerAccountedFor(s: Sys, n: nat)
    requires Reachable(s) && n in s.calls && !s.calls[n].UnsubscribeOf?
    ensures s.calls[n].BatchCall? ==> Fits(n, s.calls[n].len)
    ensures var waiting, pending, answered := Op(n) in s.queue, IsPending(s, n), Uses(s.log, n) == 1;
            && (waiting || pending || answered)
            && !(waiting && pending) && !(waiting && answered) && !(pending && answered)
            && (pending <==> KeyOfCall(s, n) in s.wire)
  {
    ReachableInv(s);
    assert NumbersOk(s);
    hide *;
    NumberFrom(s, n);
    PhaseOf(s, n);
  }

  lemma PhaseOf(s: Sys, n: nat)
    requires n in s.calls && !s.calls[n].UnsubscribeOf? && NumberOk(s, n)
    ensures s.calls[n].BatchCall? ==> Fits(n, s.calls[n].len)
    ensures var waiting, pending, answered := Op(n) in s.queue, IsPending(s, n), Uses(s.log, n) == 1;
            && (waiting || pending || answered)
            && !(waiting && pending) && !(waiting && answered) && !(pending && answered)
            && (pending <==> KeyOfCall(s, n) in s.wire)
  {
    hide IdOf, Uses;
  }

  /**
   * Whatever the order of arrival at the send task, no call, subscribe or batch of a caller is refused as
   * occupied, and what is sent for it was not sent before.
   */
  lemma NeverOccupied(s: Sys, n: nat)
    requires Reachable(s) && Op(n) in s.queue
    ensures var e := FrontSection(s.m, s.queue[Op(n)]);
            && e.delivered == []
            && e.wire.Some? && KeyOf(e.wire.value).Some? && KeyOf(e.wire.value).value !in s.sent
  {
    hide AllKnown, WireOk, LogOk, ReadingOk, ExactIndex, IdOf, Uses;
    ReachableInv(s);
    NumberFrom(s, n);
    match s.calls[n]
    case Subscribing(u, _) => IdsApart(s.kind, n, u);
    case _ =>
  }

  lemma SentBound(s: Sys, n: nat)
    requires RegistryOk(s) && NumbersOk(s) && n in s.calls
    ensures !s.calls[n].BatchCall? ==> FactsOf(s, n).sent <= 1
    ensures s.calls[n].BatchCall?
            ==> Fits(n, s.calls[n].len) && BatchFactsOf(s, n, Range(n, n + s.calls[n].len)).sent <= 1
  {
    hide IdOf, FactsOf, BatchFactsOf;
    NumberFrom(s, n);
    if s.calls[n].UnsubscribeOf? {
      NumberFrom(s, s.calls[n].sub);
    }
  }

  /** No request id and no batch range is ever sent twice; in particular at most one unsubscribe per subscription. */
  lemma NothingSentTwice(s: Sys, k: WireKey)
    requires Reachable(s)
    ensures s.sent[k] <= 1
  {
    hide QueueOk, WireOk, LogOk, ReadingOk, ExactIndex, IdOf, Uses, NumbersOk, RegistryOk;
    ReachableInv(s);
    if k in s.sent {
      assert KnownKey(s, k);
      SentBound(s, match k case ById(id) => TryParseInnerAsNumber(id).value case ByRange(ids) => ids.start);
    }
  }

  /** The unsubscribe request of an abandoned subscription meets its own reserved slot: it is refused in silence. */
  lemma AbandonedUnsubscribeRefused(s: Sys, key: QueueKey)
    requires Reachable(s) && key in s.queue && key.Internal? && s.queue[key].Request?
    ensures var e := FrontSection(s.m, s.queue[key]);
            e.wire == None && e.delivered == [] && e.m == s.m
  {
    hide AllKnown, WireOk, LogOk, ReadingOk, ExactIndex, IdOf, Uses, NumbersOk;
    ReachableInv(s);
    assert InternalOk(s, s.queue[key]);
  }

  /**
   * Exactly when an unsubscribe request goes out: when the send task takes a closing of a subscription
   * that is active at that moment. Leaving before the acknowledgement is not enough.
   */
  lemma UnsubscribeSentExactlyWhen(s: Sys, step: Step, u: nat)
    requires Reachable(s) && Enabled(s, step)
    requires u in s.calls && s.calls[u].UnsubscribeOf?
    ensures var k := ById(IdOf(s.kind, u));
            Next(s, step).sent[k] == s.sent[k] + 1 || Next(s, step).sent[k] == s.sent[k]
    ensures var k := ById(IdOf(s.kind, u));
            Next(s, step).sent[k] == s.sent[k] + 1
            <==> step.Take? && s.queue[step.key].SubscriptionClosed? && s.queue[step.key].subId in s.m.subscriptions
                 && s.m.subscriptions[s.queue[step.key].subId] == IdOf(s.kind, s.calls[u].sub)
  {
    hide AllKnown, WireOk, LogOk, ReadingOk, IdOf, NumberOk, TakeNext, ExactIndex;
    ReachableInv(s);
    Monotone(s, step);
    if step.Take? {
      TakeSends(s, step.key, u);
    }
  }

  lemma TakeSends(s: Sys, key: QueueKey, u: nat)
    requires Reachable(s) && Inv(s) && key in s.queue && u in s.calls && s.calls[u].UnsubscribeOf?
    ensures var k := ById(IdOf(s.kind, u));
            var closes := s.queue[key].SubscriptionClosed? && s.queue[key].subId in s.m.subscriptions
                          && s.m.subscriptions[s.queue[key].subId] == IdOf(s.kind, s.calls[u].sub);
            TakeNext(s, key).sent[k] == s.sent[k] + if closes then 1 else 0
  {
    hide AllKnown, WireOk, LogOk, ReadingOk, ExactIndex, IdOf, Uses, Inv, Reachable, FrontSection, Enqueue;
    var e := FrontSection(s.m, s.queue[key]);
    var s1 := s.(queue := s.queue - {key}, m := e.m, log := s.log + e.delivered);
    EnqueueRest(s1, if e.back.Some? then [e.back.value] else []);
    TakeWire(s, key, u);
  }

  /** Which key the send task writes next. */
  lemma TakeWire(s: Sys, key: QueueKey, u: nat)
    requires Reachable(s) && Inv(s) && key in s.queue && u in s.calls && s.calls[u].UnsubscribeOf?
    ensures var e := FrontSection(s.m, s.queue[key]);
            (e.wire.Some? && KeyOf(e.wire.value) == Some(ById(IdOf(s.kind, u))))
            <==> s.queue[key].SubscriptionClosed? && s.queue[key].subId in s.m.subscriptions
                 && s.m.subscriptions[s.queue[key].subId] == IdOf(s.kind, s.calls[u].sub)
  {
    hide AllKnown, WireOk, LogOk, ReadingOk, ExactIndex, IdOf, FactsOf, NumbersOk, Abandoned;
    match key
    case Op(n) =>
      NumberFrom(s, n);
      IdsApart(s.kind, n, u);
      SentFacts(s, key, s.m, IdOf(s.kind, n), WireNotification, n);
      OpMessage(s, n);
    case Internal(_) =>
      var msg := s.queue[key];
      assert InternalOk(s, msg);
      if msg.Request? {
        AbandonedUnsubscribeRefused(s, key);
      } else if msg.SubscriptionClosed? && msg.subId in s.m.subscriptions {
        var n := ActiveNumber(s, msg.subId);
        SentFacts(s, key, s.m, IdOf(s.kind, n), WireNotification, n);
        PairedSubscription(s, n, s.calls[n].unsub);
        if n != s.calls[u].sub {
          IdsApart(s.kind, n, s.calls[u].sub);
          IdsApart(s.kind, s.calls[n].unsub, u);
        }
      }
  }

  /** A caller's message in the queue is the one its operation made. */
  lemma OpMessage(s: Sys, n: nat)
    requires Inv(s) && Op(n) in s.queue && n in s.calls && !s.calls[n].UnsubscribeOf?
    ensures match s.calls[n]
            case SingleCall => s.queue[Op(n)] == CallMessage(s.kind, n)
            case Subscribing(u, unsubMethod) => s.queue[Op(n)] == SubscribeMessage(s.kind, n, u, unsubMethod)
            case BatchCall(len) => Fits(n, len) && s.queue[Op(n)] == Batch(Range(n, n + len), n)
            case _ => true
  {
    hide AllKnown, QueueOk, WireOk, LogOk, ReadingOk, ExactIndex, IdOf, Uses;
    NumberFrom(s, n);
  }

  /**
   * In every reachable state an item is offered exactly if its subscription is active, and then to the channel
   * of a caller that was told that subscription's id, by the reply to its own request.
   */
  lemma ItemsReachTheirSubscriber(s: Sys, subId: SubscriptionId, sent: SendResult)
    requires Reachable(s)
    ensures var e := SubscriptionItemSection(s.m, subId, sent);
            && (e.offered.Some? <==> subId in s.m.subscriptions)
            && (e.offered.Some? ==> exists i :: 0 <= i < |s.log| && IsGrant(s, s.log[i], e.offered.value, subId))
  {
    IndexExact(s);
    var kind, steps :| After(kind, steps) == Some(s) && s.issued <= TWO_64;
    SinksAlwaysTold(kind, steps);
    ReachableInv(s);
    if subId in s.m.subscriptions {
      assert SinkWasTold(s.m, s.log, subId);
    }
    hide *;
    OfferedTo(s, subId, sent);
  }

  lemma OfferedTo(s: Sys, subId: SubscriptionId, sent: SendResult)
    requires ExactIndex(s.m) && (subId in s.m.subscriptions ==> SinkWasTold(s.m, s.log, subId)) && LogOk(s)
    ensures var e := SubscriptionItemSection(s.m, subId, sent);
            && (e.offered.Some? <==> subId in s.m.subscriptions)
            && (e.offered.Some? ==> exists i :: 0 <= i < |s.log| && IsGrant(s, s.log[i], e.offered.value, subId))
  {
    hide Answers, AnswersBatch, Grants, IdOf, Fits;
    if subId in s.m.subscriptions {
      var n := s.m.requests[s.m.subscriptions[subId]].sink;
      assert WasTold(s.log, n, subId);
      var i :| 0 <= i < |s.log| && s.log[i].to == n && s.log[i].outcome.Subscribed? && s.log[i].outcome.subId == subId;
      assert OwnReply(s.kind, s.calls, s.answered, s.log[i]);
      assert IsGrant(s, s.log[i], n, subId);
    }
  }

  /** A caller was told the id of its subscription, which is the result in the answer to its own request. */
  predicate IsGrant(s: Sys, d: Delivery, n: Oneshot, subId: SubscriptionId) {
    && d.to == n && d.outcome.Subscribed? && d.outcome.subId == subId
    && n in s.calls && s.calls[n].Subscribing?
    && Answers(s.answered, ById(IdOf(s.kind, n)), d.outcome.rp) && Grants(d.outcome.rp, subId)
  }

  // ---------------------------------------------------------------- a subscription nobody will unsubscribe

  /** A subscription whose caller was answered, that is not active, and whose unsubscribe was not sent. */
  predicate LeftUntold(s: Sys, n: nat, u: nat) {
    && n in s.calls && s.calls[n].Subscribing? && s.calls[n].unsub == u && Uses(s.log, n) == 1
    && s.sent[ById(IdOf(s.kind, u))] == 0
    && var id := IdOf(s.kind, n); id in s.m.requests ==> !s.m.requests[id].Subscription?
  }

  lemma UnsentStays(s: Sys, step: Step, n: nat, u: nat)
    requires Reachable(s) && Enabled(s, step) && LeftUntold(s, n, u)
    ensures Next(s, step).sent[ById(IdOf(s.kind, u))] == 0
  {
    ReachableInv(s);
    assert u in s.calls && s.calls[u] == UnsubscribeOf(n);
    hide Inv, Next, Enabled, IdOf, Reachable, Uses;
    UnsubscribeSentExactlyWhen(s, step, u);
    IndexExact(s);
  }

  lemma UsedStays(s: Sys, s': Sys, n: nat)
    requires Reachable(s') && s.log <= s'.log && Uses(s.log, n) == 1
    ensures Uses(s'.log, n) == 1
  {
    hide Reachable, Uses;
    var more := s'.log[|s.log|..];
    assert s'.log == s.log + more;
    UsesAdd(s.log, more, n);
    EachCallerOwnReply(s');
  }

  lemma StepKeepsUntold(s: Sys, step: Step, n: nat, u: nat)
    requires Reachable(s) && Enabled(s, step) && Reachable(Next(s, step)) && LeftUntold(s, n, u)
    ensures LeftUntold(Next(s, step), n, u)
  {
    ReachableInv(s);
    UnsentStays(s, step, n, u);
    StepKeepsCall(s, step, n);
    StepKind(s, step);
    StepIsSection(s, step);
    EffectMakesNone(s.m, SectionOf(s, step), IdOf(s.kind, n));
    hide Inv, Next, Enabled, IdOf, Reachable, Uses;
    UsedStays(s, Next(s, step), n);
    EachCallerAccountedFor(s, n);
  }

  /**
   * A subscription that was abandoned stays so: in every continuation of the run, as long as the counter does
   * not wrap, the server is not asked to end it.
   */
  lemma {:induction false} AbandonedForever(kind: IdKind, before: seq<Step>, after: seq<Step>, n: nat, u: nat)
    requires After(kind, before).Some? && After(kind, before + after).Some?
    requires After(kind, before + after).value.issued <= TWO_64
    requires var s := After(kind, before).value;
             n in s.calls && s.calls[n].Subscribing? && s.calls[n].unsub == u && Abandoned(FactsOf(s, n), FactsOf(s, u))
    ensures LeftUntold(After(kind, before + after).value, n, u)
    ensures After(kind, before + after).value.sent[ById(IdOf(kind, u))] == 0
    decreases |after|
  {
    if after == [] {
      assert before + after == before;
    } else {
      var m := |after| - 1;
      var front := before + after[..m];
      assert (before + after)[..|before + after| - 1] == front;
      var s := After(kind, front).value;
      hide Next, Enabled, FactsOf, Abandoned, IdOf;
      Monotone(s, after[m]);
      AbandonedForever(kind, before, after[..m], n, u);
      assert After(kind, front) == Some(s) && After(kind, before + after) == Some(Next(s, after[m]));
      assert Reachable(s) && Reachable(Next(s, after[m]));
      StepKeepsUntold(s, after[m], n, u);
    }
    RunKeeps(kind, before + after);
  }

  /** In every reachable state the reverse index is exactly the inverse of the active subscriptions. */
  lemma IndexExact(s: Sys)
    requires Reachable(s)
    ensures ExactIndex(s.m)
  {
    hide ExactIndex;
    ReachableInv(s);
  }

  // ---------------------------------------------------------------- a caller that leaves too early

  lemma AfterOne(kind: IdKind, steps: seq<Step>, s: Sys, step: Step)
    requires After(kind, steps) == Some(s) && Enabled(s, step)
    ensures After(kind, steps + [step]) == Some(Next(s, step))
  {
    hide Enabled, Next;
    assert (steps + [step])[..|steps|] == steps;
  }

  lemma OneIsAnId()
    ensures ParseSubscriptionId("1") == Some(Num(1))
  {
    J.DocumentRoundTrip(J.JInt(1));
    assert J.Print(J.JInt(1)) == "1";
  }

  // The states of the run, in order.
  const LEFT_REPLY := Response(Number(0), Success("1"))
  const LEFT_0 := Init(NumberIds)
  const LEFT_1 := LEFT_0.(issued := 1, drawn := {0})
  const LEFT_2 := LEFT_0.(issued := 2, drawn := {0, 1})
  const LEFT_3 := LEFT_2.(drawn := {}, calls := map[0 := Subscribing(1, ""), 1 := UnsubscribeOf(0)],
                          queue := map[Op(0) := Subscribe(Number(0), Number(1), "", 0)])
  const LEFT_4 := LEFT_3.(queue := map[],
                          m := EMPTY.(requests := map[Number(0) := PendingSubscription(Number(1), 0, ""),
                            Number(1) := PendingMethodCall(None)]),
                          wire := map[ById(Number(0)) := Flight(WireSubscribe(Number(0)), Unsent)],
                          busy := Some(ById(Number(0))), sent := multiset{ById(Number(0))})
  const LEFT_5 := LEFT_4.(busy := None, wire := map[ById(Number(0)) := Flight(WireSubscribe(Number(0)), AtServer)])
  const LEFT_FLIGHT := Flight(WireSubscribe(Number(0)), Answered(SingleAnswer(LEFT_REPLY)))
  const LEFT_6 := LEFT_5.(wire := map[ById(Number(0)) := LEFT_FLIGHT],
                          answered := map[ById(Number(0)) := SingleAnswer(LEFT_REPLY)])
  const LEFT_7 := LEFT_6.(gone := {0})
  const LEFT_8 := LEFT_7.(wire := map[],
                          m := EMPTY.(requests := map[Number(0) := PendingMethodCall(None),
                            Number(1) := PendingMethodCall(None)]),
                          log := [Delivery(0, Subscribed(LEFT_REPLY, Num(1)))],
                          queue := map[Internal(0) := Request(Number(1), None, WireUnsubscribe(Number(1), Num(1)))],
                          nextInternal := 1)
  const LEFT_9 := LEFT_8.(queue := map[])

  ghost predicate Leads(s: Sys, step: Step, s': Sys) {
    Enabled(s, step) && Next(s, step) == s'
  }

  lemma LeftIssued()
    ensures Leads(LEFT_0, Draw, LEFT_1) && Leads(LEFT_1, Draw, LEFT_2)
    ensures Leads(LEFT_2, IssueSubscribe(0, 1, ""), LEFT_3)
  {
    assert LEFT_2.calls[0 := Subscribing(1, "")][1 := UnsubscribeOf(0)] == LEFT_3.calls;
  }

  lemma LeftSection()
    ensures FrontSection(LEFT_3.m, LEFT_3.queue[Op(0)])
            == Effect(LEFT_4.m, [], [], Some(WireSubscribe(Number(0))), None, None, None)
  {
    assert LEFT_4.m.requests
           == (map[])[Number(0) := PendingSubscription(Number(1), 0, "")][Number(1) := PendingMethodCall(None)];
  }

  lemma LeftSent()
    ensures Leads(LEFT_3, Take(Op(0)), LEFT_4)
  {
    LeftSection();
    hide FrontSection;
    assert LEFT_3.queue - {Op(0)} == map[];
  }

  lemma LeftFlushed()
    ensures Leads(LEFT_4, Flush, LEFT_5)
  {
  }

  lemma LeftAnswered()
    ensures Leads(LEFT_5, Answer(ById(Number(0)), SingleAnswer(LEFT_REPLY)), LEFT_6)
  {
  }

  lemma LeftLeft()
    ensures Leads(LEFT_6, Leave(0), LEFT_7)
  {
  }

  const LEFT_BACK := Request(Number(1), None, WireUnsubscribe(Number(1), Num(1)))

  lemma LeftReplySection()
    ensures SingleReplySection(LEFT_7.m, LEFT_REPLY, {0})
            == Effect(LEFT_8.m, LEFT_8.log, [Activated(Number(0)), Unsubscribed(Number(0))], None, Some(LEFT_BACK),
              None, None)
  {
    OneIsAnId();
    hide ParseSubscriptionId;
    var pending := PendingSubscription(Number(1), 0, "");
    var m := EMPTY.(requests := map[Number(1) := PendingMethodCall(None)]);
    assert CompletePendingSubscription(LEFT_7.m, Number(0)) == Some((m, pending)) by {
      assert LEFT_7.m.requests - {Number(0)} == m.requests;
    }
    LeftSubscribeReply(m, pending);
  }

  lemma LeftSubscribeReply(m: Manager, pending: Kind)
    requires m == EMPTY.(requests := map[Number(1) := PendingMethodCall(None)])
    requires pending == PendingSubscription(Number(1), 0, "")
    ensures SubscribeReply(m, LEFT_REPLY, pending, {0})
            == Effect(LEFT_8.m, LEFT_8.log, [Activated(Number(0)), Unsubscribed(Number(0))], None, Some(LEFT_BACK),
              None, None)
  {
    OneIsAnId();
    hide ParseSubscriptionId;
    var m' := InsertSubscription(m, Number(0), Number(1), Num(1), 0, "").value;
    assert m'.requests[Number(0) := PendingMethodCall(None)] == LEFT_8.m.requests;
    assert m'.subscriptions - {Num(1)} == map[];
  }

  lemma LeftRead()
    ensures Leads(LEFT_7, ReadSingle(ById(Number(0))), LEFT_8)
  {
    LeftReplySection();
    hide SingleReplySection;
    EnqueueOneIs(LEFT_7.(wire := map[], m := LEFT_8.m, log := [] + LEFT_8.log), LEFT_BACK);
    assert LEFT_7.wire - {ById(Number(0))} == map[];
    assert [] + LEFT_8.log == LEFT_8.log;
  }

  lemma LeftTaken()
    ensures Leads(LEFT_8, Take(Internal(0)), LEFT_9)
  {
    assert LEFT_8.queue - {Internal(0)} == map[];
    assert LEFT_8.log + [] == LEFT_8.log;
  }

  lemma AfterTwo(steps: seq<Step>, a: Sys, first: Step, b: Sys, second: Step, c: Sys)
    requires After(NumberIds, steps) == Some(a) && Leads(a, first, b) && Leads(b, second, c)
    ensures After(NumberIds, steps + [first, second]) == Some(c)
  {
    hide Enabled, Next, After;
    AfterOne(NumberIds, steps, a, first);
    AfterOne(NumberIds, steps + [first], b, second);
    assert steps + [first] + [second] == steps + [first, second];
  }

  /**
   * A subscription that was acknowledged after its caller had left: the server was never told, and nothing
   * is left that would tell it.
   */
  lemma LeftBeforeAcknowledged() returns (steps: seq<Step>)
    ensures After(NumberIds, steps).Some?
    ensures var s := After(NumberIds, steps).value;
            && s.log == [Delivery(0, Subscribed(Response(Number(0), Success("1")), Num(1)))] && 0 in s.gone
            && s.queue == map[] && s.busy == None && s.m.subscriptions == map[]
            && ById(Number(1)) !in s.sent && ById(Number(1)) !in s.wire
  {
    hide Leads;
    LeftIssued();
    LeftSent();
    LeftFlushed();
    LeftAnswered();
    LeftLeft();
    LeftRead();
    LeftTaken();
    steps := [];
    AfterTwo(steps, LEFT_0, Draw, LEFT_1, Draw, LEFT_2);
    steps := steps + [Draw, Draw];
    AfterTwo(steps, LEFT_2, IssueSubscribe(0, 1, ""), LEFT_3, Take(Op(0)), LEFT_4);
    steps := steps + [IssueSubscribe(0, 1, ""), Take(Op(0))];
    AfterTwo(steps, LEFT_4, Flush, LEFT_5, Answer(ById(Number(0)), SingleAnswer(LEFT_REPLY)), LEFT_6);
    steps := steps + [Flush, Answer(ById(Number(0)), SingleAnswer(LEFT_REPLY))];
    AfterTwo(steps, LEFT_6, Leave(0), LEFT_7, ReadSingle(ById(Number(0))), LEFT_8);
    steps := steps + [Leave(0), ReadSingle(ById(Number(0)))];
    assert Enabled(LEFT_8, Take(Internal(0)))
           && Next(LEFT_8, Take(Internal(0))) == LEFT_9 by { LeadsMeans(LEFT_8, Take(Internal(0)), LEFT_9); }
    AfterOne(NumberIds, steps, LEFT_8, Take(Internal(0)));
    steps := steps + [Take(Internal(0))];
  }

  lemma LeadsMeans(s: Sys, step: Step, s': Sys)
    requires Leads(s, step, s')
    ensures Enabled(s, step) && Next(s, step) == s'
  {
  }
}
