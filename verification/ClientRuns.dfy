/**
 * The steps of the async client as sections: what a step does to the manager and to the callers is what one
 * section does, or nothing, so what holds of every sequence of sections holds of every run.
 */
module ClientRuns {
  import opened Wrappers
  import opened Ids
  import opened ClientMessages
  import opened BatchReplies
  import opened RequestManager
  import opened ClientSections
  import opened ClientTasks
  import opened ClientSystem
  import opened ClientInvariant

  /** Queueing messages changes the queue and nothing else. */
  lemma {:induction false} EnqueueRest(s: Sys, msgs: seq<FrontToBack>)
    ensures Enqueue(s, msgs) == s.(queue := Enqueue(s, msgs).queue, nextInternal := Enqueue(s, msgs).nextInternal)
    decreases |msgs|
  {
    if msgs != [] {
      EnqueueRest(s.(queue := s.queue[Internal(s.nextInternal) := msgs[0]], nextInternal := s.nextInternal + 1),
        msgs[1..]);
    }
  }

  /** The counter only grows, and only the send task writes requests. */
  lemma Monotone(s: Sys, step: Step)
    requires Enabled(s, step)
    ensures s.issued <= Next(s, step).issued
    ensures !step.Take? ==> Next(s, step).sent == s.sent
  {
    hide Enqueue, FrontSection, SingleReplySection, ReadElement, FinishArray, IdOf, GenerateBatchIdRange, Conforms;
    hide SubscriptionItemSection, SubscriptionErrorSection, MethodNotificationSection;
    forall a: Sys, msgs ensures Enqueue(a, msgs).issued == a.issued && Enqueue(a, msgs).sent == a.sent {
      EnqueueRest(a, msgs);
    }
  }

  lemma StepKind(s: Sys, step: Step)
    requires Enabled(s, step)
    ensures Next(s, step).kind == s.kind
  {
    hide Enqueue, FrontSection, SingleReplySection, ReadElement, FinishArray, IdOf, GenerateBatchIdRange, Conforms;
    hide SubscriptionItemSection, SubscriptionErrorSection, MethodNotificationSection;
    forall a: Sys, msgs ensures Enqueue(a, msgs).kind == a.kind {
      EnqueueRest(a, msgs);
    }
  }

  lemma StepKeepsCall(s: Sys, step: Step, n: nat)
    requires RegistryOk(s) && Enabled(s, step) && n in s.calls
    ensures n in Next(s, step).calls && Next(s, step).calls[n] == s.calls[n]
  {
    hide Enqueue, FrontSection, SingleReplySection, ReadElement, FinishArray, IdOf, GenerateBatchIdRange, Conforms;
    hide SubscriptionItemSection, SubscriptionErrorSection, MethodNotificationSection;
    forall a: Sys, msgs ensures Enqueue(a, msgs).calls == a.calls {
      EnqueueRest(a, msgs);
    }
  }

  // ---------------------------------------------------------------- the section of a step

  function SectionOfElement(element: Element, wholeAsError: Option<SubscriptionId>): (r: Option<Section>) {
    match element
    case ReplyElement(_) => None
    case ItemElement(subId, sent) => Some(SubscriptionItem(subId, sent))
    case OtherElement(notification) =>
      match wholeAsError
      case Some(subId) => Some(SubscriptionError(subId))
      case None =>
        match notification
        case Some((name, sent)) => Some(MethodNotification(name, sent))
        case None => None
  }

  function SectionAtEnd(st: ArrayState): (r: Option<Section>) {
    match st.range
    case None => None
    case Some(range) =>
      match Exclusive(range)
      case None => None
      case Some(ids) => Some(ArrayReply(st.batch, ids))
  }

  /** The section a step runs, if it runs one. */
  ghost function SectionOf(s: Sys, step: Step): (r: Option<Section>)
    requires Enabled(s, step)
  {
    match step
    case Take(key) => Some(Front(s.queue[key]))
    case ReadSingle(k) => Some(SingleReply(s.wire[k].stage.reply.rp, s.gone))
    case PushItem(subId, sent) => Some(SubscriptionItem(subId, sent))
    case PushError(subId) => Some(SubscriptionError(subId))
    case PushNotification(name, sent) => Some(MethodNotification(name, sent))
    case NextElement => SectionOfElement(s.reading.rest[0], s.reading.wholeAsError)
    case EndArray => SectionAtEnd(s.reading.st)
    case _ => None
  }

  function EffectOf(m: Manager, section: Option<Section>): (e: Effect) {
    match section
    case Some(section) => RunSection(m, section)
    case None => Quiet(m)
  }

  /** A step changes the manager as its section does, and uses the oneshots its section uses. */
  ghost predicate IsSection(s: Sys, step: Step)
    requires Enabled(s, step)
  {
    var e := EffectOf(s.m, SectionOf(s, step));
    Next(s, step).m == e.m && Next(s, step).log == s.log + e.delivered
  }

  lemma SingleIsSection(s: Sys, step: Step)
    requires Enabled(s, step) && (step.Take? || step.ReadSingle?)
    ensures IsSection(s, step)
  {
    hide Enqueue, FrontSection, SingleReplySection;
    forall a: Sys, msgs ensures Enqueue(a, msgs).m == a.m && Enqueue(a, msgs).log == a.log {
      EnqueueRest(a, msgs);
    }
  }

  lemma PushIsSection(s: Sys, step: Step)
    requires Enabled(s, step) && (step.PushItem? || step.PushError? || step.PushNotification?)
    ensures IsSection(s, step)
  {
    hide Enqueue, SubscriptionItemSection, SubscriptionErrorSection, MethodNotificationSection;
    forall a: Sys, msgs ensures Enqueue(a, msgs).m == a.m && Enqueue(a, msgs).log == a.log {
      EnqueueRest(a, msgs);
    }
  }

  lemma ElementIsSection(m: Manager, st: ArrayState, element: Element, wholeAsError: Option<SubscriptionId>)
    ensures ReadElement(m, st, element, wholeAsError).effect == EffectOf(m, SectionOfElement(element, wholeAsError))
    ensures FinishArray(m, st).effect == EffectOf(m, SectionAtEnd(st))
  {
    hide ArrayReplySection, SubscriptionItemSection, SubscriptionErrorSection, MethodNotificationSection, Widen;
  }

  lemma ArrayIsSection(s: Sys, step: Step)
    requires Enabled(s, step) && (step.NextElement? || step.EndArray?)
    ensures IsSection(s, step)
  {
    hide Enqueue, ReadElement, FinishArray, SectionOfElement, SectionAtEnd, EffectOf;
    forall a: Sys, msgs ensures Enqueue(a, msgs).m == a.m && Enqueue(a, msgs).log == a.log {
      EnqueueRest(a, msgs);
    }
    if step.NextElement? {
      ElementIsSection(s.m, s.reading.st, s.reading.rest[0], s.reading.wholeAsError);
    } else {
      ElementIsSection(s.m, s.reading.st, OtherElement(None), None);
    }
  }

  /** Steps that run no section. */
  predicate Sectionless(step: Step) {
    && !step.Take? && !step.ReadSingle? && !step.PushItem? && !step.PushError? && !step.PushNotification?
    && !step.NextElement? && !step.EndArray?
  }

  lemma SectionlessIsSection(s: Sys, step: Step)
    requires Enabled(s, step) && Sectionless(step)
    ensures IsSection(s, step)
  {
    hide Enqueue, IdOf, GenerateBatchIdRange, Conforms;
    assert s.log + [] == s.log;
    if step.Post? {
      EnqueueRest(s, [step.msg]);
    }
  }

  lemma StepIsSection(s: Sys, step: Step)
    requires Enabled(s, step)
    ensures IsSection(s, step)
  {
    hide IsSection, Enabled;
    if step.Take? || step.ReadSingle? {
      SingleIsSection(s, step);
    } else if step.PushItem? || step.PushError? || step.PushNotification? {
      PushIsSection(s, step);
    } else if step.NextElement? || step.EndArray? {
      ArrayIsSection(s, step);
    } else {
      SectionlessIsSection(s, step);
    }
  }

  // ---------------------------------------------------------------- a run as a list of sections

  /** The sections of a run, in order. */
  ghost function SectionsOf(kind: IdKind, steps: seq<Step>): (r: seq<Section>) {
    if steps == [] then []
    else
      var last := steps[|steps| - 1];
      var before := SectionsOf(kind, steps[..|steps| - 1]);
      match After(kind, steps[..|steps| - 1])
      case None => before
      case Some(s) =>
        if Enabled(s, last) && SectionOf(s, last).Some? then before + [SectionOf(s, last).value] else before
  }

  /** The manager of a run is the one its sections make. */
  lemma {:induction false} RunIsSections(kind: IdKind, steps: seq<Step>)
    requires After(kind, steps).Some?
    ensures RunAll(SectionsOf(kind, steps)).m == After(kind, steps).value.m
  {
    hide Enabled, Next, RunSection;
    if steps != [] {
      var n := |steps| - 1;
      var s, before := After(kind, steps[..n]).value, SectionsOf(kind, steps[..n]);
      RunIsSections(kind, steps[..n]);
      StepIsSection(s, steps[n]);
      if SectionOf(s, steps[n]).Some? {
        assert (before + [SectionOf(s, steps[n]).value])[..|before|] == before;
      }
    }
  }

  /**
   * In every run, however its steps interleave and whatever the counter does: subscriptions ever activated =
   * active + unsubscribed + closed by the server, and the reverse index is exact.
   */
  lemma SubscriptionsConserved(kind: IdKind, steps: seq<Step>)
    requires After(kind, steps).Some?
    ensures var t := TallyOf(RunAll(SectionsOf(kind, steps)).events);
            t.activated == |After(kind, steps).value.m.subscriptions| + t.unsubscribed + t.closed
    ensures ExactIndex(After(kind, steps).value.m)
  {
    hide *;
    RunIsSections(kind, steps);
    EveryRun(SectionsOf(kind, steps));
  }

  // ---------------------------------------------------------------- what sections do to subscriptions

  /** A subscription at `id` in `m'` was pending or active in `m`. */
  predicate NoneNew(m: Manager, m': Manager, id: Id) {
    id in m'.requests && m'.requests[id].Subscription?
    ==> id in m.requests && (m.requests[id].Subscription? || m.requests[id].PendingSubscription?)
  }

  lemma FrontMakesNone(m: Manager, msg: FrontToBack, id: Id)
    ensures NoneNew(m, FrontSection(m, msg).m, id)
  {
  }

  lemma ReplyMakesNone(m: Manager, rp: Response, gone: set<Oneshot>, id: Id)
    ensures NoneNew(m, SingleReplySection(m, rp, gone).m, id)
  {
    hide ParseSubscriptionId;
  }

  /** Only a subscription that was pending becomes active. */
  lemma EffectMakesNone(m: Manager, section: Option<Section>, id: Id)
    ensures NoneNew(m, EffectOf(m, section).m, id)
  {
    hide FrontSection, SingleReplySection, Placed;
    if section.Some? && section.value.Front? {
      FrontMakesNone(m, section.value.msg, id);
    } else if section.Some? && section.value.SingleReply? {
      ReplyMakesNone(m, section.value.rp, section.value.gone, id);
    }
  }

  /** The caller with oneshot `n` was told that its subscription has the id `subId`. */
  ghost predicate WasTold(log: seq<Delivery>, n: Oneshot, subId: SubscriptionId) {
    exists i :: 0 <= i < |log| && log[i].to == n && log[i].outcome.Subscribed? && log[i].outcome.subId == subId
  }

  /** The indexed subscription has a sink whose caller was told its id. */
  ghost predicate SinkWasTold(m: Manager, log: seq<Delivery>, subId: SubscriptionId)
    requires subId in m.subscriptions
  {
    var id := m.subscriptions[subId];
    id in m.requests && m.requests[id].Subscription? ==> WasTold(log, m.requests[id].sink, subId)
  }

  ghost predicate SinksWereTold(m: Manager, log: seq<Delivery>) {
    forall subId :: subId in m.subscriptions ==> SinkWasTold(m, log, subId)
  }

  /** An indexed subscription of `m'` is as in `m`, or its caller is told in `d`. */
  ghost predicate OldOrTold(m: Manager, m': Manager, d: seq<Delivery>, subId: SubscriptionId)
    requires subId in m'.subscriptions
  {
    var id := m'.subscriptions[subId];
    id in m'.requests && m'.requests[id].Subscription? ==>
      || (&& subId in m.subscriptions && m.subscriptions[subId] == id
          && id in m.requests && m.requests[id] == m'.requests[id])
      || WasTold(d, m'.requests[id].sink, subId)
  }

  lemma FrontTells(m: Manager, msg: FrontToBack, subId: SubscriptionId)
    requires subId in FrontSection(m, msg).m.subscriptions
    ensures OldOrTold(m, FrontSection(m, msg).m, [], subId)
  {
  }

  lemma SubscribeReplyTells(m: Manager, rp: Response, pending: Kind, gone: set<Oneshot>, subId: SubscriptionId)
    requires pending.PendingSubscription? && rp.id !in m.requests
    requires forall sid :: sid in m.subscriptions ==> m.subscriptions[sid] != rp.id
    requires subId in SubscribeReply(m, rp, pending, gone).m.subscriptions
    ensures OldOrTold(m, SubscribeReply(m, rp, pending, gone).m, SubscribeReply(m, rp, pending, gone).delivered, subId)
  {
    hide ParseSubscriptionId;
    var e := SubscribeReply(m, rp, pending, gone);
    if e.delivered[0].outcome.Subscribed? && e.delivered[0].outcome.subId == subId {
      assert WasTold(e.delivered, pending.subscribeBack, subId);
    }
  }

  lemma ReplyTells(m: Manager, rp: Response, gone: set<Oneshot>, subId: SubscriptionId)
    requires ExactIndex(m) && subId in SingleReplySection(m, rp, gone).m.subscriptions
    ensures OldOrTold(m, SingleReplySection(m, rp, gone).m, SingleReplySection(m, rp, gone).delivered, subId)
  {
    hide SubscribeReply;
    if StatusOf(m, rp.id) == SubscriptionPending {
      var m1 := m.(requests := m.requests - {rp.id});
      SubscribeReplyTells(m1, rp, m.requests[rp.id], gone, subId);
    }
  }

  lemma EffectTells(m: Manager, section: Option<Section>, subId: SubscriptionId)
    requires ExactIndex(m) && subId in EffectOf(m, section).m.subscriptions
    ensures OldOrTold(m, EffectOf(m, section).m, EffectOf(m, section).delivered, subId)
  {
    hide FrontSection, SingleReplySection, Placed, ExactIndex;
    if section.Some? && section.value.Front? {
      FrontTells(m, section.value.msg, subId);
    } else if section.Some? && section.value.SingleReply? {
      ReplyTells(m, section.value.rp, section.value.gone, subId);
    }
  }

  lemma ToldStays(log: seq<Delivery>, d: seq<Delivery>, n: Oneshot, subId: SubscriptionId)
    requires WasTold(log, n, subId) || WasTold(d, n, subId)
    ensures WasTold(log + d, n, subId)
  {
    var all := log + d;
    if WasTold(log, n, subId) {
      var i :| 0 <= i < |log| && log[i].to == n && log[i].outcome.Subscribed? && log[i].outcome.subId == subId;
      assert all[i] == log[i];
    } else {
      var i :| 0 <= i < |d| && d[i].to == n && d[i].outcome.Subscribed? && d[i].outcome.subId == subId;
      assert all[|log| + i] == d[i];
    }
  }

  lemma SectionTells(m: Manager, log: seq<Delivery>, section: Option<Section>)
    requires ExactIndex(m) && SinksWereTold(m, log)
    ensures SinksWereTold(EffectOf(m, section).m, log + EffectOf(m, section).delivered)
  {
    hide EffectOf, ExactIndex, WasTold;
    var e := EffectOf(m, section);
    forall subId | subId in e.m.subscriptions
      ensures SinkWasTold(e.m, log + e.delivered, subId)
    {
      EffectTells(m, section, subId);
      var id := e.m.subscriptions[subId];
      if id in e.m.requests && e.m.requests[id].Subscription? {
        assert subId in m.subscriptions ==> SinkWasTold(m, log, subId);
        ToldStays(log, e.delivered, e.m.requests[id].sink, subId);
      }
    }
  }

  /** In every run, the sink of every indexed subscription belongs to a caller that was told its id. */
  lemma {:induction false} SinksAlwaysTold(kind: IdKind, steps: seq<Step>)
    requires After(kind, steps).Some?
    ensures SinksWereTold(After(kind, steps).value.m, After(kind, steps).value.log)
  {
    hide Enabled, Next, EffectOf, SinkWasTold, ExactIndex;
    if steps != [] {
      var n := |steps| - 1;
      var s := After(kind, steps[..n]).value;
      SinksAlwaysTold(kind, steps[..n]);
      SubscriptionsConserved(kind, steps[..n]);
      StepIsSection(s, steps[n]);
      SectionTells(s.m, s.log, SectionOf(s, steps[n]));
    }
  }
}
