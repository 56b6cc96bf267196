/**
 * Order on the wire over every run of the server's subscriptions: a subscribe call is replied to at most
 * once, and before anything else is sent for its subscription.
 */
module SubscriptionOrder {
  import opened Wrappers
  import opened ServerSubscriptions
  import opened SubscriptionTable

  // ---------------------------------------------------------------- what a call sees on the wire

  predicate ReplyTo(msg: Out, c: CallNo) {
    msg.Reply? && msg.c == c
  }

  predicate NoteOf(msg: Out, c: CallNo) {
    msg == Item(c) || msg == Closing(c)
  }

  /** The number of replies to call `c`. */
  function Replies(out: seq<Out>, c: CallNo): (n: nat) {
    if out == [] then 0
    else Replies(out[..|out| - 1], c) + if ReplyTo(out[|out| - 1], c) then 1 else 0
  }

  /** Whether something was sent for the subscription of call `c` beside the reply. */
  predicate Noted(out: seq<Out>, c: CallNo) {
    Item(c) in out || Closing(c) in out
  }

  /** Everything sent for a subscription follows the reply that granted it. */
  ghost predicate ReplyFirst(out: seq<Out>) {
    forall i, c :: 0 <= i < |out| && NoteOf(out[i], c) ==> Reply(c, true) in out[..i]
  }

  datatype Traffic = Traffic(replies: nat, granted: bool, noted: bool)

  function TrafficOf(out: seq<Out>, c: CallNo): (t: Traffic) {
    Traffic(Replies(out, c), Reply(c, true) in out, Noted(out, c))
  }

  function Bump(t: Traffic, msg: Out, c: CallNo): (t': Traffic) {
    Traffic(t.replies + if ReplyTo(msg, c) then 1 else 0, t.granted || msg == Reply(c, true), t.noted || NoteOf(msg, c))
  }

  lemma TrafficGrows(out: seq<Out>, msg: Out, c: CallNo)
    ensures TrafficOf(out + [msg], c) == Bump(TrafficOf(out, c), msg, c)
  {
    assert (out + [msg])[..|out|] == out;
  }

  lemma ReplyFirstGrows(out: seq<Out>, msg: Out)
    requires ReplyFirst(out)
    requires forall c :: NoteOf(msg, c) ==> Reply(c, true) in out
    ensures ReplyFirst(out + [msg])
  {
    var more := out + [msg];
    forall i, c | 0 <= i < |more| && NoteOf(more[i], c)
      ensures Reply(c, true) in more[..i]
    {
      if i < |out| {
        assert more[..i] == out[..i];
      } else {
        assert more[..i] == out;
      }
    }
  }

  // ---------------------------------------------------------------- one call

  /** All that the order of messages depends on for one call. */
  datatype View = View(call: Option<Call>, open: bool, traffic: Traffic, accepted: bool, sending: bool)

  function ViewOf(s: Sys, c: CallNo): (v: View) {
    View(if c in s.calls then Some(s.calls[c]) else None,
         c in s.calls && s.calls[c].key.conn !in s.closed,
         TrafficOf(s.wire.out, c),
         c in s.wire.accepted,
         c in s.wire.sending)
  }

  /** What was replied so far, by the stage of the pending sink and what the call was told. */
  predicate StageOk(call: Call, open: bool, t: Traffic) {
    match call.stage
    case Offered => call.told == Untold && call.end != Resolved && t.replies == 0 && !t.granted
    case Accepting(fits) => call.told == Untold && call.end != Resolved && t.replies == 1 && t.granted == fits
    case Accepted(fits) => call.told == Told(fits) && t.replies == 1 && t.granted == fits
    case Rejecting => call.told == Untold && call.end != Resolved && (open ==> t.replies == 1) && !t.granted
    case Live => call.told == Told(true) && t.replies == 1 && t.granted
    case Over =>
      match call.told
      case Untold => false
      case Told(ok) => !ok && !t.granted && (open ==> t.replies == 1)
      case Forgotten =>
        && (call.end == Running ==> t.replies == 0 && !t.granted)
        && (call.end == Resolved ==> !t.granted && (open ==> t.replies == 1))
  }

  predicate ViewOk(v: View) {
    match v.call
    case None => v.traffic == Traffic(0, false, false) && !v.accepted && !v.sending
    case Some(call) =>
      && v.traffic.replies <= 1
      && StageOk(call, v.open, v.traffic)
      && (v.accepted || v.traffic.noted ==> call.told == Told(true))
      && (v.sending ==> call.stage == Live)
  }

  ghost predicate OrderOk(s: Sys) {
    ReplyFirst(s.wire.out) && forall c :: ViewOk(ViewOf(s, c))
  }

  // ---------------------------------------------------------------- the parts of a step

  lemma PutView(s: Sys, conn: Conn, msg: Out, a: CallNo)
    ensures ViewOf(Put(s, conn, msg), a)
            == if conn in s.closed then ViewOf(s, a) else ViewOf(s, a).(traffic := Bump(ViewOf(s, a).traffic, msg, a))
  {
    TrafficGrows(s.wire.out, msg, a);
  }

  lemma EndPendingView(s: Sys, c: CallNo, told: Told, a: CallNo)
    requires c in s.calls
    ensures EndPending(s, c, told).wire == s.wire
    ensures ViewOf(EndPending(s, c, told), a)
            == if a == c then ViewOf(s, a).(call := Some(s.calls[c].(stage := Over, told := told))) else ViewOf(s, a)
  {
  }

  /** A message that is not sent for a subscription leaves the order alone. */
  lemma PutReplyFirst(s: Sys, conn: Conn, msg: Out)
    requires ReplyFirst(s.wire.out)
    requires forall c :: NoteOf(msg, c) ==> Reply(c, true) in s.wire.out
    ensures ReplyFirst(Put(s, conn, msg).wire.out)
  {
    hide ReplyFirst;
    ReplyFirstGrows(s.wire.out, msg);
  }

  /** A reply sent as call `c` moves on is seen by that call alone. */
  lemma ReplyingView(s: Sys, c: CallNo, call: Call, ok: bool, a: CallNo)
    requires ReplyFirst(s.wire.out)
    ensures ReplyFirst(Replying(s, c, call, ok).wire.out)
    ensures a != c ==> ViewOf(Replying(s, c, call, ok), a) == ViewOf(s, a)
    ensures call.key.conn in s.closed
            ==> ViewOf(Replying(s, c, call, ok), c) == ViewOf(s, c).(call := Some(call), open := false)
    ensures call.key.conn !in s.closed
            ==> ViewOf(Replying(s, c, call, ok), c)
                == ViewOf(s, c).(call := Some(call), open := true,
                  traffic := Bump(ViewOf(s, c).traffic, Reply(c, ok), c))
  {
    hide ReplyFirst, TrafficOf;
    PutView(SetCall(s, c, call), call.key.conn, Reply(c, ok), a);
    PutView(SetCall(s, c, call), call.key.conn, Reply(c, ok), c);
    PutReplyFirst(SetCall(s, c, call), call.key.conn, Reply(c, ok));
  }

  function Replying(s: Sys, c: CallNo, call: Call, ok: bool): (s': Sys) {
    Put(SetCall(s, c, call), call.key.conn, Reply(c, ok))
  }

  // ---------------------------------------------------------------- one step

  lemma SubscribeOrder(s: Sys, c: CallNo, key: Key, a: CallNo)
    requires OrderOk(s) && Enabled(s, Step.Subscribe(c, key))
    ensures ReplyFirst(SubscribeNext(s, c, key).wire.out) && ViewOk(ViewOf(SubscribeNext(s, c, key), a))
  {
    hide TrafficOf, ReplyFirst;
    assert ViewOk(ViewOf(s, a));
    ReplyingView(s, c, Call(key, Over, Forgotten, Resolved), false, a);
  }

  lemma AcceptSendOrder(s: Sys, c: CallNo, fits: bool, a: CallNo)
    requires OrderOk(s) && Enabled(s, AcceptSend(c, fits))
    ensures ReplyFirst(AcceptSendNext(s, c, fits).wire.out) && ViewOk(ViewOf(AcceptSendNext(s, c, fits), a))
  {
    hide TrafficOf, ReplyFirst, EndPending;
    assert ViewOk(ViewOf(s, a));
    EndPendingView(s, c, Forgotten, a);
    ReplyingView(s, c, s.calls[c].(stage := Accepting(fits)), fits, a);
  }

  lemma AcceptTellOrder(s: Sys, c: CallNo, a: CallNo)
    requires OrderOk(s) && Enabled(s, AcceptTell(c))
    ensures ReplyFirst(AcceptTellNext(s, c).wire.out) && ViewOk(ViewOf(AcceptTellNext(s, c), a))
  {
    hide TrafficOf, ReplyFirst, EndPending;
    assert ViewOk(ViewOf(s, a)) && ViewOk(ViewOf(s, c));
    EndPendingView(s, c, Forgotten, a);
  }

  lemma AcceptInsertOrder(s: Sys, c: CallNo, sink: nat, a: CallNo)
    requires OrderOk(s) && Enabled(s, AcceptInsert(c, sink))
    ensures ReplyFirst(AcceptInsertNext(s, c, sink).wire.out) && ViewOk(ViewOf(AcceptInsertNext(s, c, sink), a))
  {
    hide TrafficOf, ReplyFirst, EndPending, StoreReceiver;
    assert ViewOk(ViewOf(s, a)) && ViewOk(ViewOf(s, c));
    EndPendingView(s, c, s.calls[c].told, a);
  }

  lemma RejectSendOrder(s: Sys, c: CallNo, a: CallNo)
    requires OrderOk(s) && Enabled(s, RejectSend(c))
    ensures ReplyFirst(Next(s, RejectSend(c)).wire.out) && ViewOk(ViewOf(Next(s, RejectSend(c)), a))
  {
    hide TrafficOf, ReplyFirst;
    assert ViewOk(ViewOf(s, a)) && ViewOk(ViewOf(s, c));
    ReplyingView(s, c, s.calls[c].(stage := Rejecting), false, a);
  }

  lemma EndOrder(s: Sys, c: CallNo, told: Told, a: CallNo)
    requires OrderOk(s) && c in s.calls
    requires StageIs(s, c, Offered) || StageIs(s, c, Rejecting)
    requires told == if StageIs(s, c, Rejecting) && s.calls[c].end == Running then Told(false) else Forgotten
    ensures ReplyFirst(EndPending(s, c, told).wire.out) && ViewOk(ViewOf(EndPending(s, c, told), a))
  {
    hide TrafficOf, ReplyFirst, EndPending;
    assert ViewOk(ViewOf(s, a)) && ViewOk(ViewOf(s, c));
    EndPendingView(s, c, told, a);
  }

  lemma ResolveOrder(s: Sys, c: CallNo, a: CallNo)
    requires OrderOk(s) && Enabled(s, Resolve(c))
    ensures ReplyFirst(ResolveNext(s, c).wire.out) && ViewOk(ViewOf(ResolveNext(s, c), a))
  {
    hide TrafficOf, ReplyFirst;
    assert ViewOk(ViewOf(s, a)) && ViewOk(ViewOf(s, c));
    ReplyingView(s, c, s.calls[c].(end := Resolved), false, a);
  }

  lemma AbortOrder(s: Sys, c: CallNo, a: CallNo)
    requires OrderOk(s) && Enabled(s, Abort(c))
    ensures ReplyFirst(Next(s, Abort(c)).wire.out) && ViewOk(ViewOf(Next(s, Abort(c)), a))
  {
    hide TrafficOf, ReplyFirst;
    assert ViewOk(ViewOf(s, a)) && ViewOk(ViewOf(s, c));
  }

  /** A message for a granted subscription. */
  lemma NoteOrder(s: Sys, c: CallNo, msg: Out, a: CallNo)
    requires OrderOk(s) && c in s.calls && s.calls[c].told == Told(true) && (msg == Item(c) || msg == Closing(c))
    ensures ReplyFirst(Put(s, s.calls[c].key.conn, msg).wire.out) && ViewOk(ViewOf(Put(s, s.calls[c].key.conn, msg), a))
  {
    hide ReplyFirst, Put;
    assert ViewOk(ViewOf(s, a)) && ViewOk(ViewOf(s, c));
    PutView(s, s.calls[c].key.conn, msg, a);
    PutReplyFirst(s, s.calls[c].key.conn, msg);
  }

  lemma CloseOrder(s: Sys, c: CallNo, a: CallNo)
    requires OrderOk(s) && Enabled(s, Close(c))
    ensures ReplyFirst(Next(s, Close(c)).wire.out) && ViewOk(ViewOf(Next(s, Close(c)), a))
  {
    hide TrafficOf, ReplyFirst, Put;
    var s1 := s.(wire := s.wire.(closings := s.wire.closings + {c}));
    assert forall b :: ViewOf(s1, b) == ViewOf(s, b);
    assert ViewOk(ViewOf(s, c));
    NoteOrder(s1, c, Closing(c), a);
  }

  lemma FinishSendOrder(s: Sys, c: CallNo, a: CallNo)
    requires OrderOk(s) && Enabled(s, FinishSend(c))
    ensures ReplyFirst(Next(s, FinishSend(c)).wire.out) && ViewOk(ViewOf(Next(s, FinishSend(c)), a))
  {
    hide TrafficOf, ReplyFirst, Put;
    var s1 := s.(wire := s.wire.(sending := s.wire.sending - multiset{c}));
    assert ViewOk(ViewOf(s, c));
    assert OrderOk(s1) by {
      forall b
        ensures ViewOk(ViewOf(s1, b))
      {
        assert ViewOk(ViewOf(s, b));
      }
    }
    NoteOrder(s1, c, Item(c), a);
  }

  lemma CheckSendOrder(s: Sys, sink: nat, a: CallNo)
    requires OrderOk(s) && TableOk(s.calls, s.table) && Enabled(s, CheckSend(sink))
    ensures ReplyFirst(CheckSendNext(s, sink).wire.out) && ViewOk(ViewOf(CheckSendNext(s, sink), a))
  {
    hide TrafficOf, ReplyFirst;
    assert ViewOk(ViewOf(s, a));
  }

  /** Steps that move no call and send nothing for one. */
  lemma OtherOrder(s: Sys, step: Step, a: CallNo)
    requires OrderOk(s) && Enabled(s, step)
    requires step.Connect? || step.Disconnect? || step.Return? || step.Clone? || step.Unsubscribe? || step.CheckDrop?
             || step.SendOther?
    ensures ReplyFirst(Next(s, step).wire.out) && ViewOk(ViewOf(Next(s, step), a))
  {
    hide TrafficOf, ReplyFirst, Put, RemoveKey, Active;
    assert ViewOk(ViewOf(s, a));
    if step.SendOther? {
      PutView(s, step.conn, Unrelated(step.conn), a);
      PutReplyFirst(s, step.conn, Unrelated(step.conn));
    }
  }

  lemma FinishDropOrder(s: Sys, sink: nat, a: CallNo)
    requires OrderOk(s) && Enabled(s, FinishDrop(sink))
    ensures ReplyFirst(FinishDropNext(s, sink).wire.out) && ViewOk(ViewOf(FinishDropNext(s, sink), a))
  {
    hide TrafficOf, ReplyFirst, DropSink, LastSink;
    assert ViewOk(ViewOf(s, a));
  }

  lemma StepView(s: Sys, step: Step, a: CallNo)
    requires OrderOk(s) && TableOk(s.calls, s.table) && Enabled(s, step)
    ensures ReplyFirst(Next(s, step).wire.out) && ViewOk(ViewOf(Next(s, step), a))
  {
    hide OrderOk, TableOk, ViewOk, ViewOf, ReplyFirst, TrafficOf, Put, SetCall, EndPending, LastSink, Active, RemoveKey;
    hide SubscribeNext, AcceptSendNext, AcceptTellNext, AcceptInsertNext, ResolveNext, FinishDropNext, CheckSendNext;
    match step {
      case Subscribe(c, key) => SubscribeOrder(s, c, key, a);
      case AcceptSend(c, fits) => AcceptSendOrder(s, c, fits, a);
      case AcceptTell(c) => AcceptTellOrder(s, c, a);
      case AcceptInsert(c, sink) => AcceptInsertOrder(s, c, sink, a);
      case RejectSend(c) => RejectSendOrder(s, c, a);
      case RejectTell(c) => EndOrder(s, c, if s.calls[c].end == Running then Told(false) else Forgotten, a);
      case DropPending(c) => EndOrder(s, c, Forgotten, a);
      case Resolve(c) => ResolveOrder(s, c, a);
      case Abort(c) => AbortOrder(s, c, a);
      case Close(c) => CloseOrder(s, c, a);
      case CheckSend(sink) => CheckSendOrder(s, sink, a);
      case FinishSend(c) => FinishSendOrder(s, c, a);
      case FinishDrop(sink) => FinishDropOrder(s, sink, a);
      case _ => OtherOrder(s, step, a);
    }
  }

  lemma StepKeepsOrder(s: Sys, step: Step)
    requires OrderOk(s) && TableOk(s.calls, s.table) && Enabled(s, step)
    ensures OrderOk(Next(s, step))
  {
    hide Next, Enabled, TableOk, ViewOk, ViewOf, ReplyFirst;
    StepView(s, step, 0);
    forall a
      ensures ViewOk(ViewOf(Next(s, step), a))
    {
      StepView(s, step, a);
    }
  }

  // ---------------------------------------------------------------- every run

  lemma {:induction false} RunKeepsOrder(steps: seq<Step>)
    ensures After(steps).Some? ==> OrderOk(After(steps).value)
  {
    hide Next, Enabled;
    if steps != [] {
      var s := After(steps[..|steps| - 1]);
      RunKeepsOrder(steps[..|steps| - 1]);
      RunKeepsTable(steps[..|steps| - 1]);
      if s.Some? && Enabled(s.value, steps[|steps| - 1]) {
        StepKeepsOrder(s.value, steps[|steps| - 1]);
      }
    }
  }

  /**
   * In every run a subscribe call has at most one reply, whatever is sent for its subscription follows the
   * reply granting it, and nothing is sent for a pending sink that was not accepted.
   */
  lemma ReplyOnceAndFirst(steps: seq<Step>, s: Sys, c: CallNo)
    requires After(steps) == Some(s)
    ensures Replies(s.wire.out, c) <= 1
    ensures ReplyFirst(s.wire.out)
    ensures Noted(s.wire.out, c) ==> StageIs(s, c, Accepted(true)) || StageIs(s, c, Live)
  {
    hide After;
    RunKeepsOrder(steps);
    assert ViewOk(ViewOf(s, c));
  }

  /** The pending sink of call `c` was accepted, rejected or dropped. */
  predicate Settled(s: Sys, c: CallNo) {
    StageIs(s, c, Live) || StageIs(s, c, Over)
  }

  /**
   * Once the pending sink is settled, and while the connection is open and the call was not aborted, the
   * call has exactly one reply, a grant exactly if it became live; if it was dropped unanswered, the call
   * itself can, and by resolving does, send that one reply.
   */
  lemma SettledHasOneReply(steps: seq<Step>, s: Sys, c: CallNo)
    requires After(steps) == Some(s) && Settled(s, c)
    requires s.calls[c].key.conn !in s.closed && s.calls[c].end != Aborted
    ensures Reply(c, true) in s.wire.out <==> s.calls[c].stage == Live
    ensures s.calls[c].told != Forgotten || s.calls[c].end == Resolved ==> Replies(s.wire.out, c) == 1
    ensures s.calls[c].told == Forgotten && s.calls[c].end == Running
            ==> Enabled(s, Resolve(c)) && Replies(s.wire.out, c) == 0 && Replies(Next(s, Resolve(c)).wire.out, c) == 1
  {
    hide After, ReplyFirst;
    RunKeepsOrder(steps);
    assert ViewOk(ViewOf(s, c));
    if s.calls[c].told == Forgotten && s.calls[c].end == Running {
      ResolveSends(s, c);
      TrafficGrows(s.wire.out, Reply(c, false), c);
    }
  }

  lemma ResolveSends(s: Sys, c: CallNo)
    requires c in s.calls && s.calls[c].told == Forgotten && s.calls[c].end == Running
    requires s.calls[c].key.conn !in s.closed
    ensures Enabled(s, Resolve(c)) && Next(s, Resolve(c)).wire.out == s.wire.out + [Reply(c, false)]
  {
  }

  predicate TurnedDown(s: Sys, c: CallNo) {
    StageIs(s, c, Rejecting) || StageIs(s, c, Over)
  }

  lemma StepKeepsTurnedDown(s: Sys, step: Step, c: CallNo)
    requires Enabled(s, step) && TurnedDown(s, c)
    ensures TurnedDown(Next(s, step), c)
  {
    hide Put, LastSink, Active, RemoveKey, StoreReceiver, DropSink;
    forall a: Sys, conn, msg
      ensures Put(a, conn, msg).calls == a.calls
    {
      PutRest(a, conn, msg);
    }
  }

  lemma PutRest(s: Sys, conn: Conn, msg: Out)
    ensures Put(s, conn, msg).calls == s.calls
  {
  }

  /** A pending sink that was rejected or dropped sends nothing but its reply, in any continuation of the run. */
  lemma {:induction false} TurnedDownStaysSilent(before: seq<Step>, after: seq<Step>, s: Sys, c: CallNo)
    requires After(before).Some? && After(before + after) == Some(s) && TurnedDown(After(before).value, c)
    ensures TurnedDown(s, c) && !Noted(s.wire.out, c)
    decreases |after|
  {
    hide Next, Enabled;
    if after == [] {
      assert before + after == before;
    } else {
      var n := |after| - 1;
      assert (before + after)[..|before + after| - 1] == before + after[..n];
      TurnedDownStaysSilent(before, after[..n], After(before + after[..n]).value, c);
      StepKeepsTurnedDown(After(before + after[..n]).value, after[n], c);
    }
    ReplyOnceAndFirst(before + after, s, c);
  }
}
