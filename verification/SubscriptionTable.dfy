/**
 * The table of stored receivers over every run of the server's subscriptions: a sink is active exactly
 * when the receiver stored under its key is its own.
 */
module SubscriptionTable {
  import opened Wrappers
  import opened ClientMessages
  import opened ServerSubscriptions

  type Calls = map<CallNo, Call>

  /** A stored receiver belongs to a live call with that key. */
  ghost predicate EntryOk(calls: Calls, t: Table, key: Key) {
    key in t.entries
    ==> t.entries[key] in calls && calls[t.entries[key]].stage == Live && calls[t.entries[key]].key == key
  }

  /** The receiver of call `c` is the one stored under its key. */
  predicate Stored(calls: Calls, t: Table, c: CallNo) {
    c in calls && calls[c].key in t.entries && t.entries[calls[c].key] == c
  }

  /**
   * A receiver is alive exactly while it is the one stored under its own key; every live sink and every
   * stored receiver belongs to a call that became live.
   */
  ghost predicate TableOk(calls: Calls, t: Table) {
    && (forall key :: EntryOk(calls, t, key))
    && (forall c :: c in t.receivers <==> Stored(calls, t, c))
    && (forall sink :: sink in t.sinks ==> t.sinks[sink] in calls && calls[t.sinks[sink]].stage == Live)
    && (forall sink :: sink in t.dropping ==> sink in t.sinks)
  }

  /** Every call but `c` is as before, and `c` is no less live. */
  ghost predicate OnlyCall(calls: Calls, calls': Calls, c: CallNo) {
    && (forall a :: a in calls && a != c ==> a in calls' && calls'[a] == calls[a])
    && (forall a :: a in calls' && a != c ==> a in calls)
    && (c in calls
        ==> c in calls' && calls'[c].key == calls[c].key && (calls[c].stage == Live ==> calls'[c].stage == Live))
  }

  // ---------------------------------------------------------------- one step

  lemma CallKeepsTable(calls: Calls, calls': Calls, t: Table, c: CallNo)
    requires TableOk(calls, t) && OnlyCall(calls, calls', c)
    ensures TableOk(calls', t)
  {
    forall key
      ensures EntryOk(calls', t, key)
    {
      assert EntryOk(calls, t, key);
    }
    forall a
      ensures a in t.receivers <==> Stored(calls', t, a)
    {
      assert a in t.receivers <==> Stored(calls, t, a);
      if a in calls' {
        assert EntryOk(calls, t, calls'[a].key);
      }
    }
  }

  lemma RemoveKeepsTable(calls: Calls, t: Table, key: Key)
    requires TableOk(calls, t)
    ensures TableOk(calls, RemoveKey(t, key))
  {
    assert EntryOk(calls, t, key);
    forall other
      ensures EntryOk(calls, RemoveKey(t, key), other)
    {
      assert EntryOk(calls, t, other);
    }
  }

  /** Storing the receiver of a call whose key is free. */
  lemma StoreInFreeKey(calls: Calls, t: Table, t': Table, c: CallNo, sink: nat)
    requires TableOk(calls, t) && c in calls && calls[c].key !in t.entries
    requires t'.entries == t.entries[calls[c].key := c] && t'.receivers == t.receivers + {c}
    requires t'.sinks == t.sinks[sink := c] && t'.dropping == t.dropping
    ensures TableOk(calls[c := calls[c].(stage := Live)], t')
  {
    var calls' := calls[c := calls[c].(stage := Live)];
    forall key
      ensures EntryOk(calls', t', key)
    {
      assert EntryOk(calls, t, key);
    }
    forall a
      ensures a in t'.receivers <==> Stored(calls', t', a)
    {
      assert a in t.receivers <==> Stored(calls, t, a);
    }
  }

  lemma StoreKeepsTable(calls: Calls, t: Table, c: CallNo, sink: nat)
    requires TableOk(calls, t) && c in calls
    ensures TableOk(calls[c := calls[c].(stage := Live)], StoreReceiver(t, calls[c].key, c, sink))
  {
    hide TableOk;
    RemoveKeepsTable(calls, t, calls[c].key);
    StoreInFreeKey(calls, RemoveKey(t, calls[c].key), StoreReceiver(t, calls[c].key, c, sink), c, sink);
  }

  /** Only sinks and drops changed, and every sink is still one of a live call. */
  lemma SinksKeepTable(calls: Calls, t: Table, t': Table)
    requires TableOk(calls, t) && t'.entries == t.entries && t'.receivers == t.receivers
    requires forall sink :: sink in t'.sinks ==> t'.sinks[sink] in calls && calls[t'.sinks[sink]].stage == Live
    requires forall sink :: sink in t'.dropping ==> sink in t'.sinks
    ensures TableOk(calls, t')
  {
    forall key
      ensures EntryOk(calls, t', key)
    {
      assert EntryOk(calls, t, key);
    }
    forall a
      ensures a in t'.receivers <==> Stored(calls, t', a)
    {
      assert a in t.receivers <==> Stored(calls, t, a);
    }
  }

  lemma DropKeepsTable(calls: Calls, t: Table, key: Key, sink: nat)
    requires TableOk(calls, t) && sink in t.dropping
    ensures TableOk(calls, DropSink(t, key, sink))
  {
    RemoveKeepsTable(calls, t, key);
    SinksKeepTable(calls, if t.dropping[sink] then RemoveKey(t, key) else t, DropSink(t, key, sink));
  }

  /** The call a step moves on. */
  function Subject(step: Step): (c: CallNo) {
    match step
    case Subscribe(c, _) => c
    case AcceptSend(c, _) => c
    case AcceptTell(c) => c
    case AcceptInsert(c, _) => c
    case RejectSend(c) => c
    case RejectTell(c) => c
    case DropPending(c) => c
    case Resolve(c) => c
    case Abort(c) => c
    case _ => 0
  }

  /** Steps that neither store nor remove receivers, nor make or drop sinks. */
  predicate Quiet(s: Sys, step: Step) {
    match step
    case AcceptInsert(c, _) => StageIs(s, c, Accepted(false))
    case Clone(_, _) => false
    case Unsubscribe(_) => false
    case CheckDrop(_) => false
    case FinishDrop(_) => false
    case _ => true
  }

  lemma QuietPending(s: Sys, step: Step)
    requires Enabled(s, step) && Quiet(s, step)
    requires step.Subscribe? || step.AcceptSend?
    ensures OnlyCall(s.calls, Next(s, step).calls, Subject(step)) && Next(s, step).table == s.table
  {
  }

  lemma QuietAccepted(s: Sys, step: Step)
    requires Enabled(s, step) && Quiet(s, step)
    requires step.AcceptTell? || step.AcceptInsert?
    ensures OnlyCall(s.calls, Next(s, step).calls, Subject(step)) && Next(s, step).table == s.table
  {
  }

  lemma QuietEnding(s: Sys, step: Step)
    requires Enabled(s, step) && Quiet(s, step)
    requires step.RejectSend? || step.RejectTell? || step.DropPending?
    ensures OnlyCall(s.calls, Next(s, step).calls, Subject(step)) && Next(s, step).table == s.table
  {
  }

  lemma QuietCall(s: Sys, step: Step)
    requires Enabled(s, step) && Quiet(s, step)
    requires step.Resolve? || step.Abort?
    ensures OnlyCall(s.calls, Next(s, step).calls, Subject(step)) && Next(s, step).table == s.table
  {
  }

  lemma QuietOther(s: Sys, step: Step)
    requires Enabled(s, step) && Quiet(s, step)
    requires step.Connect? || step.Disconnect? || step.Return? || step.Close? || step.CheckSend? || step.FinishSend?
             || step.SendOther?
    ensures Next(s, step).calls == s.calls && Next(s, step).table == s.table
  {
  }

  lemma QuietStep(s: Sys, step: Step)
    requires Enabled(s, step) && Quiet(s, step)
    ensures OnlyCall(s.calls, Next(s, step).calls, Subject(step)) && Next(s, step).table == s.table
  {
    hide Next, Enabled, Subject;
    if step.Subscribe? || step.AcceptSend? {
      QuietPending(s, step);
    } else if step.AcceptTell? || step.AcceptInsert? {
      QuietAccepted(s, step);
    } else if step.RejectSend? || step.RejectTell? || step.DropPending? {
      QuietEnding(s, step);
    } else if step.Resolve? || step.Abort? {
      QuietCall(s, step);
    } else {
      QuietOther(s, step);
    }
  }

  lemma StepKeepsTable(s: Sys, step: Step)
    requires TableOk(s.calls, s.table) && Enabled(s, step)
    ensures TableOk(Next(s, step).calls, Next(s, step).table)
  {
    hide TableOk, DropSink, StoreReceiver, LastSink, OnlyCall;
    hide SubscribeNext, AcceptSendNext, AcceptTellNext, RejectTellNext, ResolveNext;
    match step {
      case AcceptInsert(c, sink) =>
        if StageIs(s, c, Accepted(true)) {
          StoreKeepsTable(s.calls, s.table, c, sink);
        } else {
          QuietStep(s, step);
          CallKeepsTable(s.calls, Next(s, step).calls, s.table, Subject(step));
        }
      case Clone(sink, copy) => CloneKeepsTable(s, sink, copy);
      case Unsubscribe(key) => RemoveKeepsTable(s.calls, s.table, key);
      case CheckDrop(sink) => CheckDropKeepsTable(s, sink);
      case FinishDrop(sink) => DropKeepsTable(s.calls, s.table, s.calls[s.table.sinks[sink]].key, sink);
      case _ =>
        QuietStep(s, step);
        CallKeepsTable(s.calls, Next(s, step).calls, s.table, Subject(step));
    }
  }

  lemma CloneKeepsTable(s: Sys, sink: nat, copy: nat)
    requires TableOk(s.calls, s.table) && Enabled(s, Clone(sink, copy))
    ensures TableOk(s.calls, s.table.(sinks := s.table.sinks[copy := s.table.sinks[sink]]))
  {
    SinksKeepTable(s.calls, s.table, s.table.(sinks := s.table.sinks[copy := s.table.sinks[sink]]));
  }

  lemma CheckDropKeepsTable(s: Sys, sink: nat)
    requires TableOk(s.calls, s.table) && Enabled(s, CheckDrop(sink))
    ensures TableOk(s.calls, s.table.(dropping := s.table.dropping[sink := Active(s.table, sink)]))
  {
    SinksKeepTable(s.calls, s.table, s.table.(dropping := s.table.dropping[sink := Active(s.table, sink)]));
  }

  // ---------------------------------------------------------------- every run

  lemma {:induction false} RunKeepsTable(steps: seq<Step>)
    ensures After(steps).Some? ==> TableOk(After(steps).value.calls, After(steps).value.table)
  {
    hide Next, Enabled;
    if steps != [] {
      var s := After(steps[..|steps| - 1]);
      RunKeepsTable(steps[..|steps| - 1]);
      if s.Some? && Enabled(s.value, steps[|steps| - 1]) {
        StepKeepsTable(s.value, steps[|steps| - 1]);
      }
    }
  }

  /**
   * In every run, however ids repeat, a sink is active exactly when its own receiver is the one stored under
   * its key.
   */
  lemma ActiveExactlyWhenStored(steps: seq<Step>, sink: nat)
    requires After(steps).Some? && sink in After(steps).value.table.sinks
    ensures After(steps).value.table.sinks[sink] in After(steps).value.calls
    ensures Active(After(steps).value.table, sink)
            <==> Stored(After(steps).value.calls, After(steps).value.table, After(steps).value.table.sinks[sink])
  {
    hide After;
    RunKeepsTable(steps);
  }

  /** The entries of all calls but `c` are in `t'` what they are in `t`. */
  ghost predicate OthersStay(t: Table, t': Table, c: CallNo) {
    forall key :: key in t.entries && t.entries[key] != c ==> key in t'.entries && t'.entries[key] == t.entries[key]
  }

  /** The two halves of a drop, one right after the other. */
  function DropAtOnce(s: Sys, sink: nat): (s': Sys)
    requires sink in s.table.sinks && sink !in s.table.dropping && s.table.sinks[sink] in s.calls
  {
    Next(Next(s, CheckDrop(sink)), FinishDrop(sink))
  }

  lemma DropAtOnceTable(s: Sys, sink: nat)
    requires sink in s.table.sinks && sink !in s.table.dropping && s.table.sinks[sink] in s.calls
    ensures DropAtOnce(s, sink).table.entries
            == if Active(s.table, sink) then s.table.entries - {s.calls[s.table.sinks[sink]].key} else s.table.entries
    ensures DropAtOnce(s, sink).table.sinks == s.table.sinks - {sink}
    ensures DropAtOnce(s, sink).calls == s.calls
  {
    hide LastSink, StageIs;
  }

  /**
   * In every run, dropping a sink in one go takes no other subscription's entry, and takes its own exactly
   * if the sink was active; an active one leaves all its clones inactive.
   */
  lemma DropTakesOnlyItsOwn(steps: seq<Step>, s: Sys, sink: nat)
    requires After(steps) == Some(s) && sink in s.table.sinks && sink !in s.table.dropping
    ensures s.table.sinks[sink] in s.calls
    ensures OthersStay(s.table, DropAtOnce(s, sink).table, s.table.sinks[sink])
    ensures !Active(s.table, sink) ==> DropAtOnce(s, sink).table.entries == s.table.entries
    ensures !Stored(s.calls, DropAtOnce(s, sink).table, s.table.sinks[sink])
    ensures forall copy ::
            copy in s.table.sinks && s.table.sinks[copy] == s.table.sinks[sink]
            ==> !Active(DropAtOnce(s, sink).table, copy)
  {
    hide After, DropAtOnce, Next, Enabled;
    RunKeepsTable(steps);
    DropAtOnceTable(s, sink);
    DropAtOnceIs(s, sink);
    StepKeepsTable(s, CheckDrop(sink));
    StepKeepsTable(Next(s, CheckDrop(sink)), FinishDrop(sink));
  }

  lemma DropAtOnceIs(s: Sys, sink: nat)
    requires sink in s.table.sinks && sink !in s.table.dropping && s.table.sinks[sink] in s.calls
    ensures Enabled(s, CheckDrop(sink)) && Enabled(Next(s, CheckDrop(sink)), FinishDrop(sink))
    ensures DropAtOnce(s, sink) == Next(Next(s, CheckDrop(sink)), FinishDrop(sink))
  {
  }

  /** The sink was active when its drop began, and by now its key holds another call's receiver. */
  predicate TakesOver(s: Sys, sink: nat)
    requires sink in s.table.dropping && sink in s.table.sinks && s.table.sinks[sink] in s.calls
  {
    s.table.dropping[sink] && s.calls[s.table.sinks[sink]].key in s.table.entries && !Active(s.table, sink)
  }

  /**
   * A drop whose two halves are apart takes another subscription's entry exactly if the sink was active at
   * the first half and another call has stored its receiver under the same key by the second.
   */
  lemma LateDropTakes(steps: seq<Step>, s: Sys, sink: nat)
    requires After(steps) == Some(s) && sink in s.table.dropping
    ensures Enabled(s, FinishDrop(sink))
    ensures OthersStay(s.table, Next(s, FinishDrop(sink)).table, s.table.sinks[sink])
            <==> !TakesOver(s, sink)
  {
    hide After;
    RunKeepsTable(steps);
    hide LastSink, StageIs;
  }

  /** Subscriptions of one method and one connection never share an id. */
  ghost predicate DistinctKeys(calls: Calls) {
    forall a, b :: a in calls && b in calls && calls[a].key == calls[b].key ==> a == b
  }

  /** Where ids do not repeat, no drop takes another subscription's entry, however its halves are interleaved. */
  lemma DistinctKeysAreSafe(steps: seq<Step>, s: Sys, sink: nat)
    requires After(steps) == Some(s) && sink in s.table.dropping && DistinctKeys(s.calls)
    ensures Enabled(s, FinishDrop(sink))
    ensures OthersStay(s.table, Next(s, FinishDrop(sink)).table, s.table.sinks[sink])
  {
    hide After, Next;
    RunKeepsTable(steps);
    LateDropTakes(steps, s, sink);
    assert EntryOk(s.calls, s.table, s.calls[s.table.sinks[sink]].key);
  }

  /** A sink that is not active never becomes active again. */
  lemma StepKeepsInactive(s: Sys, step: Step, c: CallNo)
    requires TableOk(s.calls, s.table) && Enabled(s, step)
    requires StageIs(s, c, Live) && c !in s.table.receivers
    ensures StageIs(Next(s, step), c, Live) && c !in Next(s, step).table.receivers
  {
    hide Next, Enabled, TableOk, Quiet;
    if Quiet(s, step) {
      QuietStep(s, step);
    } else {
      LoudKeepsInactive(s, step, c);
    }
  }

  lemma LoudKeepsInactive(s: Sys, step: Step, c: CallNo)
    requires Enabled(s, step) && !Quiet(s, step) && StageIs(s, c, Live) && c !in s.table.receivers
    ensures StageIs(Next(s, step), c, Live) && c !in Next(s, step).table.receivers
  {
    hide LastSink;
  }

  /**
   * Once a subscription's receiver is gone, in every continuation none of its sinks is active and no further
   * item passes the check.
   */
  lemma {:induction false} InactiveForever(before: seq<Step>, after: seq<Step>, c: CallNo)
    requires After(before).Some? && After(before + after).Some?
    requires StageIs(After(before).value, c, Live) && c !in After(before).value.table.receivers
    ensures StageIs(After(before + after).value, c, Live) && c !in After(before + after).value.table.receivers
    ensures forall sink ::
            sink in After(before + after).value.table.sinks && After(before + after).value.table.sinks[sink] == c
            ==> !Active(After(before + after).value.table, sink)
    decreases |after|
  {
    hide Next, Enabled;
    if after == [] {
      assert before + after == before;
    } else {
      var n := |after| - 1;
      assert (before + after)[..|before + after| - 1] == before + after[..n];
      InactiveForever(before, after[..n], c);
      RunKeepsTable(before + after[..n]);
      StepKeepsInactive(After(before + after[..n]).value, after[n], c);
    }
  }

  // ---------------------------------------------------------------- a repeated id and a slow drop

  lemma Extend(steps: seq<Step>, s: Sys, step: Step)
    requires After(steps) == Some(s) && Enabled(s, step)
    ensures After(steps + [step]) == Some(Next(s, step))
  {
    hide Next, Enabled;
    assert (steps + [step])[..|steps|] == steps;
  }

  /** Call `c` subscribed under `key` and is one insert short of being live. */
  function AlmostLive(s: Sys, c: CallNo, key: Key): (s': Sys)
    requires key.conn in s.free && s.free[key.conn] > 0
  {
    s.(free := s.free[key.conn := s.free[key.conn] - 1],
      calls := s.calls[c := Call(key, Accepted(true), Told(true), Running)],
      wire := s.wire.(out := s.wire.out + [Reply(c, true)]))
  }

  function Replied(s: Sys, c: CallNo, key: Key): (s': Sys)
    requires key.conn in s.free && s.free[key.conn] > 0
  {
    AlmostLive(s, c, key).(calls := s.calls[c := Call(key, Accepting(true), Untold, Running)])
  }

  predicate CanSubscribe(s: Sys, c: CallNo, key: Key) {
    c !in s.calls && key.conn in s.free && s.free[key.conn] > 0 && key.conn !in s.closed
  }

  lemma SubscribeReplies(steps: seq<Step>, s: Sys, c: CallNo, key: Key)
    requires After(steps) == Some(s) && CanSubscribe(s, c, key)
    ensures After(steps + [Step.Subscribe(c, key)] + [AcceptSend(c, true)]) == Some(Replied(s, c, key))
  {
    hide After, LastSink, Active;
    Extend(steps, s, Step.Subscribe(c, key));
    var s1 := Next(s, Step.Subscribe(c, key));
    Extend(steps + [Step.Subscribe(c, key)], s1, AcceptSend(c, true));
    assert s1.calls[c := Call(key, Accepting(true), Untold, Running)]
           == s.calls[c := Call(key, Accepting(true), Untold, Running)];
  }

  lemma SubscribeAlmost(steps: seq<Step>, s: Sys, c: CallNo, key: Key)
    requires After(steps) == Some(s) && CanSubscribe(s, c, key)
    ensures After(steps + [Step.Subscribe(c, key)] + [AcceptSend(c, true)] + [AcceptTell(c)])
            == Some(AlmostLive(s, c, key))
  {
    hide After, LastSink, Active;
    SubscribeReplies(steps, s, c, key);
    var s1 := Replied(s, c, key);
    Extend(steps + [Step.Subscribe(c, key)] + [AcceptSend(c, true)], s1, AcceptTell(c));
    assert s1.calls[c := Call(key, Accepted(true), Told(true), Running)] == AlmostLive(s, c, key).calls;
  }

  /**
   * A drop that saw its sink active, then lets call `c` store a receiver under the same key, takes that
   * receiver: the new sink is inactive from the start, though nobody unsubscribed or dropped it.
   */
  lemma SlowDropSilencesNewcomer(s: Sys, sink: nat, c: CallNo, added: nat)
    requires sink in s.table.dropping && s.table.dropping[sink] && sink in s.table.sinks
    requires s.table.sinks[sink] in s.calls
    requires StageIs(s, c, Accepted(true)) && s.calls[c].key == s.calls[s.table.sinks[sink]].key
    requires added !in s.table.sinks && added !in s.table.dropping
    ensures Enabled(s, AcceptInsert(c, added)) && Enabled(Next(s, AcceptInsert(c, added)), FinishDrop(sink))
    ensures added in Next(Next(s, AcceptInsert(c, added)), FinishDrop(sink)).table.sinks
    ensures Next(Next(s, AcceptInsert(c, added)), FinishDrop(sink)).table.sinks[added] == c
    ensures added !in Next(Next(s, AcceptInsert(c, added)), FinishDrop(sink)).table.dropping
    ensures !Active(Next(Next(s, AcceptInsert(c, added)), FinishDrop(sink)).table, added)
  {
    hide LastSink;
  }

  /** There is a run in which that happens: an id was repeated and a drop was slow. */
  lemma RepeatedIdRace() returns (steps: seq<Step>, s: Sys)
    ensures After(steps) == Some(s)
    ensures 1 in s.table.sinks && s.table.sinks[1] == 1 && 1 !in s.table.dropping && !Active(s.table, 1)
    ensures forall i :: 0 <= i < |steps| ==> !steps[i].Unsubscribe? && steps[i] != CheckDrop(1)
  {
    hide After, Next, Enabled, LastSink;
    var key := Key("sub", 0, Num(7));
    steps, s := RaceStart(key);
    SubscribeAlmost(steps, s, 1, key);
    steps, s := steps + [Step.Subscribe(1, key)] + [AcceptSend(1, true)] + [AcceptTell(1)], AlmostLive(s, 1, key);
    steps, s := RaceEnd(steps, s, key);
  }

  lemma RaceStart(key: Key) returns (steps: seq<Step>, s: Sys)
    requires key.conn == 0
    ensures After(steps) == Some(s) && CanSubscribe(s, 1, key)
    ensures 0 in s.table.sinks && s.table.sinks == map[0 := 0] && s.table.dropping == map[] && s.table.receivers == {0}
    ensures StageIs(s, 0, Live) && s.calls[0].key == key
    ensures forall i :: 0 <= i < |steps| ==> !steps[i].Unsubscribe? && !steps[i].CheckDrop?
  {
    hide LastSink;
    steps := [];
    assert After(steps) == Some(EMPTY);
    hide After;
    Extend(steps, EMPTY, Connect(0, 2));
    steps, s := steps + [Connect(0, 2)], Next(EMPTY, Connect(0, 2));
    SubscribeAlmost(steps, s, 0, key);
    steps, s := steps + [Step.Subscribe(0, key)] + [AcceptSend(0, true)] + [AcceptTell(0)], AlmostLive(s, 0, key);
    Extend(steps, s, AcceptInsert(0, 0));
    steps, s := steps + [AcceptInsert(0, 0)], Next(s, AcceptInsert(0, 0));
  }

  lemma RaceEnd(before: seq<Step>, s: Sys, key: Key) returns (steps: seq<Step>, s': Sys)
    requires After(before) == Some(s) && StageIs(s, 1, Accepted(true)) && s.calls[1].key == key
    requires s.table.sinks == map[0 := 0] && s.table.dropping == map[] && s.table.receivers == {0}
    requires 0 in s.calls && s.calls[0].key == key
    requires forall i :: 0 <= i < |before| ==> !before[i].Unsubscribe? && !before[i].CheckDrop?
    ensures After(steps) == Some(s')
    ensures 1 in s'.table.sinks && s'.table.sinks[1] == 1 && 1 !in s'.table.dropping && !Active(s'.table, 1)
    ensures forall i :: 0 <= i < |steps| ==> !steps[i].Unsubscribe? && steps[i] != CheckDrop(1)
  {
    hide LastSink, After;
    Extend(before, s, CheckDrop(0));
    var s1 := Next(s, CheckDrop(0));
    assert s1 == s.(table := s.table.(dropping := map[0 := true]));
    hide Next, Enabled;
    SlowDropSilencesNewcomer(s1, 0, 1, 1);
    Extend(before + [CheckDrop(0)], s1, AcceptInsert(1, 1));
    var s2 := Next(s1, AcceptInsert(1, 1));
    Extend(before + [CheckDrop(0)] + [AcceptInsert(1, 1)], s2, FinishDrop(0));
    steps, s' := before + [CheckDrop(0)] + [AcceptInsert(1, 1)] + [FinishDrop(0)], Next(s2, FinishDrop(0));
  }
}
