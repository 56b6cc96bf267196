/**
 * Conservation of subscription permits over every run: on each connection the free permits and the
 * permits held by pending sinks and by groups of cloned sinks add up to the limit.
 */
module SubscriptionPermits {
  import opened Wrappers
  import opened ServerSubscriptions
  import opened SubscriptionTable

  ghost predicate HasSink(sinks: map<nat, CallNo>, c: CallNo) {
    exists sink :: sink in sinks && sinks[sink] == c
  }

  /** A pending sink holds a permit; the clones of a live sink share one. */
  ghost predicate Holds(call: Call, hasSink: bool) {
    match call.stage
    case Live => hasSink
    case Over => false
    case _ => true
  }

  /** The connection one of whose permits call `c` holds. */
  ghost function Holder(s: Sys, c: CallNo): (conn: Option<Conn>) {
    if c in s.calls && Holds(s.calls[c], HasSink(s.table.sinks, c)) then Some(s.calls[c].key.conn) else None
  }

  /** The calls that hold a permit of `conn`. */
  ghost function Held(s: Sys, conn: Conn): (held: set<CallNo>) {
    set c | c in s.calls && Holder(s, c) == Some(conn)
  }

  ghost predicate Balanced(s: Sys, conn: Conn) {
    conn in s.max ==> conn in s.free && s.free[conn] + |Held(s, conn)| == s.max[conn]
  }

  ghost predicate PermitsOk(s: Sys) {
    && (forall conn :: conn in s.free ==> conn in s.max)
    && (forall c :: c in s.calls ==> s.calls[c].key.conn in s.max)
    && (forall conn :: Balanced(s, conn))
  }

  // ---------------------------------------------------------------- what a step does to the permits

  ghost predicate SameHolders(s: Sys, s': Sys) {
    forall a :: Holder(s', a) == Holder(s, a)
  }

  ghost predicate OtherHolders(s: Sys, s': Sys, c: CallNo) {
    forall a :: a != c ==> Holder(s', a) == Holder(s, a)
  }

  ghost predicate ConnsKnown(s: Sys, s': Sys) {
    s'.max == s.max && forall c :: c in s'.calls ==> s'.calls[c].key.conn in s.max
  }

  lemma NobodyMoved(s: Sys, s': Sys)
    requires PermitsOk(s) && ConnsKnown(s, s') && s'.free == s.free && SameHolders(s, s')
    ensures PermitsOk(s')
  {
    forall conn
      ensures Balanced(s', conn)
    {
      assert Balanced(s, conn);
      assert forall a :: Holder(s', a) == Holder(s, a);
      hide Holder;
      assert Held(s', conn) == Held(s, conn) by { HeldIs(s, conn); HeldIs(s', conn); }
    }
  }

  lemma HeldIs(s: Sys, conn: Conn)
    ensures forall a :: a in Held(s, conn) <==> Holder(s, a) == Some(conn)
  {
  }

  lemma HeldGains(s: Sys, s': Sys, c: CallNo, conn: Conn, k: Conn)
    requires OtherHolders(s, s', c) || OtherHolders(s', s, c)
    requires Holder(s, c) == None && Holder(s', c) == Some(conn)
    ensures |Held(s', k)| == |Held(s, k)| + if k == conn then 1 else 0
  {
    HeldIs(s, k);
    HeldIs(s', k);
    hide Holder, Held;
    assert Held(s', k) == if k == conn then Held(s, k) + {c} else Held(s, k);
  }

  lemma OneTook(s: Sys, s': Sys, c: CallNo, conn: Conn)
    requires PermitsOk(s) && ConnsKnown(s, s') && OtherHolders(s, s', c)
    requires Holder(s, c) == None && Holder(s', c) == Some(conn)
    requires conn in s.free && s.free[conn] > 0 && s'.free == s.free[conn := s.free[conn] - 1]
    ensures PermitsOk(s')
  {
    forall k
      ensures Balanced(s', k)
    {
      hide Holder, Held;
      assert Balanced(s, k);
      HeldGains(s, s', c, conn, k);
    }
  }

  lemma OneGaveBack(s: Sys, s': Sys, c: CallNo, conn: Conn)
    requires PermitsOk(s) && ConnsKnown(s, s') && OtherHolders(s, s', c)
    requires Holder(s, c) == Some(conn) && Holder(s', c) == None
    requires conn in s.free && s'.free == s.free[conn := s.free[conn] + 1]
    ensures PermitsOk(s')
  {
    forall k
      ensures Balanced(s', k)
    {
      hide Holder, Held;
      assert Balanced(s, k);
      HeldGains(s', s, c, conn, k);
    }
  }

  // ---------------------------------------------------------------- the steps

  lemma ConnectPermits(s: Sys, conn: Conn, limit: nat)
    requires PermitsOk(s) && Enabled(s, Connect(conn, limit))
    ensures PermitsOk(Next(s, Connect(conn, limit)))
  {
    var s' := Next(s, Connect(conn, limit));
    assert s'.calls == s.calls && s'.table == s.table;
    assert forall a :: Holder(s', a) == Holder(s, a);
    forall k
      ensures Balanced(s', k)
    {
      hide Holder;
      assert Balanced(s, k);
      HeldIs(s, k);
      HeldIs(s', k);
      assert Held(s', k) == Held(s, k);
      if k == conn {
        assert Held(s, k) == {} by { NoneHeld(s, conn); }
      }
    }
  }

  lemma NoneHeld(s: Sys, conn: Conn)
    requires PermitsOk(s) && conn !in s.max
    ensures Held(s, conn) == {}
  {
  }

  lemma SubscribePermits(s: Sys, c: CallNo, key: Key)
    requires PermitsOk(s) && Enabled(s, Step.Subscribe(c, key))
    ensures PermitsOk(SubscribeNext(s, c, key))
  {
    hide PermitsOk, LastSink;
    var s' := SubscribeNext(s, c, key);
    assert ConnsKnown(s, s') by { SubscribeConns(s, c, key); }
    if s.free[key.conn] > 0 {
      OneTook(s, s', c, key.conn);
    } else {
      NobodyMoved(s, s');
    }
  }

  lemma SubscribeConns(s: Sys, c: CallNo, key: Key)
    requires PermitsOk(s) && Enabled(s, Step.Subscribe(c, key))
    ensures ConnsKnown(s, SubscribeNext(s, c, key))
  {
  }

  /** A pending sink ends: its permit is free again. */
  lemma EndPermits(s: Sys, c: CallNo, told: Told)
    requires PermitsOk(s) && c in s.calls && s.calls[c].stage != Live && s.calls[c].stage != Over
    ensures PermitsOk(EndPending(s, c, told))
  {
    assert Balanced(s, s.calls[c].key.conn);
    OneGaveBack(s, EndPending(s, c, told), c, s.calls[c].key.conn);
  }

  /** A call moves on and keeps what it holds. */
  lemma MovePermits(s: Sys, s': Sys, c: CallNo)
    requires PermitsOk(s) && c in s.calls && c in s'.calls && s'.calls == s.calls[c := s'.calls[c]]
    requires s'.calls[c].key == s.calls[c].key && s'.max == s.max && s'.free == s.free
    requires forall a :: a != c ==> HasSink(s'.table.sinks, a) == HasSink(s.table.sinks, a)
    requires Holds(s.calls[c], HasSink(s.table.sinks, c)) == Holds(s'.calls[c], HasSink(s'.table.sinks, c))
    ensures PermitsOk(s')
  {
    NobodyMoved(s, s');
  }

  lemma AcceptSendPermits(s: Sys, c: CallNo, fits: bool)
    requires PermitsOk(s) && Enabled(s, AcceptSend(c, fits))
    ensures PermitsOk(AcceptSendNext(s, c, fits))
  {
    hide PermitsOk, EndPending;
    if s.calls[c].key.conn in s.closed {
      EndPermits(s, c, Forgotten);
    } else {
      MovePermits(s, AcceptSendNext(s, c, fits), c);
    }
  }

  lemma AcceptTellPermits(s: Sys, c: CallNo)
    requires PermitsOk(s) && Enabled(s, AcceptTell(c))
    ensures PermitsOk(AcceptTellNext(s, c))
  {
    hide PermitsOk, EndPending;
    if s.calls[c].end != Running {
      EndPermits(s, c, Forgotten);
    } else {
      MovePermits(s, AcceptTellNext(s, c), c);
    }
  }

  lemma AcceptInsertPermits(s: Sys, c: CallNo, sink: nat)
    requires PermitsOk(s) && Enabled(s, AcceptInsert(c, sink))
    ensures PermitsOk(AcceptInsertNext(s, c, sink))
  {
    hide PermitsOk, EndPending;
    if s.calls[c].stage.fits {
      AddedSink(s.table.sinks, sink, c);
      MovePermits(s, AcceptInsertNext(s, c, sink), c);
    } else {
      EndPermits(s, c, s.calls[c].told);
    }
  }

  lemma AddedSink(sinks: map<nat, CallNo>, sink: nat, c: CallNo)
    requires sink !in sinks
    ensures forall a :: HasSink(sinks[sink := c], a) <==> HasSink(sinks, a) || a == c
  {
    assert sinks[sink := c][sink] == c;
    forall a | HasSink(sinks, a)
      ensures HasSink(sinks[sink := c], a)
    {
      var other :| other in sinks && sinks[other] == a;
      assert sinks[sink := c][other] == a;
    }
  }

  lemma RemovedSink(t: Table, sink: nat)
    requires sink in t.sinks
    ensures forall a ::
            HasSink(t.sinks - {sink}, a) <==> HasSink(t.sinks, a) && (a != t.sinks[sink] || !LastSink(t, sink))
  {
    var left := t.sinks - {sink};
    forall a | HasSink(t.sinks, a) && (a != t.sinks[sink] || !LastSink(t, sink))
      ensures HasSink(left, a)
    {
      var other :| other in t.sinks && t.sinks[other] == a && other != sink;
      assert other in left && left[other] == a;
    }
  }

  lemma FinishDropPermits(s: Sys, sink: nat)
    requires PermitsOk(s) && TableOk(s.calls, s.table) && Enabled(s, FinishDrop(sink))
    ensures PermitsOk(FinishDropNext(s, sink))
  {
    var c, s' := s.table.sinks[sink], FinishDropNext(s, sink);
    assert s.calls[c].stage == Live;
    assert Balanced(s, s.calls[c].key.conn);
    assert ConnsKnown(s, s');
    hide PermitsOk, TableOk;
    RemovedSink(s.table, sink);
    assert HasSink(s.table.sinks, c);
    hide HasSink;
    if LastSink(s.table, sink) {
      OneGaveBack(s, s', c, s.calls[c].key.conn);
    } else {
      NobodyMoved(s, s');
    }
  }

  lemma ClonePermits(s: Sys, sink: nat, copy: nat)
    requires PermitsOk(s) && Enabled(s, Clone(sink, copy))
    ensures PermitsOk(Next(s, Clone(sink, copy)))
  {
    hide PermitsOk;
    AddedSink(s.table.sinks, copy, s.table.sinks[sink]);
    assert HasSink(s.table.sinks, s.table.sinks[sink]);
    SinksPermits(s, Next(s, Clone(sink, copy)));
  }

  /** The calls are as before, and so are the calls that have a sink. */
  lemma SinksPermits(s: Sys, s': Sys)
    requires PermitsOk(s) && s'.calls == s.calls && s'.max == s.max && s'.free == s.free
    requires forall a :: HasSink(s'.table.sinks, a) == HasSink(s.table.sinks, a)
    ensures PermitsOk(s')
  {
    NobodyMoved(s, s');
  }

  lemma CallStepPermits(s: Sys, step: Step)
    requires PermitsOk(s) && Enabled(s, step)
    requires step.RejectSend? || step.Resolve? || step.Abort?
    ensures PermitsOk(Next(s, step))
  {
    hide PermitsOk;
    MovePermits(s, Next(s, step), step.c);
  }

  lemma OtherPermits(s: Sys, step: Step)
    requires PermitsOk(s) && Enabled(s, step)
    requires step.Disconnect? || step.Return? || step.Close? || step.CheckSend? || step.FinishSend? || step.Unsubscribe?
             || step.CheckDrop? || step.SendOther?
    ensures PermitsOk(Next(s, step))
  {
    hide PermitsOk, LastSink, Active, HasSink, Put, RemoveKey;
    hide Next, Enabled;
    SinksStay(s, step);
    SinksPermits(s, Next(s, step));
  }

  lemma SinksStay(s: Sys, step: Step)
    requires Enabled(s, step)
    requires step.Disconnect? || step.Return? || step.Close? || step.CheckSend? || step.FinishSend? || step.Unsubscribe?
             || step.CheckDrop? || step.SendOther?
    ensures Next(s, step).table.sinks == s.table.sinks && Next(s, step).calls == s.calls
    ensures Next(s, step).max == s.max && Next(s, step).free == s.free
  {
    hide LastSink;
  }

  lemma StepKeepsPermits(s: Sys, step: Step)
    requires PermitsOk(s) && TableOk(s.calls, s.table) && Enabled(s, step)
    ensures PermitsOk(Next(s, step))
  {
    hide PermitsOk, TableOk, EndPending, Put, SetCall, LastSink, Active, RemoveKey;
    hide SubscribeNext, AcceptSendNext, AcceptTellNext, AcceptInsertNext, ResolveNext, FinishDropNext, CheckSendNext;
    match step {
      case Connect(conn, limit) => ConnectPermits(s, conn, limit);
      case Subscribe(c, key) => SubscribePermits(s, c, key);
      case AcceptSend(c, fits) => AcceptSendPermits(s, c, fits);
      case AcceptTell(c) => AcceptTellPermits(s, c);
      case AcceptInsert(c, sink) => AcceptInsertPermits(s, c, sink);
      case RejectTell(c) => EndPermits(s, c, if s.calls[c].end == Running then Told(false) else Forgotten);
      case DropPending(c) => EndPermits(s, c, Forgotten);
      case RejectSend(_) => CallStepPermits(s, step);
      case Resolve(_) => CallStepPermits(s, step);
      case Abort(_) => CallStepPermits(s, step);
      case Clone(sink, copy) => ClonePermits(s, sink, copy);
      case FinishDrop(sink) => FinishDropPermits(s, sink);
      case _ => OtherPermits(s, step);
    }
  }

  // ---------------------------------------------------------------- every run

  lemma {:induction false} RunKeepsPermits(steps: seq<Step>)
    ensures After(steps).Some? ==> PermitsOk(After(steps).value)
  {
    hide Next, Enabled;
    if steps != [] {
      var s := After(steps[..|steps| - 1]);
      RunKeepsPermits(steps[..|steps| - 1]);
      RunKeepsTable(steps[..|steps| - 1]);
      if s.Some? && Enabled(s.value, steps[|steps| - 1]) {
        StepKeepsPermits(s.value, steps[|steps| - 1]);
      }
    }
  }

  /**
   * In every run the free permits of a connection and those held add up to its limit, so it never has more
   * pending and live subscriptions than that, and a further subscribe call is turned away exactly when it
   * has that many.
   */
  lemma PermitsConserved(steps: seq<Step>, s: Sys, conn: Conn)
    requires After(steps) == Some(s) && conn in s.max
    ensures conn in s.free && s.free[conn] + |Held(s, conn)| == s.max[conn]
    ensures |Held(s, conn)| <= s.max[conn]
    ensures forall c, key: Key :: c !in s.calls && key.conn == conn
                             ==> (StageIs(SubscribeNext(s, c, key), c, Over) <==> |Held(s, conn)| == s.max[conn])
  {
    hide After, Holder;
    RunKeepsPermits(steps);
    assert Balanced(s, conn);
  }
}
