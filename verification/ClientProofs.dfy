/** Every step of the async client keeps the invariant. */
module ClientProofs {
  import opened Wrappers
  import opened Ids
  import opened ClientMessages
  import opened BatchReplies
  import opened RequestManager
  import opened ClientSections
  import opened ClientTasks
  import opened ClientSystem
  import opened ClientInvariant

  // ---------------------------------------------------------------- what a step leaves alone

  /** The two states say the same about an id. */
  predicate SameId(s: Sys, s': Sys, id: Id) {
    && (id in s.m.requests <==> id in s'.m.requests)
    && (id in s.m.requests ==> s'.m.requests[id] == s.m.requests[id])
    && (ById(id) in s.wire <==> ById(id) in s'.wire)
    && (ById(id) in s.wire ==> s'.wire[ById(id)].req == s.wire[ById(id)].req)
    && s.sent[ById(id)] == s'.sent[ById(id)]
  }

  predicate SameRange(s: Sys, s': Sys, ids: Range) {
    && (ids in s.m.batches <==> ids in s'.m.batches)
    && (ids in s.m.batches ==> s'.m.batches[ids] == s.m.batches[ids])
    && (ByRange(ids) in s.wire <==> ByRange(ids) in s'.wire)
    && (ByRange(ids) in s.wire ==> s'.wire[ByRange(ids)].req == s.wire[ByRange(ids)].req)
    && s.sent[ByRange(ids)] == s'.sent[ByRange(ids)]
  }

  /** The two states say the same about a caller. */
  predicate SameCaller(s: Sys, s': Sys, n: nat) {
    && (Op(n) in s.queue <==> Op(n) in s'.queue)
    && (Op(n) in s.queue ==> s'.queue[Op(n)] == s.queue[Op(n)])
    && Uses(s.log, n) == Uses(s'.log, n)
  }

  predicate SameRegistry(s: Sys, s': Sys) {
    s'.kind == s.kind && s'.issued == s.issued && s'.drawn == s.drawn && s'.calls == s.calls
  }

  /** Only ids of the numbers in focus, ranges that start there and callers with those numbers may differ. */
  ghost predicate OnlyIn(focus: set<nat>, s: Sys, s': Sys) {
    && (forall id :: (forall n :: n in focus ==> IdOf(s.kind, n) != id) ==> SameId(s, s', id))
    && (forall ids: Range :: ids.start !in focus ==> SameRange(s, s', ids))
    && (forall n: nat :: n !in focus ==> SameCaller(s, s', n))
  }

  /** A subscription and its unsubscribe number are both in focus or both outside. */
  ghost predicate Paired(focus: set<nat>, s: Sys) {
    && (forall n :: n in focus ==> n in s.calls)
    && (forall n :: n in s.calls && s.calls[n].Subscribing? ==> (n in focus <==> s.calls[n].unsub in focus))
  }

  lemma FactsKept(focus: set<nat>, s: Sys, s': Sys, n: nat)
    requires SameRegistry(s, s') && OnlyIn(focus, s, s')
    requires n !in focus && n < TWO_64 && forall a :: a in focus ==> a < TWO_64
    ensures FactsOf(s', n) == FactsOf(s, n)
  {
    hide IdOf, Uses;
    forall a | a in focus ensures IdOf(s.kind, a) != IdOf(s.kind, n) {
      IdsApart(s.kind, a, n);
    }
    assert SameId(s, s', IdOf(s.kind, n));
    assert SameCaller(s, s', n);
  }

  lemma BatchFactsKept(focus: set<nat>, s: Sys, s': Sys, n: nat, ids: Range)
    requires SameRegistry(s, s') && OnlyIn(focus, s, s')
    requires n !in focus && ids.start == n
    ensures BatchFactsOf(s', n, ids) == BatchFactsOf(s, n, ids)
  {
    hide IdOf, Uses;
    assert SameRange(s, s', ids);
    assert SameCaller(s, s', n);
  }

  lemma NumbersKept(focus: set<nat>, s: Sys, s': Sys)
    requires SameRegistry(s, s') && OnlyIn(focus, s, s') && Paired(focus, s)
    requires RegistryOk(s) && NumbersOk(s)
    requires forall n :: n in focus ==> NumberOk(s', n)
    ensures NumbersOk(s')
  {
    hide FactsOf, BatchFactsOf, OnlyIn, NumberOk;
    forall n | n in s'.calls ensures NumberOk(s', n) {
      if n !in focus {
        FactsKept(focus, s, s', n);
        match s.calls[n] {
          case Subscribing(u, _) => FactsKept(focus, s, s', u);
          case BatchCall(len) =>
            if Fits(n, len) {
              BatchFactsKept(focus, s, s', n, Range(n, n + len));
            }
          case _ =>
        }
        NumberKept(s, s', n);
      }
    }
  }

  /** Ids, ranges and keys that are new to the state must be those of known numbers. */
  lemma KnownKept(focus: set<nat>, s: Sys, s': Sys)
    requires SameRegistry(s, s') && OnlyIn(focus, s, s') && Paired(focus, s) && RegistryOk(s) && AllKnown(s)
    requires forall n ::
             n in focus && s.calls[n].BatchCall?
             ==> IdOf(s.kind, n) !in s'.m.requests && ById(IdOf(s.kind, n)) !in s'.wire
                 && ById(IdOf(s.kind, n)) !in s'.sent
    requires forall ids: Range ::
             ids.start in focus && (ids in s'.m.batches || ByRange(ids) in s'.wire || ByRange(ids) in s'.sent)
             ==> KnownRange(s, ids)
    ensures AllKnown(s')
  {
    hide IdOf;
    forall n | n in focus && !s.calls[n].BatchCall? ensures KnownId(s', IdOf(s.kind, n)) {
      IdFacts(s.kind, n);
    }
    forall id | id in s'.m.requests || ById(id) in s'.wire || ById(id) in s'.sent ensures KnownId(s', id) {
      if forall n :: n in focus ==> IdOf(s.kind, n) != id {
        assert SameId(s, s', id);
        assert ById(id) in s.wire ==> KnownKey(s, ById(id));
        assert ById(id) in s.sent ==> KnownKey(s, ById(id));
      }
    }
    forall ids: Range | ids in s'.m.batches || ByRange(ids) in s'.wire || ByRange(ids) in s'.sent
      ensures KnownRange(s', ids) {
      if ids.start !in focus {
        assert SameRange(s, s', ids);
        assert ByRange(ids) in s.wire ==> KnownKey(s, ByRange(ids));
        assert ByRange(ids) in s.sent ==> KnownKey(s, ByRange(ids));
      }
    }
  }

  /** Messages without a caller stay as they should be when no abandoned subscription is in focus. */
  lemma InternalKept(focus: set<nat>, s: Sys, s': Sys, msg: FrontToBack)
    requires SameRegistry(s, s') && OnlyIn(focus, s, s') && RegistryOk(s) && Paired(focus, s)
    requires InternalOk(s, msg)
    requires forall n ::
             n in focus && s.calls[n].Subscribing? ==> !Abandoned(FactsOf(s, n), FactsOf(s, s.calls[n].unsub))
    ensures InternalOk(s', msg)
  {
    hide IdOf, FactsOf, OnlyIn, Abandoned;
    if !IsPlain(msg) {
      var u := TryParseInnerAsNumber(msg.id).value;
      var n := s.calls[u].sub;
      assert n !in focus && u !in focus;
      FactsKept(focus, s, s', n);
      FactsKept(focus, s, s', u);
    }
  }

  /** The parts of the invariant about numbers and ids, from those in focus alone. */
  ghost predicate Focused(focus: set<nat>, s: Sys, s': Sys) {
    && SameRegistry(s, s') && OnlyIn(focus, s, s') && Paired(focus, s)
    && (forall n :: n in focus ==> NumberOk(s', n))
    && (forall n :: n in focus && s.calls[n].BatchCall? ==>
          IdOf(s.kind, n) !in s'.m.requests && ById(IdOf(s.kind, n)) !in s'.wire && ById(IdOf(s.kind, n)) !in s'.sent)
    && (forall ids: Range ::
        ids.start in focus && (ids in s'.m.batches || ByRange(ids) in s'.wire || ByRange(ids) in s'.sent) ==>
          KnownRange(s, ids))
  }

  lemma Assemble(focus: set<nat>, s: Sys, s': Sys)
    requires Inv(s) && Focused(focus, s, s')
    requires QueueOk(s') && WireOk(s') && LogOk(s') && ReadingOk(s') && ExactIndex(s'.m)
    ensures Inv(s')
  {
    hide OnlyIn, NumberOk, ExactIndex, QueueOk, WireOk, LogOk, ReadingOk;
    NumbersKept(focus, s, s');
    KnownKept(focus, s, s');
  }

  /** The queue stays as it should be when messages only leave it and no abandoned subscription is in focus. */
  lemma QueueKept(focus: set<nat>, s: Sys, s': Sys)
    requires SameRegistry(s, s') && OnlyIn(focus, s, s') && RegistryOk(s) && Paired(focus, s) && QueueOk(s)
    requires forall k :: k in s'.queue ==> k in s.queue && s'.queue[k] == s.queue[k]
    requires s'.nextInternal == s.nextInternal
    requires forall n ::
             n in focus && s.calls[n].Subscribing? ==> !Abandoned(FactsOf(s, n), FactsOf(s, s.calls[n].unsub))
    ensures QueueOk(s')
  {
    hide OnlyIn, InternalOk, FactsOf, Abandoned;
    forall k | k in s'.queue && k.Internal? ensures InternalOk(s', s'.queue[k]) {
      InternalKept(focus, s, s', s.queue[k]);
    }
  }

  lemma LogSame(s: Sys, s': Sys)
    requires LogOk(s) && s'.log == s.log && s'.kind == s.kind
    requires forall n :: n in s.calls ==> n in s'.calls && s'.calls[n] == s.calls[n]
    requires forall k :: k in s.answered ==> k in s'.answered && s'.answered[k] == s.answered[k]
    ensures LogOk(s')
  {
    hide Replies, IdOf;
    forall i | 0 <= i < |s'.log|
      ensures OwnReply(s'.kind, s'.calls, s'.answered, s'.log[i])
    {
      assert OwnReply(s.kind, s.calls, s.answered, s.log[i]);
    }
  }

  lemma WireSame(s: Sys, s': Sys)
    requires WireOk(s) && s'.kind == s.kind && s'.wire == s.wire && s'.busy == s.busy
    requires s'.answered == s.answered && s'.sent == s.sent
    ensures WireOk(s')
  {
    hide Conforms;
  }

  lemma ReadingSame(s: Sys, s': Sys)
    requires ReadingOk(s) && s'.kind == s.kind && s'.reading == s.reading
    requires forall k ::
             k in s.wire && k.ByRange? && s.wire[k].stage.Answered? ==> k in s'.wire && s'.wire[k] == s.wire[k]
    ensures ReadingOk(s')
  {
    hide FullReply, Replies, RunningRange;
  }

  // ---------------------------------------------------------------- steps that change no facts

  function Drawn(s: Sys): (s': Sys) {
    s.(issued := s.issued + 1, drawn := s.drawn + {s.issued})
  }

  lemma DrawFacts(s: Sys, n: nat, ids: Range)
    ensures FactsOf(Drawn(s), n) == FactsOf(s, n)
    ensures BatchFactsOf(Drawn(s), n, ids) == BatchFactsOf(s, n, ids)
  {
  }

  lemma DrawKeeps(s: Sys)
    requires Inv(s) && s.issued < TWO_64
    ensures Inv(Drawn(s))
  {
    hide WireOk, LogOk, ReadingOk, ExactIndex, IdOf, FactsOf, BatchFactsOf, NumberOk, Abandoned, KnownRange;
    var s' := Drawn(s);
    forall n | n in s'.calls ensures NumberOk(s', n) {
      DrawFacts(s, n, Range(0, 0));
      match s.calls[n] {
        case Subscribing(u, _) => DrawFacts(s, u, Range(0, 0));
        case BatchCall(len) =>
          if Fits(n, len) {
            DrawFacts(s, n, Range(n, n + len));
          }
        case _ =>
      }
      NumberKept(s, s', n);
    }
    forall k | k in s'.queue && k.Internal? ensures InternalOk(s', s'.queue[k]) {
      assert InternalOk(s, s.queue[k]);
      if !IsPlain(s.queue[k]) {
        var u := TryParseInnerAsNumber(s.queue[k].id).value;
        DrawFacts(s, s.calls[u].sub, Range(0, 0));
        DrawFacts(s, u, Range(0, 0));
      }
    }
    DrawKnown(s);
    LogSame(s, s');
    WireSame(s, s');
    ReadingSame(s, s');
  }

  lemma DrawKnown(s: Sys)
    requires AllKnown(s)
    ensures AllKnown(Drawn(s))
  {
    hide IdOf;
  }

  lemma LeaveKeeps(s: Sys, n: nat)
    requires Inv(s)
    ensures Inv(s.(gone := s.gone + {n}))
  {
    hide NumbersOk, AllKnown, QueueOk, WireOk, LogOk, ReadingOk, ExactIndex, IdOf, Uses;
    var s' := s.(gone := s.gone + {n});
    assert OnlyIn({}, s, s');
    QueueKept({}, s, s');
    LogSame(s, s');
    WireSame(s, s');
    ReadingSame(s, s');
    Assemble({}, s, s');
  }

  /** Putting plain messages into the send queue. */
  lemma {:induction false} EnqueueKeeps(s: Sys, msgs: seq<FrontToBack>)
    requires Inv(s) && OnlyPlain(msgs)
    ensures Inv(Enqueue(s, msgs))
    decreases |msgs|
  {
    hide Inv;
    if msgs != [] {
      EnqueueOneKeeps(s, msgs[0]);
      EnqueueKeeps(Enqueued(s, msgs[0]), msgs[1..]);
    }
  }

  function Enqueued(s: Sys, msg: FrontToBack): (s': Sys) {
    s.(queue := s.queue[Internal(s.nextInternal) := msg], nextInternal := s.nextInternal + 1)
  }

  lemma EnqueueOneKeeps(s: Sys, msg: FrontToBack)
    requires Inv(s) && InternalOk(s, msg)
    ensures Inv(Enqueued(s, msg))
  {
    hide NumbersOk, AllKnown, WireOk, LogOk, ReadingOk, ExactIndex, IdOf, Uses, InternalOk;
    var s' := Enqueued(s, msg);
    assert OnlyIn({}, s, s');
    forall k | k in s'.queue && k.Internal? ensures InternalOk(s', s'.queue[k]) {
      InternalKept({}, s, s', if k.k == s.nextInternal then msg else s.queue[k]);
    }
    LogSame(s, s');
    WireSame(s, s');
    ReadingSame(s, s');
    Assemble({}, s, s');
  }

  /** A flight moves on to its next stage. */
  function Staged(s: Sys, k: WireKey, stage: Stage, busy: Option<WireKey>): (s': Sys)
    requires k in s.wire
  {
    s.(wire := s.wire[k := s.wire[k].(stage := stage)], busy := busy,
       answered := if stage.Answered? then s.answered[k := stage.reply] else s.answered)
  }

  lemma StageKeeps(s: Sys, k: WireKey, stage: Stage, busy: Option<WireKey>)
    requires Inv(s) && k in s.wire && !s.wire[k].stage.Answered?
    requires stage == AtServer || (stage.Answered? && Conforms(s.kind, s.wire[k].req, stage.reply))
    requires busy == None || (busy == s.busy && s.wire[k].stage == AtServer)
    ensures Inv(Staged(s, k, stage, busy))
  {
    hide NumbersOk, AllKnown, QueueOk, WireOk, LogOk, ReadingOk, ExactIndex, IdOf, Uses, Conforms;
    var s' := Staged(s, k, stage, busy);
    NotAnswered(s, k);
    StageWire(s, k, stage, busy);
    assert OnlyIn({}, s, s');
    QueueKept({}, s, s');
    LogSame(s, s');
    ReadingSame(s, s');
    Assemble({}, s, s');
  }

  lemma NotAnswered(s: Sys, k: WireKey)
    requires WireOk(s) && k in s.wire && !s.wire[k].stage.Answered?
    ensures k !in s.answered && k in s.sent
  {
    hide Conforms;
  }

  lemma StageWire(s: Sys, k: WireKey, stage: Stage, busy: Option<WireKey>)
    requires WireOk(s) && k in s.wire && k in s.sent && !s.wire[k].stage.Answered?
    requires stage == AtServer || (stage.Answered? && Conforms(s.kind, s.wire[k].req, stage.reply))
    requires busy == None || (busy == s.busy && s.wire[k].stage == AtServer)
    ensures WireOk(Staged(s, k, stage, busy))
  {
    hide Conforms;
  }

  /** The read task moves without touching anything else. */
  lemma ReadingKeeps(s: Sys, reading: Reading)
    requires Inv(s) && ReadingOk(s.(reading := reading))
    ensures Inv(s.(reading := reading))
  {
    hide NumbersOk, AllKnown, QueueOk, WireOk, LogOk, ReadingOk, ExactIndex, IdOf, Uses;
    var s' := s.(reading := reading);
    assert OnlyIn({}, s, s');
    QueueKept({}, s, s');
    LogSame(s, s');
    WireSame(s, s');
    Assemble({}, s, s');
  }

  // ---------------------------------------------------------------- issuing an operation

  lemma {:induction false} NoUse(log: seq<Delivery>, n: nat)
    requires forall i :: 0 <= i < |log| ==> log[i].to != n
    ensures Uses(log, n) == 0
  {
    if log != [] {
      NoUse(log[..|log| - 1], n);
    }
  }

  /** Nothing is known about a number before it is used. */
  lemma FreshFacts(s: Sys, n: nat, ids: Range)
    requires Inv(s) && n < TWO_64 && n !in s.calls
    ensures FactsOf(s, n) == Facts(None, None, None, 0, 0)
    ensures ids.start == n ==> BatchFactsOf(s, n, ids) == BatchFacts(None, None, None, 0, 0)
  {
    hide IdOf, NumbersOk, ExactIndex, WireOk, ReadingOk, RegistryOk, InternalOk;
    IdFacts(s.kind, n);
    var id := IdOf(s.kind, n);
    assert !KnownId(s, id) && !KnownKey(s, ById(id));
    assert ids.start == n ==> !KnownRange(s, ids) && !KnownKey(s, ByRange(ids));
    forall i | 0 <= i < |s.log| ensures s.log[i].to != n {
      assert OwnReply(s.kind, s.calls, s.answered, s.log[i]);
    }
    NoUse(s.log, n);
  }

  function Issued(s: Sys, calls: map<nat, Call>, n: nat, msg: FrontToBack): (s': Sys) {
    s.(drawn := s.drawn - (calls.Keys - s.calls.Keys), calls := calls, queue := s.queue[Op(n) := msg])
  }

  lemma IssuedFacts(s: Sys, calls: map<nat, Call>, n: nat, msg: FrontToBack, a: nat, ids: Range)
    ensures a != n ==> FactsOf(Issued(s, calls, n, msg), a) == FactsOf(s, a)
    ensures a != n ==> BatchFactsOf(Issued(s, calls, n, msg), a, ids) == BatchFactsOf(s, a, ids)
    ensures FactsOf(Issued(s, calls, n, msg), n) == FactsOf(s, n).(queued := Some(msg))
    ensures ids.start == n
            ==> BatchFactsOf(Issued(s, calls, n, msg), n, ids) == BatchFactsOf(s, n, ids).(queued := Some(msg))
  {
    hide IdOf, Uses;
  }

  lemma IssuedNumbers(s: Sys, calls: map<nat, Call>, n: nat, msg: FrontToBack)
    requires Inv(s) && n !in s.calls && n in calls && s.calls.Keys <= calls.Keys
    requires forall a :: a in s.calls ==> calls[a] == s.calls[a]
    requires forall a :: a in calls && a !in s.calls ==> NumberOk(Issued(s, calls, n, msg), a)
    ensures NumbersOk(Issued(s, calls, n, msg))
  {
    hide FactsOf, BatchFactsOf, NumberOk, ExactIndex, AllKnown, QueueOk, WireOk, ReadingOk, LogOk;
    var s' := Issued(s, calls, n, msg);
    forall a | a in s'.calls ensures NumberOk(s', a) {
      if a in s.calls {
        IssuedFacts(s, calls, n, msg, a, Range(0, 0));
        match s.calls[a] {
          case Subscribing(u, _) => IssuedFacts(s, calls, n, msg, u, Range(0, 0));
          case BatchCall(len) =>
            if Fits(a, len) {
              IssuedFacts(s, calls, n, msg, a, Range(a, a + len));
            }
          case _ =>
        }
        NumberKept(s, s', a);
      }
    }
  }

  lemma IssuedQueue(s: Sys, calls: map<nat, Call>, n: nat, msg: FrontToBack)
    requires RegistryOk(s) && QueueOk(s) && n !in s.calls && n in calls && s.calls.Keys <= calls.Keys
    requires !calls[n].UnsubscribeOf?
    requires forall a :: a in s.calls ==> calls[a] == s.calls[a]
    ensures QueueOk(Issued(s, calls, n, msg))
  {
    hide FactsOf, Abandoned, IdOf;
    var s' := Issued(s, calls, n, msg);
    forall k | k in s'.queue && k.Internal? ensures InternalOk(s', s'.queue[k]) {
      assert InternalOk(s, s.queue[k]);
      if !IsPlain(s.queue[k]) {
        var u := TryParseInnerAsNumber(s.queue[k].id).value;
        IssuedFacts(s, calls, n, msg, s.calls[u].sub, Range(0, 0));
        IssuedFacts(s, calls, n, msg, u, Range(0, 0));
      }
    }
  }

  lemma IssuedKnown(s: Sys, calls: map<nat, Call>, n: nat, msg: FrontToBack)
    requires AllKnown(s) && s.calls.Keys <= calls.Keys
    requires forall a :: a in s.calls ==> calls[a] == s.calls[a]
    ensures AllKnown(Issued(s, calls, n, msg))
  {
    hide IdOf;
  }

  lemma IssuedKeeps(s: Sys, calls: map<nat, Call>, n: nat, msg: FrontToBack)
    requires Inv(s) && n !in s.calls && n in calls && s.calls.Keys <= calls.Keys && !calls[n].UnsubscribeOf?
    requires forall a :: a in s.calls ==> calls[a] == s.calls[a]
    requires RegistryOk(Issued(s, calls, n, msg))
    requires forall a :: a in calls && a !in s.calls ==> NumberOk(Issued(s, calls, n, msg), a)
    ensures Inv(Issued(s, calls, n, msg))
  {
    hide NumberOk, NumbersOk, RegistryOk, AllKnown, QueueOk, WireOk, LogOk, ReadingOk, ExactIndex;
    var s' := Issued(s, calls, n, msg);
    IssuedNumbers(s, calls, n, msg);
    IssuedQueue(s, calls, n, msg);
    IssuedKnown(s, calls, n, msg);
    LogSame(s, s');
    WireSame(s, s');
    ReadingSame(s, s');
  }

  lemma IssueCallKeeps(s: Sys, n: nat)
    requires Inv(s) && n in s.drawn
    ensures Inv(Next(s, IssueCall(n)))
  {
    hide FactsOf, IdOf, NumbersOk, AllKnown, QueueOk, WireOk, LogOk, ReadingOk, ExactIndex, CallMessage;
    var calls := s.calls[n := SingleCall];
    var s' := Issued(s, calls, n, CallMessage(s.kind, n));
    FreshFacts(s, n, Range(0, 0));
    IssuedFacts(s, calls, n, CallMessage(s.kind, n), n, Range(0, 0));
    assert calls.Keys - s.calls.Keys == {n};
    assert NumberOk(s', n);
    assert RegistryOk(s');
    IssuedKeeps(s, calls, n, CallMessage(s.kind, n));
  }

  lemma SubscribeRegistry(s: Sys, n: nat, u: nat, unsubMethod: string, msg: FrontToBack)
    requires RegistryOk(s) && n in s.drawn && u in s.drawn && n != u
    ensures RegistryOk(Issued(s, s.calls[n := Subscribing(u, unsubMethod)][u := UnsubscribeOf(n)], n, msg))
  {
    assert s.calls[n := Subscribing(u, unsubMethod)][u := UnsubscribeOf(n)].Keys - s.calls.Keys == {n, u};
  }

  lemma IssueSubscribeKeeps(s: Sys, n: nat, u: nat, unsubMethod: string)
    requires Inv(s) && n in s.drawn && u in s.drawn && n != u
    ensures Inv(Next(s, IssueSubscribe(n, u, unsubMethod)))
  {
    hide FactsOf, IdOf, NumbersOk, AllKnown, QueueOk, WireOk, LogOk, ReadingOk, ExactIndex, SubscribeMessage;
    var calls := s.calls[n := Subscribing(u, unsubMethod)][u := UnsubscribeOf(n)];
    var msg := SubscribeMessage(s.kind, n, u, unsubMethod);
    SubscribeRegistry(s, n, u, unsubMethod, msg);
    FreshFacts(s, n, Range(0, 0));
    FreshFacts(s, u, Range(0, 0));
    IssuedFacts(s, calls, n, msg, u, Range(0, 0));
    assert calls.Keys - s.calls.Keys == {n, u};
    assert NumberOk(Issued(s, calls, n, msg), n);
    IssuedKeeps(s, calls, n, msg);
  }

  lemma IssueBatchKeeps(s: Sys, n: nat, len: nat)
    requires Inv(s) && n in s.drawn && len > 0 && GenerateBatchIdRange(IdOf(s.kind, n), len).Some?
    ensures Inv(Next(s, IssueBatch(n, len)))
  {
    hide FactsOf, BatchFactsOf, IdOf, NumbersOk, AllKnown, QueueOk, WireOk, LogOk, ReadingOk, ExactIndex;
    IdFacts(s.kind, n);
    var ids := Range(n, n + len);
    assert GenerateBatchIdRange(IdOf(s.kind, n), len).value == ids;
    var calls := s.calls[n := BatchCall(len)];
    var s' := Issued(s, calls, n, Batch(ids, n));
    FreshFacts(s, n, ids);
    IssuedFacts(s, calls, n, Batch(ids, n), n, ids);
    assert calls.Keys - s.calls.Keys == {n};
    assert NumberOk(s', n);
    assert RegistryOk(s');
    IssuedKeeps(s, calls, n, Batch(ids, n));
  }

  // ---------------------------------------------------------------- the send task

  lemma TransmitWire(s: Sys, s': Sys, k: WireKey, req: WireRequest)
    requires WireOk(s) && s'.kind == s.kind && KeyOf(req) == Some(k) && k !in s.sent
    requires s'.wire == s.wire[k := Flight(req, Unsent)] && s'.busy == Some(k)
    requires s'.answered == s.answered && s'.sent == s.sent + multiset{k}
    ensures WireOk(s')
  {
    hide Conforms;
  }

  /** A step of the send task that starts writing a request not written before. */
  lemma SendKeeps(focus: set<nat>, s: Sys, s': Sys, k: WireKey, req: WireRequest)
    requires Inv(s) && Focused(focus, s, s') && KeyOf(req) == Some(k) && k !in s.wire && k !in s.sent
    requires forall i :: i in s'.queue ==> i in s.queue && s'.queue[i] == s.queue[i]
    requires s'.nextInternal == s.nextInternal && s'.log == s.log && s'.reading == s.reading
    requires s'.wire == s.wire[k := Flight(req, Unsent)] && s'.busy == Some(k)
    requires s'.answered == s.answered && s'.sent == s.sent + multiset{k}
    requires forall n ::
             n in focus && s.calls[n].Subscribing? ==> !Abandoned(FactsOf(s, n), FactsOf(s, s.calls[n].unsub))
    requires ExactIndex(s'.m)
    ensures Inv(s')
  {
    hide NumbersOk, AllKnown, QueueOk, WireOk, LogOk, ReadingOk, ExactIndex, IdOf, FactsOf, Abandoned, OnlyIn, NumberOk;
    QueueKept(focus, s, s');
    LogSame(s, s');
    TransmitWire(s, s', k, req);
    ReadingSame(s, s');
    Assemble(focus, s, s');
  }

  /** The state after a message left the queue, entries were made, and a request went out. */
  function Sent1(s: Sys, key: QueueKey, m: Manager, k: WireKey, req: WireRequest): (s': Sys) {
    s.(queue := s.queue - {key}, m := m, wire := s.wire[k := Flight(req, Unsent)], busy := Some(k),
      sent := s.sent + multiset{k})
  }

  lemma TakeIs(s: Sys, key: QueueKey, m: Manager, k: WireKey, req: WireRequest)
    requires key in s.queue && KeyOf(req) == Some(k)
    requires FrontSection(s.m, s.queue[key]).m == m && FrontSection(s.m, s.queue[key]).delivered == []
    requires FrontSection(s.m, s.queue[key]).wire == Some(req) && FrontSection(s.m, s.queue[key]).back == None
    ensures TakeNext(s, key) == Sent1(s, key, m, k, req)
  {
    hide FrontSection;
    assert s.log + [] == s.log;
  }

  lemma SentOnlyIn(focus: set<nat>, s: Sys, key: QueueKey, m: Manager, id: Id, req: WireRequest)
    requires exists n :: n in focus && IdOf(s.kind, n) == id
    requires key.Internal? || key.n in focus
    requires m.batches == s.m.batches
    requires forall a :: (forall n :: n in focus ==> IdOf(s.kind, n) != a) ==>
               (a in m.requests <==> a in s.m.requests) && (a in m.requests ==> m.requests[a] == s.m.requests[a])
    ensures OnlyIn(focus, s, Sent1(s, key, m, ById(id), req))
    ensures forall ids: Range :: SameRange(s, Sent1(s, key, m, ById(id), req), ids)
  {
    hide IdOf, Uses;
  }

  function Lookup(m: map<Id, Kind>, id: Id): (r: Option<Kind>) {
    if id in m then Some(m[id]) else None
  }

  lemma SentFacts(s: Sys, key: QueueKey, m: Manager, id: Id, req: WireRequest, a: nat)
    ensures FactsOf(Sent1(s, key, m, ById(id), req), a)
         == Facts(if key == Op(a) then None else FactsOf(s, a).queued,
                  Lookup(m.requests, IdOf(s.kind, a)),
                  if IdOf(s.kind, a) == id then Some(req) else FactsOf(s, a).flight,
                  FactsOf(s, a).sent + (if IdOf(s.kind, a) == id then 1 else 0),
                  FactsOf(s, a).uses)
    ensures FactsOf(s, a).entry == Lookup(s.m.requests, IdOf(s.kind, a))
    ensures FactsOf(s, a).flight == None ==> ById(IdOf(s.kind, a)) !in s.wire
    ensures FactsOf(s, a).sent == s.sent[ById(IdOf(s.kind, a))]
    ensures FactsOf(s, a).queued == if Op(a) in s.queue then Some(s.queue[Op(a)]) else None
  {
    hide IdOf, Uses;
  }

  lemma TakeCallKeeps(s: Sys, n: nat)
    requires Inv(s) && s.busy == None && Op(n) in s.queue && n in s.calls && s.calls[n].SingleCall?
    ensures Inv(TakeNext(s, Op(n)))
  {
    hide NumbersOk, AllKnown, QueueOk, WireOk, LogOk, ReadingOk, ExactIndex, IdOf, FactsOf, OnlyIn, TakeNext, SameRange;
    NumberFrom(s, n);
    var id := IdOf(s.kind, n);
    SentFacts(s, Op(n), s.m.(requests := s.m.requests[id := PendingMethodCall(Some(n))]), id, WireCall(id), n);
    var m := s.m.(requests := s.m.requests[id := PendingMethodCall(Some(n))]);
    FrontKeepsIndex(s.m, s.queue[Op(n)]);
    TakeIs(s, Op(n), m, ById(id), WireCall(id));
    var s' := Sent1(s, Op(n), m, ById(id), WireCall(id));
    SentOnlyIn({n}, s, Op(n), m, id, WireCall(id));
    PairedSingle(s, n);
    RangesKnown({n}, s, s');
    assert NumberOk(s', n);
    SendKeeps({n}, s, s', ById(id), WireCall(id));
  }

  lemma NumberFrom(s: Sys, n: nat)
    requires NumbersOk(s) && n in s.calls
    ensures NumberOk(s, n)
  {
  }

  lemma PairedSingle(s: Sys, n: nat)
    requires RegistryOk(s) && n in s.calls && !s.calls[n].Subscribing? && !s.calls[n].UnsubscribeOf?
    ensures Paired({n}, s)
  {
  }

  lemma PairedSubscription(s: Sys, n: nat, u: nat)
    requires RegistryOk(s) && n in s.calls && s.calls[n].Subscribing? && s.calls[n].unsub == u
    ensures Paired({n, u}, s) && n != u && n < TWO_64 && u < TWO_64
    ensures u in s.calls && s.calls[u].UnsubscribeOf?
  {
  }

  /** Ranges that start at a number in focus were known before, so they are when nothing about ranges changed. */
  lemma RangesKnown(focus: set<nat>, s: Sys, s': Sys)
    requires AllKnown(s)
    requires forall ids: Range :: SameRange(s, s', ids)
    ensures forall ids: Range ::
            ids.start in focus && (ids in s'.m.batches || ByRange(ids) in s'.wire || ByRange(ids) in s'.sent)
            ==> KnownRange(s, ids)
  {
    forall ids: Range | ids.start in focus
      && (ids in s'.m.batches || ByRange(ids) in s'.wire || ByRange(ids) in s'.sent)
      ensures KnownRange(s, ids)
    {
      assert SameRange(s, s', ids);
      assert ByRange(ids) in s.wire ==> KnownKey(s, ByRange(ids));
      assert ByRange(ids) in s.sent ==> KnownKey(s, ByRange(ids));
    }
  }

  /** A subscription's entries change and a request with one of its two ids goes out. */
  lemma SendPairKeeps(s: Sys, key: QueueKey, m: Manager, n: nat, id: Id, req: WireRequest)
    requires Inv(s) && n in s.calls && s.calls[n].Subscribing? && s.calls[n].unsub < TWO_64
    requires (key.Internal? || key == Op(n)) && key in s.queue
    requires id == IdOf(s.kind, n) || id == IdOf(s.kind, s.calls[n].unsub)
    requires KeyOf(req) == Some(ById(id)) && ById(id) !in s.wire && ById(id) !in s.sent
    requires m.batches == s.m.batches && ExactIndex(m)
    requires forall a ::
             a != IdOf(s.kind, n) && a != IdOf(s.kind, s.calls[n].unsub)
             ==> Lookup(m.requests, a) == Lookup(s.m.requests, a)
    requires NumberOk(Sent1(s, key, m, ById(id), req), n)
    requires !Abandoned(FactsOf(s, n), FactsOf(s, s.calls[n].unsub))
    ensures Inv(Sent1(s, key, m, ById(id), req))
  {
    hide NumbersOk, AllKnown, QueueOk, WireOk, LogOk, ReadingOk, ExactIndex, IdOf, FactsOf, OnlyIn, SameRange;
    hide RegistryOk, SubscribeOk, Abandoned;
    var u := s.calls[n].unsub;
    PairedSubscription(s, n, u);
    var s' := Sent1(s, key, m, ById(id), req);
    forall a | forall i :: i in {n, u} ==> IdOf(s.kind, i) != a
      ensures (a in m.requests <==> a in s.m.requests) && (a in m.requests ==> m.requests[a] == s.m.requests[a])
    {
      assert n in {n, u} && u in {n, u};
      assert Lookup(m.requests, a) == Lookup(s.m.requests, a);
    }
    SentOnlyIn({n, u}, s, key, m, id, req);
    RangesKnown({n, u}, s, s');
    SendKeeps({n, u}, s, s', ById(id), req);
  }

  lemma TakeSubscribeKeeps(s: Sys, n: nat)
    requires Inv(s) && s.busy == None && Op(n) in s.queue && n in s.calls && s.calls[n].Subscribing?
    ensures Inv(TakeNext(s, Op(n)))
  {
    hide NumbersOk, AllKnown, QueueOk, WireOk, LogOk, ReadingOk, ExactIndex, IdOf, FactsOf, TakeNext, RegistryOk;
    NumberFrom(s, n);
    var u, method' := s.calls[n].unsub, s.calls[n].unsubMethod;
    PairedSubscription(s, n, u);
    var id, unsub := IdOf(s.kind, n), IdOf(s.kind, u);
    IdsApart(s.kind, n, u);
    var pending := PendingSubscription(unsub, n, method');
    var m := s.m.(requests := s.m.requests[id := pending][unsub := PendingMethodCall(None)]);
    SentFacts(s, Op(n), m, id, WireSubscribe(id), n);
    SentFacts(s, Op(n), m, id, WireSubscribe(id), u);
    FrontKeepsIndex(s.m, s.queue[Op(n)]);
    TakeIs(s, Op(n), m, ById(id), WireSubscribe(id));
    SendPairKeeps(s, Op(n), m, n, id, WireSubscribe(id));
  }

  lemma TakeBatchKeeps(s: Sys, n: nat)
    requires Inv(s) && s.busy == None && Op(n) in s.queue && n in s.calls && s.calls[n].BatchCall?
    ensures Inv(TakeNext(s, Op(n)))
  {
    hide NumbersOk, AllKnown, QueueOk, WireOk, LogOk, ReadingOk, ExactIndex, IdOf, Uses, TakeNext, RegistryOk;
    NumberFrom(s, n);
    var ids := Range(n, n + s.calls[n].len);
    var m := s.m.(batches := s.m.batches[ids := n]);
    FrontKeepsIndex(s.m, s.queue[Op(n)]);
    TakeIs(s, Op(n), m, ByRange(ids), WireBatch(ids));
    var s' := Sent1(s, Op(n), m, ByRange(ids), WireBatch(ids));
    PairedSingle(s, n);
    BatchIdUnknown(s, n);
    BatchRanges(s, n, Op(n), m, ids);
    assert NumberOk(s', n);
    SendKeeps({n}, s, s', ByRange(ids), WireBatch(ids));
  }

  lemma BatchIdUnknown(s: Sys, n: nat)
    requires RegistryOk(s) && AllKnown(s) && n in s.calls && s.calls[n].BatchCall?
    ensures IdOf(s.kind, n) !in s.m.requests && ById(IdOf(s.kind, n)) !in s.wire && ById(IdOf(s.kind, n)) !in s.sent
  {
    hide IdOf;
    IdFacts(s.kind, n);
    assert !KnownId(s, IdOf(s.kind, n)) && !KnownKey(s, ById(IdOf(s.kind, n)));
  }

  lemma BatchRanges(s: Sys, n: nat, key: QueueKey, m: Manager, ids: Range)
    requires AllKnown(s) && ids.start == n && KnownRange(s, ids)
    requires key == Op(n) && m == s.m.(batches := s.m.batches[ids := n])
    ensures var s' := Sent1(s, key, m, ByRange(ids), WireBatch(ids));
            && OnlyIn({n}, s, s')
            && forall r: Range ::
               r.start in {n} && (r in s'.m.batches || ByRange(r) in s'.wire || ByRange(r) in s'.sent)
               ==> KnownRange(s, r)
  {
    hide *;
    BatchStaysIn(s, n, key, m, ids);
    BatchRangesKnown(s, n, key, m, ids);
  }

  lemma BatchStaysIn(s: Sys, n: nat, key: QueueKey, m: Manager, ids: Range)
    requires ids.start == n && key == Op(n) && m == s.m.(batches := s.m.batches[ids := n])
    ensures OnlyIn({n}, s, Sent1(s, key, m, ByRange(ids), WireBatch(ids)))
  {
    hide IdOf, Uses;
  }

  lemma BatchRangesKnown(s: Sys, n: nat, key: QueueKey, m: Manager, ids: Range)
    requires AllKnown(s) && ids.start == n && KnownRange(s, ids)
    requires key == Op(n) && m == s.m.(batches := s.m.batches[ids := n])
    ensures var s' := Sent1(s, key, m, ByRange(ids), WireBatch(ids));
            forall r: Range ::
              r.start in {n} && (r in s'.m.batches || ByRange(r) in s'.wire || ByRange(r) in s'.sent)
              ==> KnownRange(s, r)
  {
    hide IdOf, Uses;
    var s' := Sent1(s, key, m, ByRange(ids), WireBatch(ids));
    forall r: Range | r.start in {n} && (r in s'.m.batches || ByRange(r) in s'.wire || ByRange(r) in s'.sent)
      ensures KnownRange(s, r)
    {
      assert ByRange(r) in s.wire ==> KnownKey(s, ByRange(r));
      assert ByRange(r) in s.sent ==> KnownKey(s, ByRange(r));
    }
  }

  /** The subscription a subscription id points to: it is active, and its numbers can be told from it. */
  lemma ActiveNumber(s: Sys, subId: SubscriptionId) returns (n: nat)
    requires Inv(s) && subId in s.m.subscriptions
    ensures n in s.calls && s.calls[n].Subscribing? && IdOf(s.kind, n) == s.m.subscriptions[subId]
    ensures var u := s.calls[n].unsub;
            && u in s.calls
            && FactsOf(s, n) == Facts(None, Some(Subscription(IdOf(s.kind, u), n, s.calls[n].unsubMethod)), None, 1, 1)
            && FactsOf(s, u) == Facts(None, RESERVED, None, 0, 0)
  {
    hide NumbersOk, QueueOk, WireOk, LogOk, ReadingOk, IdOf, Uses;
    var id := s.m.subscriptions[subId];
    assert KnownId(s, id);
    n := TryParseInnerAsNumber(id).value;
    NumberFrom(s, n);
    if s.calls[n].UnsubscribeOf? {
      NumberFrom(s, s.calls[n].sub);
    }
  }

  lemma TakeClosedKeeps(s: Sys, key: QueueKey)
    requires Inv(s) && s.busy == None && key in s.queue && key.Internal? && s.queue[key].SubscriptionClosed?
    requires s.queue[key].subId in s.m.subscriptions
    ensures Inv(TakeNext(s, key))
  {
    hide NumbersOk, AllKnown, QueueOk, WireOk, LogOk, ReadingOk, ExactIndex, IdOf, FactsOf, TakeNext, RegistryOk;
    var subId := s.queue[key].subId;
    var n := ActiveNumber(s, subId);
    var u := s.calls[n].unsub;
    PairedSubscription(s, n, u);
    var id, unsub := IdOf(s.kind, n), IdOf(s.kind, u);
    IdsApart(s.kind, n, u);
    var m := s.m.(requests := s.m.requests[id := PendingMethodCall(None)],
      subscriptions := s.m.subscriptions - {subId});
    var req := WireUnsubscribe(unsub, subId);
    SentFacts(s, key, m, unsub, req, n);
    SentFacts(s, key, m, unsub, req, u);
    FrontKeepsIndex(s.m, s.queue[key]);
    TakeIs(s, key, m, ById(unsub), req);
    SendPairKeeps(s, key, m, n, unsub, req);
  }

  /** A message that sends nothing: only the queue and the notification handlers may change. */
  lemma TakeSilentKeeps(s: Sys, key: QueueKey, handlers: map<string, Sink>)
    requires Inv(s) && key in s.queue && key.Internal?
    ensures Inv(s.(queue := s.queue - {key}, m := s.m.(handlers := handlers)))
  {
    hide NumbersOk, AllKnown, QueueOk, WireOk, LogOk, ReadingOk, ExactIndex, IdOf, Uses;
    var s' := s.(queue := s.queue - {key}, m := s.m.(handlers := handlers));
    assert OnlyIn({}, s, s');
    IndexKept(s.m, s'.m);
    QueueKept({}, s, s');
    LogSame(s, s');
    WireSame(s, s');
    ReadingSame(s, s');
    Assemble({}, s, s');
  }

  lemma TakeKeeps(s: Sys, key: QueueKey)
    requires Inv(s) && s.busy == None && key in s.queue
    ensures Inv(TakeNext(s, key))
  {
    hide NumbersOk, AllKnown, WireOk, LogOk, ReadingOk, ExactIndex, IdOf, Uses, RegistryOk;
    match key
    case Op(n) =>
      match s.calls[n] {
        case SingleCall => TakeCallKeeps(s, n);
        case Subscribing(_, _) => TakeSubscribeKeeps(s, n);
        case BatchCall(_) => TakeBatchKeeps(s, n);
      }
    case Internal(_) =>
      var msg := s.queue[key];
      if msg.SubscriptionClosed? && msg.subId in s.m.subscriptions {
        TakeClosedKeeps(s, key);
      } else {
        // An unsubscribe without a caller meets the slot reserved for it.
        var m := FrontSection(s.m, msg).m;
        TakeSilentKeeps(s, key, m.handlers);
        assert s.log + [] == s.log;
        assert s.m.(handlers := m.handlers) == m;
        assert TakeNext(s, key) == s.(queue := s.queue - {key}, m := m);
      }
  }

  // ---------------------------------------------------------------- the read task: single replies

  /** The state after a reply was taken off the transport. */
  function Read1(s: Sys, m: Manager, k: WireKey, d: seq<Delivery>): (s': Sys) {
    s.(m := m, wire := s.wire - {k}, log := s.log + d)
  }

  lemma ReadFacts(s: Sys, m: Manager, k: WireKey, d: seq<Delivery>, a: nat)
    ensures FactsOf(Read1(s, m, k, d), a)
         == Facts(FactsOf(s, a).queued,
                  Lookup(m.requests, IdOf(s.kind, a)),
                  if ById(IdOf(s.kind, a)) == k then None else FactsOf(s, a).flight,
                  FactsOf(s, a).sent,
                  FactsOf(s, a).uses + Uses(d, a))
    ensures FactsOf(s, a).entry == Lookup(s.m.requests, IdOf(s.kind, a))
    ensures FactsOf(s, a).flight == if ById(IdOf(s.kind, a)) in s.wire then Some(s.wire[ById(IdOf(s.kind, a))].req)
            else None
  {
    hide IdOf, Uses;
    UsesAdd(s.log, d, a);
  }

  /** At most one oneshot is used, and by its own reply. */
  ghost predicate OwnAtMostOne(s: Sys, d: seq<Delivery>) {
    |d| <= 1 && forall i :: 0 <= i < |d| ==> OwnReply(s.kind, s.calls, s.answered, d[i])
  }

  lemma ReadOnlyIn(focus: set<nat>, s: Sys, m: Manager, id: Id, d: seq<Delivery>)
    requires exists n :: n in focus && IdOf(s.kind, n) == id
    requires m.batches == s.m.batches
    requires forall a ::
             (forall n :: n in focus ==> IdOf(s.kind, n) != a) ==> Lookup(m.requests, a) == Lookup(s.m.requests, a)
    requires |d| <= 1 && forall i :: 0 <= i < |d| ==> d[i].to in focus
    ensures OnlyIn(focus, s, Read1(s, m, ById(id), d))
    ensures forall ids: Range :: SameRange(s, Read1(s, m, ById(id), d), ids)
  {
    hide IdOf, Uses;
    var s' := Read1(s, m, ById(id), d);
    forall a | forall n :: n in focus ==> IdOf(s.kind, n) != a ensures SameId(s, s', a) {
      assert Lookup(m.requests, a) == Lookup(s.m.requests, a);
    }
    forall n: nat | n !in focus ensures SameCaller(s, s', n) {
      UsesAdd(s.log, d, n);
      NoUse(d, n);
    }
  }

  lemma LogExtended(s: Sys, s': Sys, d: seq<Delivery>)
    requires LogOk(s) && SameRegistry(s, s') && s'.answered == s.answered && s'.log == s.log + d && OwnAtMostOne(s, d)
    ensures LogOk(s')
  {
    hide OwnReply;
  }

  lemma ReadWire(s: Sys, s': Sys, k: WireKey)
    requires WireOk(s) && k in s.wire && s.wire[k].stage.Answered?
    requires s'.kind == s.kind && s'.wire == s.wire - {k} && s'.busy == s.busy
    requires s'.answered == s.answered && s'.sent == s.sent
    ensures WireOk(s')
  {
    hide Conforms;
  }

  /** A read step on one id that changes entries of the numbers in focus only. */
  lemma ReadKeeps(focus: set<nat>, s: Sys, m: Manager, id: Id, d: seq<Delivery>)
    requires Inv(s) && s.reading == Idle && ById(id) in s.wire && s.wire[ById(id)].stage.Answered?
    requires Focused(focus, s, Read1(s, m, ById(id), d)) && OwnAtMostOne(s, d) && ExactIndex(m)
    requires forall n ::
             n in focus && s.calls[n].Subscribing? ==> !Abandoned(FactsOf(s, n), FactsOf(s, s.calls[n].unsub))
    ensures Inv(Read1(s, m, ById(id), d))
  {
    hide NumbersOk, AllKnown, QueueOk, WireOk, LogOk, ExactIndex, IdOf, FactsOf, Abandoned, OnlyIn, NumberOk;
    hide OwnAtMostOne;
    var s' := Read1(s, m, ById(id), d);
    QueueKept(focus, s, s');
    LogExtended(s, s', d);
    ReadWire(s, s', ById(id));
    Assemble(focus, s, s');
  }

  lemma AnswerKnown(s: Sys, k: WireKey)
    requires WireOk(s) && k in s.wire && s.wire[k].stage.Answered?
    ensures k in s.answered && s.answered[k] == s.wire[k].stage.reply
  {
  }

  lemma ReadCallKeeps(s: Sys, n: nat, rp: Response)
    requires Inv(s) && s.reading == Idle && n in s.calls && s.calls[n].SingleCall?
    requires var k := ById(IdOf(s.kind, n)); k in s.wire && s.wire[k].stage == Answered(SingleAnswer(rp))
    requires rp.id == IdOf(s.kind, n)
    ensures Inv(ReadSingleNext(s, ById(IdOf(s.kind, n))))
  {
    hide NumbersOk, AllKnown, QueueOk, WireOk, LogOk, ExactIndex, IdOf, FactsOf, OnlyIn, SameRange, RegistryOk;
    NumberFrom(s, n);
    var id := IdOf(s.kind, n);
    var d := [Delivery(n, CallReply(rp))];
    var m := s.m.(requests := s.m.requests - {id});
    ReadFacts(s, m, ById(id), d, n);
    UsesShort(d[0], n);
    AnswerKnown(s, ById(id));
    SingleReplyKeepsIndex(s.m, rp, s.gone);
    assert ReadSingleNext(s, ById(id)) == Read1(s, m, ById(id), d);
    PairedSingle(s, n);
    ReadOnlyIn({n}, s, m, id, d);
    RangesKnown({n}, s, Read1(s, m, ById(id), d));
    ReadKeeps({n}, s, m, id, d);
  }

  lemma ReadPairKeeps(s: Sys, n: nat, m: Manager, id: Id, d: seq<Delivery>)
    requires Inv(s) && s.reading == Idle && n in s.calls && s.calls[n].Subscribing? && s.calls[n].unsub < TWO_64
    requires id == IdOf(s.kind, n) || id == IdOf(s.kind, s.calls[n].unsub)
    requires ById(id) in s.wire && s.wire[ById(id)].stage.Answered?
    requires m.batches == s.m.batches && ExactIndex(m)
    requires forall a ::
             a != IdOf(s.kind, n) && a != IdOf(s.kind, s.calls[n].unsub)
             ==> Lookup(m.requests, a) == Lookup(s.m.requests, a)
    requires OwnAtMostOne(s, d) && (d != [] ==> d[0].to == n)
    requires NumberOk(Read1(s, m, ById(id), d), n)
    requires !Abandoned(FactsOf(s, n), FactsOf(s, s.calls[n].unsub))
    ensures Inv(Read1(s, m, ById(id), d))
  {
    hide NumbersOk, AllKnown, QueueOk, WireOk, LogOk, ExactIndex, IdOf, FactsOf, OnlyIn, SameRange;
    hide RegistryOk, SubscribeOk, Abandoned;
    var u := s.calls[n].unsub;
    PairedSubscription(s, n, u);
    forall a | forall i :: i in {n, u} ==> IdOf(s.kind, i) != a
      ensures Lookup(m.requests, a) == Lookup(s.m.requests, a)
    {
      assert n in {n, u} && u in {n, u};
    }
    ReadOnlyIn({n, u}, s, m, id, d);
    RangesKnown({n, u}, s, Read1(s, m, ById(id), d));
    ReadKeeps({n, u}, s, m, id, d);
  }

  lemma ReadUnsubscribedKeeps(s: Sys, n: nat, rp: Response)
    requires Inv(s) && s.reading == Idle && n in s.calls && s.calls[n].Subscribing? && s.calls[n].unsub < TWO_64
    requires var k := ById(IdOf(s.kind, s.calls[n].unsub)); k in s.wire && s.wire[k].stage == Answered(SingleAnswer(rp))
    requires rp.id == IdOf(s.kind, s.calls[n].unsub)
    ensures Inv(ReadSingleNext(s, ById(rp.id)))
  {
    hide NumbersOk, AllKnown, QueueOk, WireOk, LogOk, ExactIndex, IdOf, FactsOf, RegistryOk;
    NumberFrom(s, n);
    var u := s.calls[n].unsub;
    PairedSubscription(s, n, u);
    IdsApart(s.kind, n, u);
    var m := s.m.(requests := s.m.requests - {rp.id});
    ReadFacts(s, m, ById(rp.id), [], n);
    ReadFacts(s, m, ById(rp.id), [], u);
    UsesShort(Delivery(n, Occupied), n);
    UsesShort(Delivery(n, Occupied), u);
    SingleReplyKeepsIndex(s.m, rp, s.gone);
    assert s.log + [] == s.log;
    assert ReadSingleNext(s, ById(rp.id)) == Read1(s, m, ById(rp.id), []);
    ReadPairKeeps(s, n, m, rp.id, []);
  }

  /** What the reply to a subscribe call can do: refuse, activate, or activate and unsubscribe at once. */
  lemma SubscribeOutcome(m: Manager, rp: Response, pending: Kind, gone: set<Oneshot>)
    requires pending.PendingSubscription? && rp.id !in m.requests
    ensures var e := SubscribeReply(m, rp, pending, gone);
            && e.m.batches == m.batches && e.failure == None
            && (forall a :: a != rp.id ==> Lookup(e.m.requests, a) == Lookup(m.requests, a))
            && |e.delivered| == 1 && e.delivered[0].to == pending.subscribeBack
            && (e.delivered[0].outcome.Subscribed? || e.delivered[0].outcome.NotSubscribed?)
                && e.delivered[0].outcome.rp == rp
            && (e.delivered[0].outcome.Subscribed? ==> Grants(rp, e.delivered[0].outcome.subId))
            && (|| (Lookup(e.m.requests, rp.id) == None && e.back == None)
                || (Lookup(e.m.requests, rp.id)
                    == Some(Subscription(pending.unsubscribeId, pending.subscribeBack, pending.unsubscribeMethod))
                      && e.back == None)
                || (Lookup(e.m.requests, rp.id) == RESERVED && e.back.Some? && e.back.value.Request?
                    && e.back.value.id == pending.unsubscribeId && e.back.value.callBack == None))
  {
    hide ParseSubscriptionId;
  }

  lemma ReadSubscribeKeeps(s: Sys, n: nat, rp: Response)
    requires Inv(s) && s.reading == Idle && n in s.calls && s.calls[n].Subscribing? && s.calls[n].unsub < TWO_64
    requires var k := ById(IdOf(s.kind, n)); k in s.wire && s.wire[k].stage == Answered(SingleAnswer(rp))
    requires rp.id == IdOf(s.kind, n)
    ensures Inv(ReadSingleNext(s, ById(rp.id)))
  {
    hide NumbersOk, AllKnown, QueueOk, WireOk, LogOk, ExactIndex, IdOf, FactsOf, RegistryOk, SubscribeReply;
    NumberFrom(s, n);
    var u := s.calls[n].unsub;
    PairedSubscription(s, n, u);
    IdsApart(s.kind, n, u);
    var m0 := s.m.(requests := s.m.requests - {rp.id});
    ReadFacts(s, m0, ById(rp.id), [], n);
    var pending := s.m.requests[rp.id];
    assert pending == PendingSubscription(IdOf(s.kind, u), n, s.calls[n].unsubMethod);
    SubscribeOutcome(m0, rp, pending, s.gone);
    var e := SubscribeReply(m0, rp, pending, s.gone);
    assert SingleReplySection(s.m, rp, s.gone) == e;
    SingleReplyKeepsIndex(s.m, rp, s.gone);
    AnswerKnown(s, ById(rp.id));
    var d := e.delivered;
    assert d == [d[0]];
    UsesShort(d[0], n);
    UsesShort(d[0], u);
    ReadFacts(s, e.m, ById(rp.id), d, n);
    ReadFacts(s, e.m, ById(rp.id), d, u);
    var s1 := Read1(s, e.m, ById(rp.id), d);
    ReadPairKeeps(s, n, e.m, rp.id, d);
    if e.back.Some? {
      AbandonedMessage(s1, n, u, e.back.value);
      EnqueueOneKeeps(s1, e.back.value);
      EnqueueOneIs(s1, e.back.value);
      assert ReadSingleNext(s, ById(rp.id)) == Enqueued(s1, e.back.value);
    } else {
      assert ReadSingleNext(s, ById(rp.id)) == s1;
    }
  }

  lemma EnqueueOneIs(s: Sys, msg: FrontToBack)
    ensures Enqueue(s, [msg]) == Enqueued(s, msg)
  {
    assert [msg][1..] == [];
  }

  lemma AbandonedMessage(s: Sys, n: nat, u: nat, msg: FrontToBack)
    requires Inv(s) && n in s.calls && s.calls[n].Subscribing? && s.calls[n].unsub == u
    requires msg.Request? && msg.callBack == None && msg.id == IdOf(s.kind, u)
    requires Abandoned(FactsOf(s, n), FactsOf(s, u))
    ensures InternalOk(s, msg)
  {
    hide NumbersOk, AllKnown, QueueOk, WireOk, LogOk, ExactIndex, IdOf, FactsOf, Abandoned;
    IdFacts(s.kind, u);
  }

  lemma ReadSingleKeeps(s: Sys, k: WireKey)
    requires k in s.wire && s.wire[k].stage.Answered? && s.wire[k].stage.reply.SingleAnswer?
    requires Inv(s) && s.reading == Idle
    ensures Inv(ReadSingleNext(s, k))
  {
    hide NumbersOk, QueueOk, LogOk, ExactIndex, IdOf, FactsOf, ReadSingleNext, FullReply, Replies;
    var rp := s.wire[k].stage.reply.rp;
    assert Conforms(s.kind, s.wire[k].req, SingleAnswer(rp));
    assert KnownKey(s, k) && KeyOf(s.wire[k].req) == Some(k);
    var n := TryParseInnerAsNumber(k.id).value;
    ReadFacts(s, s.m, k, [], n);
    match s.calls[n]
    case SingleCall => ReadCallKeeps(s, n, rp);
    case Subscribing(_, _) => ReadSubscribeKeeps(s, n, rp);
    case UnsubscribeOf(sub) => ReadUnsubscribedKeeps(s, sub, rp);
  }

  // ---------------------------------------------------------------- the read task: pushed messages

  /** A subscription the server closes. */
  lemma ErrorKeeps(s: Sys, subId: SubscriptionId)
    requires Inv(s)
    ensures SubscriptionErrorSection(s.m, subId).failure == None
    ensures Inv(s.(m := SubscriptionErrorSection(s.m, subId).m))
  {
    hide NumbersOk, AllKnown, QueueOk, WireOk, LogOk, ReadingOk, ExactIndex, IdOf, FactsOf, RegistryOk;
    SectionKeepsIndex(s.m, SubscriptionError(subId));
    if subId in s.m.subscriptions {
      var n := ActiveNumber(s, subId);
      var m := SubscriptionErrorSection(s.m, subId).m;
      PairedSubscription(s, n, s.calls[n].unsub);
      IdsApart(s.kind, n, s.calls[n].unsub);
      IndexAfterRemove(s.m, subId);
      assert m == s.m.(requests := s.m.requests - {IdOf(s.kind, n)}, subscriptions := s.m.subscriptions - {subId});
      CloseKeeps(s, n, m);
    } else {
      assert s.(m := SubscriptionErrorSection(s.m, subId).m) == s;
    }
  }

  lemma ManagerFacts(s: Sys, m: Manager, a: nat)
    ensures FactsOf(s.(m := m), a) == FactsOf(s, a).(entry := Lookup(m.requests, IdOf(s.kind, a)))
    ensures FactsOf(s, a).entry == Lookup(s.m.requests, IdOf(s.kind, a))
  {
    hide IdOf, Uses;
  }

  lemma CloseKeeps(s: Sys, n: nat, m: Manager)
    requires Inv(s) && n in s.calls && s.calls[n].Subscribing? && s.calls[n].unsub < TWO_64
    requires IdOf(s.kind, n) != IdOf(s.kind, s.calls[n].unsub)
    requires FactsOf(s, n)
             == Facts(None, Some(Subscription(IdOf(s.kind, s.calls[n].unsub), n, s.calls[n].unsubMethod)), None, 1, 1)
    requires FactsOf(s, s.calls[n].unsub) == Facts(None, RESERVED, None, 0, 0)
    requires m.requests == s.m.requests - {IdOf(s.kind, n)} && m.batches == s.m.batches && ExactIndex(m)
    ensures Inv(s.(m := m))
  {
    hide NumbersOk, AllKnown, QueueOk, WireOk, LogOk, ReadingOk, ExactIndex, IdOf, FactsOf, RegistryOk;
    hide OnlyIn, SameRange;
    var u := s.calls[n].unsub;
    PairedSubscription(s, n, u);
    var s' := s.(m := m);
    ManagerFacts(s, m, n);
    ManagerFacts(s, m, u);
    ManagerOnlyIn(s, n, m);
    RangesKnown({n, u}, s, s');
    assert NumberOk(s', n) && NumberOk(s', u);
    QueueKept({n, u}, s, s');
    LogSame(s, s');
    WireSame(s, s');
    ReadingSame(s, s');
    Assemble({n, u}, s, s');
  }

  lemma ManagerOnlyIn(s: Sys, n: nat, m: Manager)
    requires n in s.calls && s.calls[n].Subscribing?
    requires m.requests == s.m.requests - {IdOf(s.kind, n)} && m.batches == s.m.batches
    ensures OnlyIn({n, s.calls[n].unsub}, s, s.(m := m))
    ensures forall ids: Range :: SameRange(s, s.(m := m), ids)
  {
    hide IdOf, Uses;
    var focus := {n, s.calls[n].unsub};
    assert n in focus;
  }

  /** Notification handlers play no part in the invariant. */
  lemma HandlersKeep(s: Sys, handlers: map<string, Sink>)
    requires Inv(s)
    ensures Inv(s.(m := s.m.(handlers := handlers)))
  {
    hide NumbersOk, AllKnown, QueueOk, WireOk, LogOk, ReadingOk, ExactIndex, IdOf, Uses;
    var s' := s.(m := s.m.(handlers := handlers));
    assert OnlyIn({}, s, s');
    IndexKept(s.m, s'.m);
    QueueKept({}, s, s');
    LogSame(s, s');
    WireSame(s, s');
    ReadingSame(s, s');
    Assemble({}, s, s');
  }

  lemma PushItemKeeps(s: Sys, subId: SubscriptionId, sent: SendResult)
    requires Inv(s)
    ensures Inv(Absorb(s, SubscriptionItemSection(s.m, subId, sent)))
  {
    hide Inv;
    var e := SubscriptionItemSection(s.m, subId, sent);
    assert s.(m := e.m, log := s.log + e.delivered) == s by { assert s.log + [] == s.log; }
    EnqueueKeeps(s, if e.back.Some? then [e.back.value] else []);
  }

  lemma PushErrorKeeps(s: Sys, subId: SubscriptionId)
    requires Inv(s)
    ensures Inv(StopOn(Absorb(s, SubscriptionErrorSection(s.m, subId)),
            FailureOf(SubscriptionErrorSection(s.m, subId))))
  {
    hide Inv;
    ErrorKeeps(s, subId);
    assert s.log + [] == s.log;
  }

  lemma PushNotificationKeeps(s: Sys, name: string, sent: SendResult)
    requires Inv(s)
    ensures Inv(Absorb(s, MethodNotificationSection(s.m, name, sent)))
  {
    hide Inv;
    var e := MethodNotificationSection(s.m, name, sent);
    HandlersKeep(s, e.m.handlers);
    assert s.m.(handlers := e.m.handlers) == e.m;
    assert s.log + [] == s.log;
  }

  // ---------------------------------------------------------------- the read task: arrays

  lemma {:induction false} NoReplies(elements: seq<Element>)
    requires !HasReply(elements)
    ensures Replies(elements) == []
  {
    if elements != [] {
      var front := elements[..|elements| - 1];
      NoReplies(front);
      assert !elements[|elements| - 1].ReplyElement?;
    }
  }

  /** The reading state after a reply inside an array. */
  lemma ReplyElementOk(s: Sys)
    requires ReadingOk(s) && s.reading.InArray? && s.reading.rest != [] && s.reading.rest[0].ReplyElement?
    ensures var rp := s.reading.rest[0].rp;
            && TryParseInnerAsNumber(rp.id).Ok?
            && ReadingOk(s.(reading := s.reading.(rest := s.reading.rest[1..],
                 st := s.reading.st.(batch := s.reading.st.batch + [rp],
                                     range := Some(Widen(s.reading.st.range, TryParseInnerAsNumber(rp.id).value))))))
  {
    hide Replies, FullReply, TryParseInnerAsNumber;
    var rest, st := s.reading.rest, s.reading.st;
    var rp := rest[0].rp;
    RepliesCons(rest);
    var ids := s.reading.answers.value;
    var all := st.batch + Replies(rest);
    FullReplyCovers(s.kind, all, ids);
    assert all[|st.batch|] == rp;
    assert ReplyNumber(rp) >= 0;
    var batch := st.batch + [rp];
    assert batch[..|batch| - 1] == st.batch;
    assert batch + Replies(rest[1..]) == all;
  }

  lemma OtherElementOk(s: Sys, st: ArrayState)
    requires ReadingOk(s) && s.reading.InArray? && s.reading.rest != [] && !s.reading.rest[0].ReplyElement?
    requires st.batch == s.reading.st.batch && st.range == s.reading.st.range && OnlyPlain(st.messages)
    ensures ReadingOk(s.(reading := s.reading.(rest := s.reading.rest[1..], st := st)))
  {
    hide Replies, FullReply, RunningRange;
    RepliesCons(s.reading.rest);
    assert [] + Replies(s.reading.rest[1..]) == Replies(s.reading.rest[1..]);
  }

  lemma NextElementKeeps(s: Sys)
    requires s.reading.InArray? && s.reading.rest != []
    requires Inv(s)
    ensures Inv(NextElementNext(s))
  {
    hide NumbersOk, AllKnown, QueueOk, WireOk, LogOk, ExactIndex, RegistryOk, Replies, FullReply;
    hide RunningRange, TryParseInnerAsNumber, Widen;
    hide SubscriptionErrorSection, MethodNotificationSection;
    var rest, st, whole := s.reading.rest, s.reading.st, s.reading.wholeAsError;
    var r := ReadElement(s.m, st, rest[0], whole);
    assert s.log + [] == s.log;
    match rest[0]
    case ReplyElement(rp) =>
      ReplyElementOk(s);
      ReadingKeeps(s, s.reading.(rest := rest[1..], st := r.next));
    case ItemElement(subId, sent) =>
      OtherElementOk(s, r.next);
      ReadingKeeps(s, s.reading.(rest := rest[1..], st := r.next));
    case OtherElement(notification) =>
      if whole.Some? {
        OtherElementOk(s, r.next);
        ReadingKeeps(s, s.reading.(rest := rest[1..], st := r.next));
        var s1 := s.(reading := s.reading.(rest := rest[1..], st := r.next));
        ErrorKeeps(s1, whole.value);
        ErrorEffect(s.m, whole.value);
      } else if notification.Some? {
        OtherElementOk(s, r.next);
        ReadingKeeps(s, s.reading.(rest := rest[1..], st := r.next));
        var s1 := s.(reading := s.reading.(rest := rest[1..], st := r.next));
        HandlersKeep(s1, r.effect.m.handlers);
        NotificationEffect(s.m, notification.value.0, notification.value.1);
      } else {
        ReadingKeeps(s, Stopped(Unparseable));
      }
  }

  lemma ErrorEffect(m: Manager, subId: SubscriptionId)
    ensures SubscriptionErrorSection(m, subId).delivered == []
  {
  }

  lemma NotificationEffect(m: Manager, name: string, sent: SendResult)
    ensures MethodNotificationSection(m, name, sent).delivered == []
    ensures MethodNotificationSection(m, name, sent).m
            == m.(handlers := MethodNotificationSection(m, name, sent).m.handlers)
  {
  }

  /** The state after the replies of a batch were handed over. */
  function BatchRead(s: Sys, ids: Range, d: Delivery): (s': Sys) {
    s.(m := s.m.(batches := s.m.batches - {ids}), log := s.log + [d], wire := s.wire - {ByRange(ids)}, reading := Idle)
  }

  lemma BatchReadOnlyIn(s: Sys, n: nat, ids: Range, d: Delivery)
    requires ids.start == n && d.to == n && AllKnown(s) && KnownRange(s, ids)
    ensures OnlyIn({n}, s, BatchRead(s, ids, d))
    ensures var s' := BatchRead(s, ids, d);
            forall r: Range ::
              r.start in {n} && (r in s'.m.batches || ByRange(r) in s'.wire || ByRange(r) in s'.sent)
              ==> KnownRange(s, r)
  {
    hide IdOf, Uses;
    var s' := BatchRead(s, ids, d);
    forall a: nat | a !in {n} ensures SameCaller(s, s', a) {
      UsesAdd(s.log, [d], a);
      UsesShort(d, a);
    }
    forall r: Range | r.start in {n} && (r in s'.m.batches || ByRange(r) in s'.wire || ByRange(r) in s'.sent)
      ensures KnownRange(s, r)
    {
      assert ByRange(r) in s.wire ==> KnownKey(s, ByRange(r));
      assert ByRange(r) in s.sent ==> KnownKey(s, ByRange(r));
    }
  }

  lemma BatchReadFacts(s: Sys, n: nat, ids: Range, d: Delivery)
    requires d.to == n
    ensures BatchFactsOf(BatchRead(s, ids, d), n, ids)
         == BatchFactsOf(s, n, ids).(entry := None, flight := None, uses := BatchFactsOf(s, n, ids).uses + 1)
  {
    hide Uses;
    UsesAdd(s.log, [d], n);
    UsesShort(d, n);
  }

  /** A full array, put into request order, is what its batch's caller is to get. */
  lemma OwnBatch(s: Sys, n: nat, ids: Range, rps: seq<Response>)
    requires n in s.calls && s.calls[n].BatchCall? && Fits(n, s.calls[n].len) && ids == Range(n, n + s.calls[n].len)
    requires ByRange(ids) in s.answered && s.answered[ByRange(ids)].ArrayAnswer?
    requires rps == Replies(s.answered[ByRange(ids)].elements) && FullReply(s.kind, rps, ids)
    ensures Placed(rps, |rps|, ids).Ok?
    ensures OwnReply(s.kind, s.calls, s.answered, Delivery(n, BatchReply(Placed(rps, |rps|, ids).value)))
  {
    hide FullReply, Placed, Replies, ReplyNumber;
    RepliesInRequestOrder(s.kind, rps, ids);
  }

  lemma BatchReadKeeps(s: Sys, n: nat, rps: seq<Response>)
    requires Inv(s) && n in s.calls && s.calls[n].BatchCall? && Fits(n, s.calls[n].len)
    requires var ids := Range(n, n + s.calls[n].len);
             && ByRange(ids) in s.wire && s.wire[ByRange(ids)].stage.Answered?
             && s.wire[ByRange(ids)].stage.reply.ArrayAnswer?
                && rps == Replies(s.wire[ByRange(ids)].stage.reply.elements)
             && FullReply(s.kind, rps, ids)
    ensures var ids := Range(n, n + s.calls[n].len);
            && ids in s.m.batches && s.m.batches[ids] == n && Placed(rps, |rps|, ids).Ok?
            && Inv(BatchRead(s, ids, Delivery(n, BatchReply(Placed(rps, |rps|, ids).value))))
  {
    hide NumbersOk, AllKnown, QueueOk, WireOk, LogOk, ReadingOk, ExactIndex, RegistryOk, FullReply, Placed;
    hide IdOf, OnlyIn, OwnReply, Replies;
    var ids := Range(n, n + s.calls[n].len);
    NumberFrom(s, n);
    AnswerKnown(s, ByRange(ids));
    OwnBatch(s, n, ids, rps);
    var d := Delivery(n, BatchReply(Placed(rps, |rps|, ids).value));
    var s' := BatchRead(s, ids, d);
    BatchReadFacts(s, n, ids, d);
    PairedSingle(s, n);
    BatchIdUnknown(s, n);
    BatchReadOnlyIn(s, n, ids, d);
    assert NumberOk(s', n);
    IndexKept(s.m, s'.m);
    QueueKept({n}, s, s');
    LogExtended(s, s', [d]);
    ReadWire(s, s', ByRange(ids));
    assert ReadingOk(s') by { IdleOk(s'); }
    Assemble({n}, s, s');
  }

  lemma IdleOk(s: Sys)
    requires s.reading == Idle
    ensures ReadingOk(s)
  {
  }

  lemma EndArrayKeeps(s: Sys)
    requires s.reading.InArray? && s.reading.rest == []
    requires Inv(s)
    ensures Inv(EndArrayNext(s))
  {
    hide NumbersOk, QueueOk, LogOk, ExactIndex, RegistryOk, FullReply, RunningRange, Placed, Conforms;
    var st := s.reading.st;
    assert s.log + [] == s.log;
    assert st.batch + [] == st.batch;
    match s.reading.answers
    case None =>
      EmptyRange();
      ReadingKeeps(s, if st.gotNotification then Idle else Stopped(EmptyArray));
      if st.gotNotification {
        EnqueueKeeps(s.(reading := Idle), st.messages);
      }
    case Some(ids) =>
      var n := ids.start;
      assert KnownKey(s, ByRange(ids));
      NumberFrom(s, n);
      RangeRecovered(s.kind, st.batch, ids);
      BatchReadKeeps(s, n, st.batch);
      var s1 := BatchRead(s, ids, Delivery(n, BatchReply(Placed(st.batch, |st.batch|, ids).value)));
      EnqueueKeeps(s1, st.messages);
  }

  lemma EmptyRange()
    ensures RunningRange([]) == None
  {
  }
}
