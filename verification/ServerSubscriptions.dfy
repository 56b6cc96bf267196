/**
 * The server's subscription lifecycle over any number of connections: a pending sink is accepted,
 * rejected or dropped; an accepted one becomes a live sink that can be cloned, unsubscribed and dropped.
 * A step is one indivisible move, so a run is any interleaving of callbacks, calls and connections. Ids
 * given to subscriptions may repeat.
 */
module ServerSubscriptions {
  import opened Wrappers
  import opened ClientMessages

  type Conn = nat
  type CallNo = nat

  /** A subscription's key in the table of its method. */
  datatype Key = Key(name: string, conn: Conn, subId: SubscriptionId)

  /** Where the pending sink of a subscribe call is. */
  datatype Stage =
    | Offered                  // held by the callback
    | Accepting(fits: bool)    // the reply is in the outgoing queue
    | Accepted(fits: bool)     // the call was told as well
    | Rejecting                // the error reply was sent
    | Live                     // became a sink
    | Over                     // dropped, rejected or failed

  /** The oneshot from the pending sink to the call. */
  datatype Told = Untold | Told(ok: bool) | Forgotten

  /** How the call that asked for the subscription ended. */
  datatype CallEnd = Running | Resolved | Aborted

  datatype Call = Call(key: Key, stage: Stage, told: Told, end: CallEnd)

  /** Messages in the outgoing queues, by the subscribe call they belong to. */
  datatype Out = Reply(c: CallNo, ok: bool) | Item(c: CallNo) | Closing(c: CallNo) | Unrelated(conn: Conn)

  /** The stored receivers and the sinks whose liveness they decide. */
  datatype Table = Table(
    entries: map<Key, CallNo>,   // which call's receiver is stored under a key
    receivers: set<CallNo>,      // receivers that were not dropped
    sinks: map<nat, CallNo>,     // live sinks and their clones
    dropping: map<nat, bool>)    // sinks being dropped: were they active when the drop looked?

  /** What is on its way to the clients. */
  datatype Wire = Wire(
    sending: multiset<CallNo>,   // items that passed the check and wait for room
    accepted: set<CallNo>,       // calls that saw their subscription accepted
    finished: set<CallNo>,       // calls whose callback returned
    closings: set<CallNo>,       // calls whose close message was dealt with
    out: seq<Out>)               // all outgoing queues, in order

  datatype Sys = Sys(
    max: map<Conn, nat>,
    free: map<Conn, nat>,
    closed: set<Conn>,
    calls: map<CallNo, Call>,
    table: Table,
    wire: Wire)

  datatype Step =
    | Connect(conn: Conn, limit: nat)
    | Disconnect(conn: Conn)
    | Subscribe(c: CallNo, key: Key)
    | AcceptSend(c: CallNo, fits: bool)
    | AcceptTell(c: CallNo)
    | AcceptInsert(c: CallNo, sink: nat)
    | RejectSend(c: CallNo)
    | RejectTell(c: CallNo)
    | DropPending(c: CallNo)
    | Resolve(c: CallNo)
    | Abort(c: CallNo)
    | Return(c: CallNo)
    | Close(c: CallNo)
    | Clone(sink: nat, copy: nat)
    | CheckSend(sink: nat)
    | FinishSend(c: CallNo)
    | Unsubscribe(key: Key)
    | CheckDrop(sink: nat)
    | FinishDrop(sink: nat)
    | SendOther(conn: Conn)

  const EMPTY := Sys(map[], map[], {}, map[], Table(map[], {}, map[], map[]), Wire(multiset{}, {}, {}, {}, []))

  /** A send into a connection's queue; it fails once the connection is closed. */
  function Put(s: Sys, conn: Conn, msg: Out): (s': Sys) {
    if conn in s.closed then s else s.(wire := s.wire.(out := s.wire.out + [msg]))
  }

  function SetCall(s: Sys, c: CallNo, call: Call): (s': Sys) {
    s.(calls := s.calls[c := call])
  }

  function Release(s: Sys, conn: Conn): (s': Sys) {
    if conn in s.free then s.(free := s.free[conn := s.free[conn] + 1]) else s
  }

  /** The pending sink is gone and its permit with it. */
  function EndPending(s: Sys, c: CallNo, told: Told): (s': Sys)
    requires c in s.calls
  {
    Release(SetCall(s, c, s.calls[c].(stage := Over, told := told)), s.calls[c].key.conn)
  }

  /** Removing a key drops the receiver stored there. */
  function RemoveKey(t: Table, key: Key): (t': Table) {
    if key in t.entries then t.(entries := t.entries - {key}, receivers := t.receivers - {t.entries[key]}) else t
  }

  /** Storing a receiver drops the one it replaces. */
  function StoreReceiver(t: Table, key: Key, c: CallNo, sink: nat): (t': Table) {
    var t1 := RemoveKey(t, key);
    t1.(entries := t1.entries[key := c], receivers := t1.receivers + {c}, sinks := t.sinks[sink := c])
  }

  predicate Active(t: Table, sink: nat) {
    sink in t.sinks && t.sinks[sink] in t.receivers
  }

  predicate LastSink(t: Table, sink: nat)
    requires sink in t.sinks
  {
    forall other :: other in t.sinks && t.sinks[other] == t.sinks[sink] ==> other == sink
  }

  predicate StageIs(s: Sys, c: CallNo, stage: Stage) {
    c in s.calls && s.calls[c].stage == stage
  }

  predicate Enabled(s: Sys, step: Step) {
    match step
    case Connect(conn, _) => conn !in s.max
    case Disconnect(conn) => conn in s.max
    case Subscribe(c, key) => c !in s.calls && key.conn in s.free
    case AcceptSend(c, _) => StageIs(s, c, Offered)
    case AcceptTell(c) => StageIs(s, c, Accepting(true)) || StageIs(s, c, Accepting(false))
    case AcceptInsert(c, sink) => (StageIs(s, c, Accepted(true)) && sink !in s.table.sinks)
                                  || StageIs(s, c, Accepted(false))
    case RejectSend(c) => StageIs(s, c, Offered)
    case RejectTell(c) => StageIs(s, c, Rejecting)
    case DropPending(c) => StageIs(s, c, Offered)
    case Resolve(c) => c in s.calls && s.calls[c].end == Running && s.calls[c].told != Untold
    case Abort(c) => c in s.calls && s.calls[c].end == Running
    case Return(c) => c in s.calls
    case Close(c) => c in s.wire.accepted && c in s.wire.finished && c !in s.wire.closings && c in s.calls
    case Clone(sink, copy) => sink in s.table.sinks && sink !in s.table.dropping && copy !in s.table.sinks
    case CheckSend(sink) => sink in s.table.sinks && sink !in s.table.dropping
    case FinishSend(c) => c in s.wire.sending && c in s.calls
    case Unsubscribe(_) => true
    case CheckDrop(sink) => sink in s.table.sinks && sink !in s.table.dropping
    case FinishDrop(sink) => sink in s.table.sinks && sink in s.table.dropping && s.table.sinks[sink] in s.calls
    case SendOther(_) => true
  }

  function SubscribeNext(s: Sys, c: CallNo, key: Key): (s': Sys)
    requires key.conn in s.free
  {
    if s.free[key.conn] > 0 then
      SetCall(s, c, Call(key, Offered, Untold, Running)).(free := s.free[key.conn := s.free[key.conn] - 1])
    else
      // Too many subscriptions: an error, sent by the call itself.
      Put(SetCall(s, c, Call(key, Over, Forgotten, Resolved)), key.conn, Reply(c, false))
  }

  function AcceptSendNext(s: Sys, c: CallNo, fits: bool): (s': Sys)
    requires c in s.calls
  {
    var conn := s.calls[c].key.conn;
    if conn in s.closed then EndPending(s, c, Forgotten)
    else Put(SetCall(s, c, s.calls[c].(stage := Accepting(fits))), conn, Reply(c, fits))
  }

  function AcceptTellNext(s: Sys, c: CallNo): (s': Sys)
    requires c in s.calls && s.calls[c].stage.Accepting?
  {
    var fits := s.calls[c].stage.fits;
    if s.calls[c].end != Running then EndPending(s, c, Forgotten)
    else SetCall(s, c, s.calls[c].(stage := Accepted(fits), told := Told(fits)))
  }

  /** A reply that did not fit was told as an error, and accepting it panics. */
  function AcceptInsertNext(s: Sys, c: CallNo, sink: nat): (s': Sys)
    requires c in s.calls && s.calls[c].stage.Accepted?
  {
    if s.calls[c].stage.fits then
      SetCall(s, c, s.calls[c].(stage := Live)).(table := StoreReceiver(s.table, s.calls[c].key, c, sink))
    else EndPending(s, c, s.calls[c].told)
  }

  function RejectTellNext(s: Sys, c: CallNo): (s': Sys)
    requires c in s.calls
  {
    EndPending(s, c, if s.calls[c].end == Running then Told(false) else Forgotten)
  }

  /** A call that was told how it went leaves the reply to the sink; one that was not sends an error itself. */
  function ResolveNext(s: Sys, c: CallNo): (s': Sys)
    requires c in s.calls
  {
    var s1 := SetCall(s, c, s.calls[c].(end := Resolved));
    match s.calls[c].told
    case Told(ok) => if ok then s1.(wire := s.wire.(accepted := s.wire.accepted + {c})) else s1
    case _ => Put(s1, s.calls[c].key.conn, Reply(c, false))
  }

  function CheckSendNext(s: Sys, sink: nat): (s': Sys)
    requires sink in s.table.sinks
  {
    if Active(s.table, sink) then s.(wire := s.wire.(sending := s.wire.sending + multiset{s.table.sinks[sink]})) else s
  }

  /** A sink that looked active when its drop began takes the entry at its key with it. */
  function DropSink(t: Table, key: Key, sink: nat): (t': Table)
    requires sink in t.dropping
  {
    var t1 := if t.dropping[sink] then RemoveKey(t, key) else t;
    t1.(sinks := t.sinks - {sink}, dropping := t.dropping - {sink})
  }

  function FinishDropNext(s: Sys, sink: nat): (s': Sys)
    requires sink in s.table.sinks && sink in s.table.dropping && s.table.sinks[sink] in s.calls
  {
    var c := s.table.sinks[sink];
    var s1 := s.(table := DropSink(s.table, s.calls[c].key, sink));
    if LastSink(s.table, sink) then Release(s1, s.calls[c].key.conn) else s1
  }

  function Next(s: Sys, step: Step): (s': Sys)
    requires Enabled(s, step)
  {
    match step
    case Connect(conn, limit) => s.(max := s.max[conn := limit], free := s.free[conn := limit])
    case Disconnect(conn) => s.(closed := s.closed + {conn})
    case Subscribe(c, key) => SubscribeNext(s, c, key)
    case AcceptSend(c, fits) => AcceptSendNext(s, c, fits)
    case AcceptTell(c) => AcceptTellNext(s, c)
    case AcceptInsert(c, sink) => AcceptInsertNext(s, c, sink)
    case RejectSend(c) => Put(SetCall(s, c, s.calls[c].(stage := Rejecting)), s.calls[c].key.conn, Reply(c, false))
    case RejectTell(c) => RejectTellNext(s, c)
    case DropPending(c) => EndPending(s, c, Forgotten)
    case Resolve(c) => ResolveNext(s, c)
    case Abort(c) => SetCall(s, c, s.calls[c].(end := Aborted))
    case Return(c) => s.(wire := s.wire.(finished := s.wire.finished + {c}))
    case Close(c) => Put(s.(wire := s.wire.(closings := s.wire.closings + {c})), s.calls[c].key.conn, Closing(c))
    case Clone(sink, copy) => s.(table := s.table.(sinks := s.table.sinks[copy := s.table.sinks[sink]]))
    case CheckSend(sink) => CheckSendNext(s, sink)
    case FinishSend(c) => Put(s.(wire := s.wire.(sending := s.wire.sending - multiset{c})), s.calls[c].key.conn,
                          Item(c))
    case Unsubscribe(key) => s.(table := RemoveKey(s.table, key))
    case CheckDrop(sink) => s.(table := s.table.(dropping := s.table.dropping[sink := Active(s.table, sink)]))
    case FinishDrop(sink) => FinishDropNext(s, sink)
    case SendOther(conn) => Put(s, conn, Unrelated(conn))
  }

  /** The state after a run, or nothing if a step of it is not possible. */
  function After(steps: seq<Step>): (s: Option<Sys>) {
    if steps == [] then Some(EMPTY)
    else
      var last := steps[|steps| - 1];
      match After(steps[..|steps| - 1])
      case Some(s) => if Enabled(s, last) then Some(Next(s, last)) else None
      case None => None
  }
}
