/**
 * The bounded channel behind a client-side subscription or notification handler, from the messages that
 * arrive for it to those its reader gets.
 */
module SubscriptionChannel {
  import opened Wrappers

  type Msg = string

  datatype Sent = Delivered | Closed | TooSlow

  datatype Channel = Channel(capacity: nat, buf: seq<Msg>, senderGone: bool, receiverGone: bool, lagged: bool)

  function SendResult(c: Channel): (r: Sent) {
    if c.receiverGone then Closed else if |c.buf| >= c.capacity then TooSlow else Delivered
  }

  function AfterSend(c: Channel, msg: Msg): (c': Channel) {
    match SendResult(c)
    case Delivered => c.(buf := c.buf + [msg])
    case Closed => c
    case TooSlow => c.(lagged := true)
  }

  /** The next message, or the end of the stream, or neither yet. */
  function PollResult(c: Channel): (r: Option<Option<Msg>>) {
    if c.buf != [] then Some(Some(c.buf[0])) else if c.senderGone then Some(None) else None
  }

  function AfterPoll(c: Channel): (c': Channel) {
    if c.buf != [] then c.(buf := c.buf[1..]) else c
  }

  /** A channel and the flag its two ends share. */
  class SubscriptionPair {
    const capacity: nat
    var buf: seq<Msg>
    var senderGone: bool
    var receiverGone: bool
    var lagged: bool

    function State(): (c: Channel)
      reads this
    {
      Channel(capacity, buf, senderGone, receiverGone, lagged)
    }

    constructor (maxBufSize: nat)
      ensures State() == Channel(maxBufSize, [], false, false, false)
    {
      capacity, buf, senderGone, receiverGone, lagged := maxBufSize, [], false, false, false;
    }

    method Send(msg: Msg) returns (r: Sent)
      modifies this
      ensures r == SendResult(old(State())) && State() == AfterSend(old(State()), msg)
    {
      if receiverGone {
        return Closed;
      }
      if |buf| < capacity {
        buf := buf + [msg];
        return Delivered;
      }
      lagged := true;
      return TooSlow;
    }

    method PollNext() returns (r: Option<Option<Msg>>)
      modifies this
      ensures r == PollResult(old(State())) && State() == AfterPoll(old(State()))
    {
      if buf != [] {
        r := Some(Some(buf[0]));
        buf := buf[1..];
      } else {
        r := if senderGone then Some(None) else None;
      }
    }
  }

  datatype CloseReason = ConnectionClosed | Lagged

  function ReasonOf(isClosed: bool, lagged: bool): (r: Option<CloseReason>) {
    if !isClosed && !lagged then None else if lagged then Some(Lagged) else Some(ConnectionClosed)
  }

  // ---------------------------------------------------------------- runs

  /** What became of a message that arrived. */
  datatype Fate = Kept | DroppedFull | ReaderLeft | NotRegistered

  /** A notification handler is removed by a failed send; a subscription is removed later, by a message of its own. */
  datatype Kind = Handler | Subscription

  datatype Feed = Feed(kind: Kind, chan: Channel, isClosed: bool, arrived: seq<Msg>, fates: seq<Fate>, read: seq<Msg>)

  datatype Step =
    | Arrive(msg: Msg)   // the server sent a message for this feed
    | Remove             // the feed is unregistered, closed by the server, or the connection ends
    | Poll               // the reader polls
    | Leave              // the reader drops its end

  function Start(kind: Kind, capacity: nat): (f: Feed) {
    Feed(kind, Channel(capacity, [], false, false, false), false, [], [], [])
  }

  function FateOf(c: Channel): (fate: Fate) {
    if c.senderGone then NotRegistered
    else match SendResult(c) case Delivered => Kept case Closed => ReaderLeft case TooSlow => DroppedFull
  }

  function ArriveNext(f: Feed, msg: Msg): (f': Feed) {
    var fate := FateOf(f.chan);
    var sent := if fate == NotRegistered then f.chan else AfterSend(f.chan, msg);
    var chan := if f.kind == Handler && fate != Kept then sent.(senderGone := true) else sent;
    f.(chan := chan, arrived := f.arrived + [msg], fates := f.fates + [fate])
  }

  function PollNext(f: Feed): (f': Feed) {
    if f.chan.receiverGone then f
    else
      match PollResult(f.chan)
      case Some(Some(msg)) => f.(chan := AfterPoll(f.chan), read := f.read + [msg])
      case Some(None) => f.(isClosed := true)
      case None => f
  }

  function Next(f: Feed, step: Step): (f': Feed) {
    match step
    case Arrive(msg) => ArriveNext(f, msg)
    case Remove => f.(chan := f.chan.(senderGone := true))
    case Poll => PollNext(f)
    case Leave => f.(chan := f.chan.(receiverGone := true, buf := []))
  }

  function Run(kind: Kind, capacity: nat, steps: seq<Step>): (f: Feed) {
    if steps == [] then Start(kind, capacity) else Next(Run(kind, capacity, steps[..|steps| - 1]), steps[|steps| - 1])
  }

  // ---------------------------------------------------------------- the messages that were kept

  function KeptOf(arrived: seq<Msg>, fates: seq<Fate>): (kept: seq<Msg>)
    requires |arrived| == |fates|
  {
    if arrived == [] then []
    else
      var n := |arrived| - 1;
      KeptOf(arrived[..n], fates[..n]) + if fates[n] == Kept then [arrived[n]] else []
  }

  lemma KeptGrows(arrived: seq<Msg>, fates: seq<Fate>, msg: Msg, fate: Fate)
    requires |arrived| == |fates|
    ensures KeptOf(arrived + [msg], fates + [fate]) == KeptOf(arrived, fates) + if fate == Kept then [msg] else []
  {
    assert (arrived + [msg])[..|arrived|] == arrived && (fates + [fate])[..|fates|] == fates;
  }

  /** All messages were kept up to some point, and none after it. */
  predicate KeptFirst(fates: seq<Fate>, k: nat) {
    k <= |fates| && (forall i :: 0 <= i < k ==> fates[i] == Kept) && forall i :: k <= i < |fates| ==> fates[i] != Kept
  }

  lemma LastKept(arrived: seq<Msg>, fates: seq<Fate>)
    requires |arrived| == |fates| && arrived != []
    ensures var n := |arrived| - 1;
            var before := KeptOf(arrived[..n], fates[..n]);
            KeptOf(arrived, fates) == if fates[n] == Kept then before + [arrived[n]] else before
  {
  }

  lemma LastFirst(fates: seq<Fate>, k: nat)
    requires fates != [] && KeptFirst(fates, k)
    ensures var n := |fates| - 1;
            (fates[n] == Kept <==> k == |fates|) && KeptFirst(fates[..n], if k == |fates| then n else k)
  {
  }

  lemma {:induction false} KeptPrefix(arrived: seq<Msg>, fates: seq<Fate>, k: nat)
    requires |arrived| == |fates| && KeptFirst(fates, k)
    ensures KeptOf(arrived, fates) == arrived[..k]
  {
    if arrived != [] {
      var n := |arrived| - 1;
      LastKept(arrived, fates);
      LastFirst(fates, k);
      hide KeptOf, KeptFirst;
      if k == |arrived| {
        KeptPrefix(arrived[..n], fates[..n], n);
        assert arrived[..k] == arrived[..n] + [arrived[n]];
      } else {
        KeptPrefix(arrived[..n], fates[..n], k);
      }
    }
  }

  /** `a` is `b` with some messages left out. */
  predicate Subsequence(a: seq<Msg>, b: seq<Msg>) {
    a == [] || (b != []
      && ((a[|a| - 1] == b[|b| - 1] && Subsequence(a[..|a| - 1], b[..|b| - 1])) || Subsequence(a, b[..|b| - 1])))
  }

  lemma {:induction false} KeptSubsequence(arrived: seq<Msg>, fates: seq<Fate>)
    requires |arrived| == |fates|
    ensures Subsequence(KeptOf(arrived, fates), arrived)
  {
    if arrived != [] {
      var n := |arrived| - 1;
      KeptSubsequence(arrived[..n], fates[..n]);
      var kept := KeptOf(arrived[..n], fates[..n]);
      if fates[n] == Kept {
        assert (kept + [arrived[n]])[..|kept|] == kept;
      } else {
        assert KeptOf(arrived, fates) == kept;
      }
    }
  }

  lemma {:induction false} SubsequenceOfPrefix(a: seq<Msg>, b: seq<Msg>, k: nat)
    requires k <= |a| && Subsequence(a, b)
    ensures Subsequence(a[..k], b)
  {
    if k == |a| {
      assert a[..k] == a;
    } else if b != [] && a != [] {
      var a', b' := a[..|a| - 1], b[..|b| - 1];
      if a[|a| - 1] == b[|b| - 1] && Subsequence(a', b') {
        SubsequenceOfPrefix(a', b', k);
        assert a'[..k] == a[..k];
      } else {
        SubsequenceOfPrefix(a, b', k);
      }
    }
  }

  // ---------------------------------------------------------------- every run

  ghost predicate FeedOk(f: Feed) {
    && |f.arrived| == |f.fates|
    && |f.chan.buf| <= f.chan.capacity
    && (f.chan.lagged <==> DroppedFull in f.fates)
    && (f.chan.receiverGone ==> f.chan.buf == [])
    && f.read + f.chan.buf <= KeptOf(f.arrived, f.fates)
    && (!f.chan.receiverGone ==> f.read + f.chan.buf == KeptOf(f.arrived, f.fates))
    && (f.isClosed ==> f.chan.senderGone && f.chan.buf == [])
    && (f.isClosed ==> f.read == KeptOf(f.arrived, f.fates))
    && (!f.chan.receiverGone ==> ReaderLeft !in f.fates)
    && (!f.chan.senderGone ==> NotRegistered !in f.fates)
    && (f.kind == Handler && !f.chan.senderGone ==> KeptFirst(f.fates, |f.fates|))
    && (f.kind == Handler && f.chan.senderGone ==> exists k :: KeptFirst(f.fates, k))
  }

  lemma ArriveKeeps(f: Feed, msg: Msg)
    requires FeedOk(f)
    ensures FeedOk(ArriveNext(f, msg))
  {
    var f' := ArriveNext(f, msg);
    var fate := FateOf(f.chan);
    KeptGrows(f.arrived, f.fates, msg, fate);
    if f.kind == Handler && f'.chan.senderGone {
      var k: nat;
      if f.chan.senderGone {
        k :| KeptFirst(f.fates, k);
      } else {
        k := |f.fates|;
      }
      assert KeptFirst(f'.fates, k);
    }
  }

  lemma PollKeeps(f: Feed)
    requires FeedOk(f)
    ensures FeedOk(PollNext(f))
  {
    if !f.chan.receiverGone && f.chan.buf != [] {
      assert f.chan.buf == [f.chan.buf[0]] + f.chan.buf[1..];
      assert f.read + f.chan.buf == f.read + [f.chan.buf[0]] + f.chan.buf[1..];
    }
  }

  lemma LeaveKeeps(f: Feed, step: Step)
    requires FeedOk(f) && (step.Remove? || step.Leave?)
    ensures FeedOk(Next(f, step))
  {
    assert f.read <= f.read + f.chan.buf && f.read + [] == f.read;
  }

  lemma StepKeeps(f: Feed, step: Step)
    requires FeedOk(f)
    ensures FeedOk(Next(f, step)) && Next(f, step).kind == f.kind && Next(f, step).chan.capacity == f.chan.capacity
  {
    hide FeedOk;
    match step {
      case Arrive(msg) => ArriveKeeps(f, msg);
      case Poll => PollKeeps(f);
      case _ => LeaveKeeps(f, step);
    }
  }

  lemma StartOk(kind: Kind, capacity: nat)
    ensures FeedOk(Start(kind, capacity))
  {
    assert KeptFirst([], 0);
  }

  lemma {:induction false} RunKeeps(kind: Kind, capacity: nat, steps: seq<Step>)
    ensures FeedOk(Run(kind, capacity, steps))
    ensures Run(kind, capacity, steps).kind == kind && Run(kind, capacity, steps).chan.capacity == capacity
  {
    hide FeedOk, Next;
    if steps == [] {
      StartOk(kind, capacity);
    } else {
      RunKeeps(kind, capacity, steps[..|steps| - 1]);
      StepKeeps(Run(kind, capacity, steps[..|steps| - 1]), steps[|steps| - 1]);
    }
  }

  lemma PrefixOf(f: Feed)
    requires FeedOk(f) && f.kind == Handler
    ensures f.read <= f.arrived
    ensures !f.chan.senderGone && !f.chan.receiverGone ==> f.read + f.chan.buf == f.arrived
  {
    var k: nat;
    if f.chan.senderGone {
      k :| KeptFirst(f.fates, k);
    } else {
      k := |f.fates|;
    }
    KeptPrefix(f.arrived, f.fates, k);
    hide KeptOf, KeptFirst;
    assert f.read <= f.read + f.chan.buf;
    assert f.arrived[..|f.arrived|] == f.arrived;
  }

  /**
   * In every run the reader of a notification handler gets a prefix, without gaps, of the notifications
   * since registration, and as long as the handler is registered nothing but what is still buffered is missing.
   */
  lemma HandlerGetsPrefix(capacity: nat, steps: seq<Step>)
    ensures var f := Run(Handler, capacity, steps);
            f.read <= f.arrived && (!f.chan.senderGone && !f.chan.receiverGone ==> f.read + f.chan.buf == f.arrived)
  {
    hide Run;
    RunKeeps(Handler, capacity, steps);
    PrefixOf(Run(Handler, capacity, steps));
  }

  lemma {:induction false} KeptLength(arrived: seq<Msg>, fates: seq<Fate>)
    requires |arrived| == |fates|
    ensures |KeptOf(arrived, fates)| <= |arrived|
    ensures |KeptOf(arrived, fates)| == |arrived| ==> DroppedFull !in fates
  {
    if arrived != [] {
      var n := |arrived| - 1;
      KeptLength(arrived[..n], fates[..n]);
      assert fates == fates[..n] + [fates[n]];
    }
  }

  /**
   * In every run the reader of a subscription gets its messages in order; while it is registered and read,
   * nothing but the buffered ones is missing exactly if it has not lagged.
   */
  lemma SubscriptionGetsSubsequence(capacity: nat, steps: seq<Step>)
    ensures var f := Run(Subscription, capacity, steps);
            && Subsequence(f.read, f.arrived)
            && (!f.chan.senderGone && !f.chan.receiverGone ==> (f.read + f.chan.buf == f.arrived <==> !f.chan.lagged))
  {
    hide Run, Subsequence, KeptOf;
    RunKeeps(Subscription, capacity, steps);
    var f := Run(Subscription, capacity, steps);
    var kept := KeptOf(f.arrived, f.fates);
    KeptSubsequence(f.arrived, f.fates);
    SubsequenceOfPrefix(kept, f.arrived, |f.read|);
    KeptLength(f.arrived, f.fates);
    assert f.read <= f.read + f.chan.buf;
    assert kept[..|f.read|] == f.read;
    if !f.chan.lagged && !f.chan.senderGone && !f.chan.receiverGone {
      AllKept(f.fates);
      KeptPrefix(f.arrived, f.fates, |f.fates|);
      assert f.arrived[..|f.arrived|] == f.arrived;
    }
  }

  lemma AllKept(fates: seq<Fate>)
    requires DroppedFull !in fates && ReaderLeft !in fates && NotRegistered !in fates
    ensures KeptFirst(fates, |fates|)
  {
    forall i | 0 <= i < |fates|
      ensures fates[i] == Kept
    {
      assert fates[i] in fates;
    }
  }

  /**
   * In every run the buffer stays within its capacity; lagging is the close reason exactly when a message
   * was dropped for want of room; and a reader told otherwise has all that was kept.
   */
  lemma CloseReasonExactly(kind: Kind, capacity: nat, steps: seq<Step>)
    ensures var f := Run(kind, capacity, steps);
            && |f.chan.buf| <= capacity
            && (ReasonOf(f.isClosed, f.chan.lagged) == Some(Lagged) <==> DroppedFull in f.fates)
            && (ReasonOf(f.isClosed, f.chan.lagged) == Some(ConnectionClosed)
                ==> |f.arrived| == |f.fates| && f.read == KeptOf(f.arrived, f.fates))
  {
    RunKeeps(kind, capacity, steps);
  }

  lemma LagThenRead(f: Feed)
    requires f.kind == Subscription && f.chan == Channel(1, [], false, false, false) && f.arrived == [] && f.read == []
    ensures var g := Next(Next(Next(f, Arrive("a")), Arrive("b")), Poll);
            g.kind == Subscription && g.chan == Channel(1, [], false, false, true) && g.arrived == ["a", "b"]
              && g.read == ["a"]
  {
    var g := Next(f, Arrive("a"));
    assert g.chan == Channel(1, ["a"], false, false, false) && g.arrived == ["a"];
    g := Next(g, Arrive("b"));
    assert g.chan == Channel(1, ["a"], false, false, true) && g.arrived == ["a", "b"] && g.read == [];
  }

  lemma ArriveThenRead(f: Feed)
    requires f.kind == Subscription && f.chan == Channel(1, [], false, false, true) && f.arrived == ["a", "b"]
    requires f.read == ["a"]
    ensures var g := Next(Next(f, Arrive("c")), Poll);
            g.arrived == ["a", "b", "c"] && g.read == ["a", "c"] && g.chan.lagged
  {
    var g := Next(f, Arrive("c"));
    assert g.chan == Channel(1, ["c"], false, false, true) && g.arrived == ["a", "b", "c"] && g.read == ["a"];
  }

  /** A subscription that lagged may still get later messages: it is closed by a message of its own. */
  lemma LaterMayFollowDropped()
    ensures var f := Run(Subscription, 1, [Arrive("a"), Arrive("b"), Poll, Arrive("c"), Poll]);
            f.arrived == ["a", "b", "c"] && f.read == ["a", "c"] && f.chan.lagged
  {
    var steps := [Arrive("a"), Arrive("b"), Poll, Arrive("c"), Poll];
    assert steps[..4][..3] == steps[..3] && steps[..3][..2] == steps[..2] && steps[..2][..1] == steps[..1]
           && steps[..1][..0] == [];
    var f := Start(Subscription, 1);
    LagThenRead(f);
    hide Next;
    assert Run(Subscription, 1, steps[..1]) == Next(f, Arrive("a"));
    assert Run(Subscription, 1, steps[..3]) == Next(Next(Next(f, Arrive("a")), Arrive("b")), Poll);
    ArriveThenRead(Run(Subscription, 1, steps[..3]));
    assert Run(Subscription, 1, steps[..4]) == Next(Run(Subscription, 1, steps[..3]), Arrive("c"));
  }
}
