/** The client's inactivity check on ticks that come every `limit`: when it ends a connection, and when not. */
module Inactivity {
  import opened Wrappers

  type Time = nat

  datatype Event = Message(at: Time) | Tick(at: Time)

  class InactivityCheck {
    const inactiveDur: Time
    const maxCount: nat
    var lastActive: Time
    var count: nat

    constructor (inactiveDur: Time, maxCount: nat, now: Time)
      ensures this.inactiveDur == inactiveDur && this.maxCount == maxCount && lastActive == now && count == 0
    {
      this.inactiveDur, this.maxCount, lastActive, count := inactiveDur, maxCount, now, 0;
    }

    method IsInactive(now: Time) returns (inactive: bool)
      modifies this
      ensures lastActive == old(lastActive)
      ensures count == old(count) + if now - lastActive >= inactiveDur then 1 else 0
      ensures inactive <==> count >= maxCount
    {
      if now - lastActive >= inactiveDur {
        count := count + 1;
      }
      inactive := count >= maxCount;
    }

    method MarkAsActive(now: Time)
      modifies this
      ensures lastActive == now && count == old(count)
    {
      lastActive := now;
    }
  }

  // ---------------------------------------------------------------- what the check should see

  /** When the last message came, or the start if none did. */
  function LastMessage(start: Time, events: seq<Event>): (t: Time) {
    if events == [] then start
    else match events[|events| - 1] case Message(at) => at case Tick(_) => LastMessage(start, events[..|events| - 1])
  }

  /** Event `i` is a tick at which nothing had arrived for a full `limit`. */
  predicate IdleTick(start: Time, limit: Time, events: seq<Event>, i: nat)
    requires i < |events|
  {
    events[i].Tick? && events[i].at - LastMessage(start, events[..i]) >= limit
  }

  function IdleTicks(start: Time, limit: Time, events: seq<Event>): (r: set<nat>) {
    set i | 0 <= i < |events| && IdleTick(start, limit, events, i)
  }

  /** The last event is a tick that ends the connection: it makes `max` idle ticks or more. */
  predicate Fires(start: Time, limit: Time, max: nat, events: seq<Event>) {
    events != [] && events[|events| - 1].Tick? && |IdleTicks(start, limit, events)| >= max
  }

  predicate FiresAt(start: Time, limit: Time, max: nat, events: seq<Event>, i: nat)
    requires i < |events|
  {
    Fires(start, limit, max, events[..i + 1])
  }

  /** None of the first `n` events ends the connection. */
  ghost predicate OpenUntil(start: Time, limit: Time, max: nat, events: seq<Event>, n: nat)
    requires n <= |events|
  {
    forall i :: 0 <= i < n ==> !FiresAt(start, limit, max, events, i)
  }

  lemma IdleTicksNext(start: Time, limit: Time, events: seq<Event>, i: nat)
    requires i < |events|
    ensures |IdleTicks(start, limit, events[..i + 1])|
            == |IdleTicks(start, limit, events[..i])| + if IdleTick(start, limit, events, i) then 1 else 0
  {
    var now, next := IdleTicks(start, limit, events[..i]), IdleTicks(start, limit, events[..i + 1]);
    forall j | 0 <= j < i
      ensures j in now <==> j in next
    {
      assert events[..i][..j] == events[..i + 1][..j];
    }
    assert events[..i + 1][..i] == events[..i];
    assert next == if IdleTick(start, limit, events, i) then now + {i} else now;
  }

  // ---------------------------------------------------------------- ticks every limit

  function Ticks(events: seq<Event>): (n: nat) {
    if events == [] then 0 else Ticks(events[..|events| - 1]) + if events[|events| - 1].Tick? then 1 else 0
  }

  function LastTick(start: Time, limit: Time, events: seq<Event>): (t: Time) {
    start + Ticks(events) * limit
  }

  /** Ticks come every `limit` from the start on, and messages not before the ticks that precede them. */
  ghost predicate OnSchedule(start: Time, limit: Time, events: seq<Event>) {
    forall i :: 0 <= i < |events| ==> match events[i]
                                      case Tick(at) => at == LastTick(start, limit, events[..i]) + limit
                                      case Message(at) => at >= LastTick(start, limit, events[..i])
  }

  lemma ScheduledPrefix(start: Time, limit: Time, events: seq<Event>, n: nat)
    requires OnSchedule(start, limit, events) && n <= |events|
    ensures OnSchedule(start, limit, events[..n])
  {
    forall i | 0 <= i < n
      ensures events[..n][..i] == events[..i]
    {
    }
  }

  /** The idle ticks make up for all the time since the last message but less than one `limit`. */
  lemma {:induction false} IdleTicksCover(start: Time, limit: Time, events: seq<Event>)
    requires limit > 0 && OnSchedule(start, limit, events)
    ensures LastTick(start, limit, events)
            < LastMessage(start, events) + (|IdleTicks(start, limit, events)| + 1) * limit
  {
    if events != [] {
      var n := |events| - 1;
      ScheduledPrefix(start, limit, events, n);
      IdleTicksCover(start, limit, events[..n]);
      IdleTicksNext(start, limit, events, n);
      assert events[..n + 1] == events;
      var idle, before := |IdleTicks(start, limit, events)|, |IdleTicks(start, limit, events[..n])|;
      var last, tick := LastMessage(start, events), LastTick(start, limit, events[..n]);
      if events[n].Tick? {
        assert LastTick(start, limit, events) == tick + limit by { MulNext(Ticks(events[..n]), limit); }
        CoverTick(before, idle, limit, last, tick);
      } else {
        assert LastTick(start, limit, events) == tick;
        CoverMessage(idle, limit, last, tick);
      }
    }
  }

  lemma CoverTick(before: nat, idle: nat, limit: Time, last: Time, tick: Time)
    requires (before + 1) * limit + last > tick && limit > 0
    requires idle == before + if tick + limit - last >= limit then 1 else 0
    ensures (idle + 1) * limit + last > tick + limit
  {
    MulNext(before + 1, limit);
    MulAtLeast(before + 1, limit);
  }

  lemma CoverMessage(idle: nat, limit: Time, last: Time, tick: Time)
    requires limit > 0 && last >= tick
    ensures (idle + 1) * limit + last > tick
  {
    MulAtLeast(idle + 1, limit);
  }

  lemma MulNext(a: nat, b: nat)
    ensures (a + 1) * b == a * b + b
  {
  }

  lemma MulAtLeast(a: nat, b: nat)
    requires a > 0
    ensures a * b >= b
  {
    assert a * b == (a - 1) * b + b by { MulNext(a - 1, b); }
    assert (a - 1) * b >= 0;
  }

  /** A tick that comes `max` limits or more after the last message ends the connection. */
  lemma FiresInTime(start: Time, limit: Time, max: nat, events: seq<Event>)
    requires limit > 0 && OnSchedule(start, limit, events)
    requires events != [] && events[|events| - 1].Tick?
    requires events[|events| - 1].at >= LastMessage(start, events) + max * limit
    ensures Fires(start, limit, max, events)
  {
    var n := |events| - 1;
    var idle := |IdleTicks(start, limit, events)|;
    IdleTicksCover(start, limit, events);
    assert LastTick(start, limit, events) == events[n].at by { MulNext(Ticks(events[..n]), limit); }
    if idle < max {
      MulMonotone(idle + 1, max, limit);
      assert false;
    }
  }

  lemma MulMonotone(a: nat, b: nat, c: nat)
    requires a <= b
    ensures a * c <= b * c
  {
  }

  /** A connection that no tick has ended: its last tick came before `max` limits had passed since the last message. */
  lemma {:induction false} StillOpen(start: Time, limit: Time, max: nat, events: seq<Event>)
    requires limit > 0 && max > 0 && OnSchedule(start, limit, events) && OpenUntil(start, limit, max, events, |events|)
    ensures LastTick(start, limit, events) < LastMessage(start, events) + max * limit
  {
    MulAtLeast(max, limit);
    if events != [] {
      var n := |events| - 1;
      assert events[..n + 1] == events;
      if events[n].Tick? {
        assert LastTick(start, limit, events) == events[n].at by { MulNext(Ticks(events[..n]), limit); }
        assert !FiresAt(start, limit, max, events, n);
        if events[n].at >= LastMessage(start, events) + max * limit {
          FiresInTime(start, limit, max, events);
        }
      } else {
        assert LastTick(start, limit, events) == LastTick(start, limit, events[..n]);
      }
    }
  }

  /**
   * The deadline. A tick that ends the connection comes before `max` + 1 limits have passed since the last
   * message, for it is the first to do so and the one before it came before `max` limits had passed.
   */
  lemma Deadline(start: Time, limit: Time, max: nat, events: seq<Event>, k: nat)
    requires limit > 0 && max > 0 && OnSchedule(start, limit, events) && k < |events|
    requires FiresAt(start, limit, max, events, k) && OpenUntil(start, limit, max, events, k)
    ensures events[k].at < LastMessage(start, events[..k]) + (max + 1) * limit
  {
    ScheduledPrefix(start, limit, events, k);
    forall i | 0 <= i < k
      ensures !FiresAt(start, limit, max, events[..k], i)
    {
      assert events[..k][..i + 1] == events[..i + 1];
      assert !FiresAt(start, limit, max, events, i);
    }
    StillOpen(start, limit, max, events[..k]);
    MulNext(max, limit);
    assert events[..k + 1][k] == events[k];
  }

  /**
   * The read task: it stops at the first tick that is one too many, and only there. On schedule that is
   * always before `max` + 1 limits have passed since the last message, and a connection left open is not yet
   * `max` limits past it at its last tick.
   */
  method WatchConnection(start: Time, limit: Time, max: nat, events: seq<Event>) returns (stopped: Option<nat>)
    ensures stopped.Some? ==> stopped.value < |events| && FiresAt(start, limit, max, events, stopped.value)
    ensures OpenUntil(start, limit, max, events, if stopped.Some? then stopped.value else |events|)
    ensures limit > 0 && max > 0 && OnSchedule(start, limit, events) && stopped.Some?
            ==> events[stopped.value].at < LastMessage(start, events[..stopped.value]) + (max + 1) * limit
    ensures limit > 0 && max > 0 && OnSchedule(start, limit, events) && stopped.None?
            ==> LastTick(start, limit, events) < LastMessage(start, events) + max * limit
  {
    hide OnSchedule;
    var check := new InactivityCheck(limit, max, start);
    assert events[..0] == [];
    for i := 0 to |events|
      invariant fresh(check) && check.inactiveDur == limit && check.maxCount == max
      invariant check.lastActive == LastMessage(start, events[..i])
      invariant check.count == |IdleTicks(start, limit, events[..i])|
      invariant OpenUntil(start, limit, max, events, i)
    {
      IdleTicksNext(start, limit, events, i);
      assert events[..i + 1][..i] == events[..i];
      match events[i] {
        case Message(at) => check.MarkAsActive(at);
        case Tick(at) =>
          var inactive := check.IsInactive(at);
          if inactive {
            if limit > 0 && max > 0 && OnSchedule(start, limit, events) {
              Deadline(start, limit, max, events, i);
            }
            return Some(i);
          }
      }
    }
    if limit > 0 && max > 0 && OnSchedule(start, limit, events) {
      StillOpen(start, limit, max, events);
    }
    return None;
  }

  // ---------------------------------------------------------------- silence

  /** The same events and then `k` ticks on schedule, with no message among them. */
  function Silence(start: Time, limit: Time, events: seq<Event>, k: nat): (r: seq<Event>) {
    if k == 0 then events
    else
      var before := Silence(start, limit, events, k - 1);
      before + [Tick(LastTick(start, limit, before) + limit)]
  }

  lemma SilentTick(start: Time, limit: Time, events: seq<Event>)
    requires OnSchedule(start, limit, events)
    ensures var more := events + [Tick(LastTick(start, limit, events) + limit)];
            && OnSchedule(start, limit, more) && LastMessage(start, more) == LastMessage(start, events)
            && LastTick(start, limit, more) == LastTick(start, limit, events) + limit
  {
    var more := events + [Tick(LastTick(start, limit, events) + limit)];
    assert more[..|events|] == events;
    MulNext(Ticks(events), limit);
    forall i | 0 <= i < |events|
      ensures more[..i] == events[..i] && more[i] == events[i]
    {
    }
  }

  /** No event but the last is a tick that ends the connection. */
  ghost predicate FirstToFire(start: Time, limit: Time, max: nat, events: seq<Event>) {
    events != [] && FiresAt(start, limit, max, events, |events| - 1)
      && OpenUntil(start, limit, max, events, |events| - 1)
  }

  lemma OpenGrows(start: Time, limit: Time, max: nat, events: seq<Event>, event: Event)
    requires OpenUntil(start, limit, max, events, |events|)
    ensures OpenUntil(start, limit, max, events + [event], |events|)
  {
    hide Fires;
    forall i | 0 <= i < |events|
      ensures !FiresAt(start, limit, max, events + [event], i)
    {
      assert (events + [event])[..i + 1] == events[..i + 1];
      assert !FiresAt(start, limit, max, events, i);
    }
  }

  /**
   * An open connection on which nothing more arrives: some tick ends it, the first to do so before
   * `max` + 1 limits have passed since the last message.
   */
  lemma {:induction false} SilenceEnds(start: Time, limit: Time, max: nat, events: seq<Event>) returns (k: nat)
    requires limit > 0 && max > 0 && OnSchedule(start, limit, events) && OpenUntil(start, limit, max, events, |events|)
    ensures k > 0 && OnSchedule(start, limit, Silence(start, limit, events, k))
    ensures var all := Silence(start, limit, events, k);
            FirstToFire(start, limit, max, all) && all[|all| - 1].at < LastMessage(start, events) + (max + 1) * limit
    decreases LastMessage(start, events) + max * limit - LastTick(start, limit, events)
  {
    var tick := Tick(LastTick(start, limit, events) + limit);
    var more := events + [tick];
    StillOpen(start, limit, max, events);
    SilentTick(start, limit, events);
    OpenGrows(start, limit, max, events, tick);
    assert Silence(start, limit, events, 0) == events && Silence(start, limit, events, 1) == more;
    hide OnSchedule, Fires, LastMessage, LastTick;
    if FiresAt(start, limit, max, more, |events|) {
      MulNext(max, limit);
      k := 1;
    } else {
      k := SilenceEnds(start, limit, max, more);
      SilenceShifts(start, limit, events, k);
      k := k + 1;
    }
  }

  lemma {:induction false} SilenceShifts(start: Time, limit: Time, events: seq<Event>, k: nat)
    ensures Silence(start, limit, events + [Tick(LastTick(start, limit, events) + limit)], k)
            == Silence(start, limit, events, k + 1)
  {
    hide LastTick;
    if k > 0 {
      SilenceShifts(start, limit, events, k - 1);
    }
  }

  /** The count is not reset by messages: idle ticks add up however much came in between. */
  lemma CountIsNeverReset()
    ensures var events := [Tick(10), Message(11), Tick(20), Tick(30)];
            OnSchedule(0, 10, events) && Fires(0, 10, 2, events) && events[3].at < LastMessage(0, events) + 2 * 10
  {
    var events := [Tick(10), Message(11), Tick(20), Tick(30)];
    assert events[..0] == [] && events[..1] == [Tick(10)] && events[..2] == [Tick(10), Message(11)]
           && events[..3] == [Tick(10), Message(11), Tick(20)];
    assert events[..1][..0] == [] && events[..2][..1] == events[..1] && events[..3][..2] == events[..2];
    assert Ticks(events[..1]) == 1 && Ticks(events[..2]) == 1 && Ticks(events[..3]) == 2;
    assert LastMessage(0, events[..0]) == 0 && LastMessage(0, events[..2]) == 11 && LastMessage(0, events[..3]) == 11;
    assert IdleTicks(0, 10, events) == {0, 3};
  }
}
