/**
 * Replies to a batch on the client side: finding out which batch an array of replies belongs to, putting
 * the replies into request order, and what the two clients hand to the caller.
 */
module BatchReplies {
  import opened Wrappers
  import opened Ids
  import opened ClientMessages

  // ---------------------------------------------------------------- full replies

  function BatchIds(kind: IdKind, ids: Range): (r: seq<Id>)
    requires ids.start <= ids.end
    ensures |r| == ids.end - ids.start
    ensures forall k :: 0 <= k < |r| ==> r[k] == IntoId(kind, ids.start + k)
  {
    seq(ids.end - ids.start, k requires 0 <= k < ids.end - ids.start => IntoId(kind, ids.start + k))
  }

  function ReplyIds(rps: seq<Response>): (r: seq<Id>)
    ensures |r| == |rps| && forall i :: 0 <= i < |rps| ==> r[i] == rps[i].id
  {
    seq(|rps|, i requires 0 <= i < |rps| => rps[i].id)
  }

  /** The replies answer every request of the batch once, in any order. */
  ghost predicate FullReply(kind: IdKind, rps: seq<Response>, ids: Range) {
    ids.start < ids.end && multiset(ReplyIds(rps)) == multiset(BatchIds(kind, ids))
  }

  /** The number in a reply's id; -1 when the id is not a number. */
  function ReplyNumber(rp: Response): (n: int)
    ensures -1 <= n < TWO_64
  {
    match TryParseInnerAsNumber(rp.id)
    case Ok(n) => n
    case Err(_) => -1
  }

  /** The numbers of the replies are those of the range, each exactly once. */
  ghost predicate CoversOnce(rps: seq<Response>, ids: Range) {
    && ids.start < ids.end && |rps| == ids.end - ids.start
    && (forall i :: 0 <= i < |rps| ==> ids.start <= ReplyNumber(rps[i]) < ids.end)
    && (forall i, j :: 0 <= i < j < |rps| ==> ReplyNumber(rps[i]) != ReplyNumber(rps[j]))
    && (forall n: int :: ids.start <= n < ids.end ==> HasNumber(rps, n))
  }

  ghost predicate HasNumber(rps: seq<Response>, n: int) {
    exists i :: 0 <= i < |rps| && ReplyNumber(rps[i]) == n
  }

  lemma {:induction false} DistinctCounts<T>(s: seq<T>, v: T)
    requires forall i, j :: 0 <= i < j < |s| ==> s[i] != s[j]
    ensures multiset(s)[v] <= 1
  {
    if s != [] {
      var front := s[..|s| - 1];
      DistinctCounts(front, v);
      assert s == front + [s[|s| - 1]];
      if s[|s| - 1] == v {
        assert v !in front;
        assert v !in multiset(front);
      }
    }
  }

  lemma TwiceCounts<T>(s: seq<T>, i: nat, j: nat)
    requires i < j < |s| && s[i] == s[j]
    ensures multiset(s)[s[i]] >= 2
  {
    assert s == s[..j] + [s[j]] + s[j + 1..];
    assert s[i] == s[..j][i];
    assert s[i] in multiset(s[..j]);
  }

  lemma NumberInRange(kind: IdKind, rps: seq<Response>, ids: Range, i: nat) returns (k: nat)
    requires FullReply(kind, rps, ids) && i < |rps|
    ensures k < ids.end - ids.start && rps[i].id == BatchIds(kind, ids)[k] && ReplyNumber(rps[i]) == ids.start + k
  {
    hide IntoId, TryParseInnerAsNumber;
    var got, want := ReplyIds(rps), BatchIds(kind, ids);
    assert got[i] in multiset(got);
    assert got[i] in want;
    k :| 0 <= k < |want| && want[k] == got[i];
    IdRoundTrip(kind, ids.start + k);
  }

  lemma NumberOccurs(kind: IdKind, rps: seq<Response>, ids: Range, n: U64)
    requires FullReply(kind, rps, ids) && ids.start <= n < ids.end
    ensures HasNumber(rps, n)
  {
    hide IntoId, TryParseInnerAsNumber;
    var got, want := ReplyIds(rps), BatchIds(kind, ids);
    assert want[n - ids.start] in multiset(want);
    assert want[n - ids.start] in got;
    var i :| 0 <= i < |got| && got[i] == want[n - ids.start];
    IdRoundTrip(kind, n);
    assert ReplyNumber(rps[i]) == n;
  }

  lemma NumberOnce(kind: IdKind, rps: seq<Response>, ids: Range, i: nat, j: nat)
    requires FullReply(kind, rps, ids) && i < j < |rps|
    ensures ReplyNumber(rps[i]) != ReplyNumber(rps[j])
  {
    hide IntoId, TryParseInnerAsNumber;
    if ReplyNumber(rps[i]) == ReplyNumber(rps[j]) {
      var k := NumberInRange(kind, rps, ids, i);
      var l := NumberInRange(kind, rps, ids, j);
      TwiceCounts(ReplyIds(rps), i, j);
      var want := BatchIds(kind, ids);
      forall a, b | 0 <= a < b < |want| ensures want[a] != want[b] {
        if want[a] == want[b] {
          IntoIdInjective(kind, ids.start + a, ids.start + b);
        }
      }
      DistinctCounts(want, want[k]);
      assert false;
    }
  }

  /** In a full reply every number is in range, every number of the range occurs, and none occurs twice. */
  lemma FullReplyCovers(kind: IdKind, rps: seq<Response>, ids: Range)
    requires FullReply(kind, rps, ids)
    ensures CoversOnce(rps, ids)
  {
    hide IntoId, ReplyNumber;
    assert |multiset(ReplyIds(rps))| == |rps| && |multiset(BatchIds(kind, ids))| == ids.end - ids.start;
    forall i | 0 <= i < |rps| ensures ids.start <= ReplyNumber(rps[i]) < ids.end {
      var _ := NumberInRange(kind, rps, ids, i);
    }
    forall n: int | ids.start <= n < ids.end ensures HasNumber(rps, n) {
      NumberOccurs(kind, rps, ids, n);
    }
    forall i, j | 0 <= i < j < |rps| ensures ReplyNumber(rps[i]) != ReplyNumber(rps[j]) {
      NumberOnce(kind, rps, ids, i, j);
    }
  }

  // ---------------------------------------------------------------- which batch

  /** Widens the running range; while it grows its end is the largest number itself. */
  function Widen(range: Option<Range>, n: U64): (r: Range) {
    match range
    case None => Range(n, n)
    case Some(Range(lo, hi)) => Range(if n < lo then n else lo, if n > hi then n else hi)
  }

  /** The running range after the replies of a list whose ids are all numbers. */
  function RunningRange(rps: seq<Response>): (r: Option<Range>) {
    if rps == [] then None
    else
      var n := ReplyNumber(rps[|rps| - 1]);
      if n >= 0 then Some(Widen(RunningRange(rps[..|rps| - 1]), n)) else RunningRange(rps[..|rps| - 1])
  }

  /** The exclusive range handed on; one more than the largest 64-bit number does not exist. */
  function Exclusive(range: Range): (r: Option<Range>) {
    if range.end == U64_MAX then None else Some(Range(range.start, range.end + 1))
  }

  /** The running range is the least and the greatest of the numbers. */
  lemma {:induction false} RunningRangeBounds(rps: seq<Response>)
    requires rps != [] && forall i :: 0 <= i < |rps| ==> ReplyNumber(rps[i]) >= 0
    ensures RunningRange(rps).Some?
    ensures forall i ::
            0 <= i < |rps| ==> RunningRange(rps).value.start <= ReplyNumber(rps[i]) <= RunningRange(rps).value.end
    ensures exists i :: 0 <= i < |rps| && ReplyNumber(rps[i]) == RunningRange(rps).value.start
    ensures exists i :: 0 <= i < |rps| && ReplyNumber(rps[i]) == RunningRange(rps).value.end
  {
    var front := rps[..|rps| - 1];
    var last := ReplyNumber(rps[|rps| - 1]);
    if front == [] {
      assert RunningRange(front) == None;
      assert ReplyNumber(rps[0]) == last;
    } else {
      RunningRangeBounds(front);
      var a :| 0 <= a < |front| && ReplyNumber(front[a]) == RunningRange(front).value.start;
      var b :| 0 <= b < |front| && ReplyNumber(front[b]) == RunningRange(front).value.end;
      assert rps[a] == front[a] && rps[b] == front[b];
      assert ReplyNumber(rps[|rps| - 1]) == last;
      forall i | 0 <= i < |rps|
        ensures RunningRange(rps).value.start <= ReplyNumber(rps[i]) <= RunningRange(rps).value.end
      {
        if i < |front| {
          assert rps[i] == front[i];
        }
      }
    }
  }

  /** A full reply in any order identifies its batch exactly, and the end of its range does not overflow. */
  lemma RangeRecovered(kind: IdKind, rps: seq<Response>, ids: Range)
    requires FullReply(kind, rps, ids)
    ensures RunningRange(rps).Some? && Exclusive(RunningRange(rps).value) == Some(ids)
  {
    hide ReplyNumber, FullReply, RunningRange;
    FullReplyCovers(kind, rps, ids);
    RunningRangeBounds(rps);
    assert HasNumber(rps, ids.start) && HasNumber(rps, ids.end - 1);
  }

  /** The overflow needs a reply whose number is the largest there is, and then it always happens. */
  lemma RangeOverflows(rps: seq<Response>)
    requires rps != [] && forall i :: 0 <= i < |rps| ==> ReplyNumber(rps[i]) >= 0
    ensures RunningRange(rps).Some?
    ensures Exclusive(RunningRange(rps).value) == None <==> exists i :: 0 <= i < |rps| && ReplyNumber(rps[i]) == U64_MAX
  {
    RunningRangeBounds(rps);
    var top :| 0 <= top < |rps| && ReplyNumber(rps[top]) == RunningRange(rps).value.end;
    if i :| 0 <= i < |rps| && ReplyNumber(rps[i]) == U64_MAX {
      assert RunningRange(rps).value.end == U64_MAX;
    }
  }

  // ---------------------------------------------------------------- request order

  const PLACEHOLDER := Response(Null, Failure(0, ""))

  /** The slot of a number, when it is one of `len` slots from `start`. */
  function Slot(n: U64, start: U64, len: nat): (r: Option<nat>)
    ensures r.Some? ==> r.value < len && n == start + r.value
    ensures r.None? ==> n < start || n >= start + len
  {
    if start <= n && n - start < len then Some(n - start) else None
  }

  function RangeLen(ids: Range): (n: nat) {
    if ids.start <= ids.end then ids.end - ids.start else 0
  }

  /** The slots after the first `k` replies were put in place. */
  function Placed(rps: seq<Response>, k: nat, ids: Range): (r: Result<seq<Response>, InvalidRequestId>)
    requires k <= |rps|
    ensures r.Ok? ==> |r.value| == RangeLen(ids)
  {
    if k == 0 then Ok(seq(RangeLen(ids), _ => PLACEHOLDER))
    else
      match Placed(rps, k - 1, ids)
      case Err(e) => Err(e)
      case Ok(slots) =>
        match TryParseInnerAsNumber(rps[k - 1].id)
        case Err(e) => Err(e)
        case Ok(n) =>
          match Slot(n, ids.start, |slots|)
          case Some(p) => Ok(slots[p := rps[k - 1]])
          case None => Err(NotPendingRequest(rps[k - 1].id))
  }

  /** Filling the slots: placeholders first, then one reply after another. */
  method PlaceReplies(rps: seq<Response>, ids: Range) returns (r: Result<seq<Response>, InvalidRequestId>)
    ensures r == Placed(rps, |rps|, ids)
  {
    var slots: seq<Response> := [];
    while ids.start + |slots| < ids.end
      invariant |slots| <= RangeLen(ids)
      invariant forall p :: 0 <= p < |slots| ==> slots[p] == PLACEHOLDER
    {
      slots := slots + [PLACEHOLDER];
    }
    assert slots == seq(RangeLen(ids), _ => PLACEHOLDER);
    var i := 0;
    while i < |rps|
      invariant 0 <= i <= |rps|
      invariant Placed(rps, i, ids) == Ok(slots)
    {
      match TryParseInnerAsNumber(rps[i].id) {
        case Err(e) =>
          PlacedStuck(rps, i + 1, |rps|, ids);
          return Err(e);
        case Ok(n) =>
          if ids.start <= n && n - ids.start < |slots| {
            slots := slots[n - ids.start := rps[i]];
          } else {
            PlacedStuck(rps, i + 1, |rps|, ids);
            return Err(NotPendingRequest(rps[i].id));
          }
      }
      i := i + 1;
    }
    return Ok(slots);
  }

  lemma {:induction false} PlacedStuck(rps: seq<Response>, j: nat, k: nat, ids: Range)
    requires j <= k <= |rps| && Placed(rps, j, ids).Err?
    ensures Placed(rps, k, ids) == Placed(rps, j, ids)
  {
    if j < k {
      PlacedStuck(rps, j, k - 1, ids);
    }
  }

  lemma {:induction false} PlacedSlots(rps: seq<Response>, k: nat, ids: Range)
    requires CoversOnce(rps, ids) && k <= |rps|
    ensures Placed(rps, k, ids).Ok?
    ensures forall i :: 0 <= i < k ==> Placed(rps, k, ids).value[ReplyNumber(rps[i]) - ids.start] == rps[i]
  {
    if k > 0 {
      PlacedSlots(rps, k - 1, ids);
      assert ids.start <= ReplyNumber(rps[k - 1]) < ids.end;
      assert forall i :: 0 <= i < k - 1 ==> ReplyNumber(rps[i]) != ReplyNumber(rps[k - 1]);
    }
  }

  /** Entry `p` of the result is the reply with number start + p, whatever order the replies came in. */
  lemma RepliesInRequestOrder(kind: IdKind, rps: seq<Response>, ids: Range)
    requires FullReply(kind, rps, ids)
    ensures Placed(rps, |rps|, ids).Ok?
    ensures |Placed(rps, |rps|, ids).value| == ids.end - ids.start
    ensures forall p: nat :: p < ids.end - ids.start ==>
              var rp := Placed(rps, |rps|, ids).value[p];
              rp in rps && ReplyNumber(rp) == ids.start + p
  {
    hide Placed, ReplyNumber, FullReply;
    FullReplyCovers(kind, rps, ids);
    PlacedSlots(rps, |rps|, ids);
    forall p: nat | p < ids.end - ids.start
      ensures var rp := Placed(rps, |rps|, ids).value[p]; rp in rps && ReplyNumber(rp) == ids.start + p
    {
      assert HasNumber(rps, ids.start + p);
      var i :| 0 <= i < |rps| && ReplyNumber(rps[i]) == ids.start + p;
      assert Placed(rps, |rps|, ids).value[ReplyNumber(rps[i]) - ids.start] == rps[i];
    }
  }

  // ---------------------------------------------------------------- what the caller gets

  datatype BatchEntry<+R> = EntryOk(value: R) | EntryErr(code: int, message: string)

  datatype BatchResponse<+R> = BatchResponse(successful: nat, failed: nat, responses: seq<BatchEntry<R>>)

  datatype BatchError = ResultNotDecoded | BadReplyId(e: InvalidRequestId)

  /** One entry of the caller's batch response; nothing when a result does not decode into the caller's type. */
  function EntryOf<R>(rp: Response, decode: string -> Option<R>): (r: Option<BatchEntry<R>>) {
    match rp.payload
    case Success(json) =>
      (match decode(json)
       case Some(v) => Some(EntryOk(v))
       case None => None)
    case Failure(code, message) => Some(EntryErr(code, message))
  }

  function CountOk<R>(entries: seq<BatchEntry<R>>): (n: nat)
    ensures n <= |entries|
  {
    if entries == [] then 0
    else CountOk(entries[..|entries| - 1]) + if entries[|entries| - 1].EntryOk? then 1 else 0
  }

  /** What a batch response must be: the entries, and counts that match them. */
  function Tallied<R>(entries: seq<BatchEntry<R>>): (r: BatchResponse<R>) {
    BatchResponse(CountOk(entries), |entries| - CountOk(entries), entries)
  }

  /** The async client: replies are in request order already and are decoded and counted one by one. */
  method AsyncBatchResponse<R>(rps: seq<Response>, decode: string -> Option<R>)
    returns (r: Result<BatchResponse<R>, BatchError>)
    ensures r.Ok? <==> forall i :: 0 <= i < |rps| ==> EntryOf(rps[i], decode).Some?
    ensures r.Err? ==> r.error == ResultNotDecoded
    ensures r.Ok? ==> r.value == Tallied(r.value.responses) && |r.value.responses| == |rps|
    ensures r.Ok? ==> forall i :: 0 <= i < |rps| ==> Some(r.value.responses[i]) == EntryOf(rps[i], decode)
  {
    var responses: seq<BatchEntry<R>> := [];
    var successful, failed := 0, 0;
    var i := 0;
    while i < |rps|
      invariant 0 <= i <= |rps| && |responses| == i
      invariant forall j ::
                0 <= j < i ==> EntryOf(rps[j], decode).Some? && responses[j] == EntryOf(rps[j], decode).value
      invariant successful == CountOk(responses) && failed == i - successful
    {
      match rps[i].payload {
        case Success(json) =>
          match decode(json) {
            case None =>
              assert EntryOf(rps[i], decode).None?;
              return Err(ResultNotDecoded);
            case Some(v) =>
              assert (responses + [EntryOk(v)])[..i] == responses;
              responses := responses + [EntryOk(v)];
              successful := successful + 1;
          }
        case Failure(code, message) =>
          assert (responses + [EntryErr(code, message)])[..i] == responses;
          responses := responses + [EntryErr(code, message)];
          failed := failed + 1;
      }
      i := i + 1;
    }
    return Ok(BatchResponse(successful, failed, responses));
  }

  /** The HTTP client's accumulator after the first `k` replies of the array. */
  datatype HttpTally<R> = HttpTally(entries: seq<BatchEntry<R>>, success: nat, failed: nat)

  function HttpPlaced<R>(rps: seq<Response>, k: nat, start: U64,
                         decode: string -> Option<R>): (r: Result<HttpTally<R>, BatchError>)
    requires k <= |rps|
    ensures r.Ok? ==> |r.value.entries| == |rps|
  {
    if k == 0 then Ok(HttpTally(seq(|rps|, _ => EntryErr(0, "")), 0, 0))
    else
      match HttpPlaced(rps, k - 1, start, decode)
      case Err(e) => Err(e)
      case Ok(t) =>
        match TryParseInnerAsNumber(rps[k - 1].id)
        case Err(e) => Err(BadReplyId(e))
        case Ok(n) =>
          match EntryOf(rps[k - 1], decode)
          case None => Err(ResultNotDecoded)
          case Some(entry) =>
            match Slot(n, start, |t.entries|)
            case None => Err(BadReplyId(NotPendingRequest(rps[k - 1].id)))
            case Some(p) =>
              Ok(HttpTally(t.entries[p := entry],
                           t.success + (if entry.EntryOk? then 1 else 0),
                           t.failed + (if entry.EntryOk? then 0 else 1)))
  }

  lemma {:induction false} HttpStuck<R>(rps: seq<Response>, j: nat, k: nat, start: U64, decode: string -> Option<R>)
    requires j <= k <= |rps| && HttpPlaced(rps, j, start, decode).Err?
    ensures HttpPlaced(rps, k, start, decode) == HttpPlaced(rps, j, start, decode)
  {
    if j < k {
      HttpStuck(rps, j, k - 1, start, decode);
    }
  }

  /** The HTTP client: one pass over the array as it came, placing and counting together. */
  method HttpBatchResponse<R>(rps: seq<Response>, start: U64, decode: string -> Option<R>)
    returns (r: Result<BatchResponse<R>, BatchError>)
    ensures match HttpPlaced(rps, |rps|, start, decode)
            case Ok(t) => r == Ok(BatchResponse(t.success, t.failed, t.entries))
            case Err(e) => r == Err(e)
  {
    var entries: seq<BatchEntry<R>> := [];
    while |entries| < |rps|
      invariant |entries| <= |rps|
      invariant forall p :: 0 <= p < |entries| ==> entries[p] == EntryErr(0, "")
    {
      entries := entries + [EntryErr(0, "")];
    }
    assert entries == seq(|rps|, _ => EntryErr(0, ""));
    var success, failed := 0, 0;
    var i := 0;
    while i < |rps|
      invariant 0 <= i <= |rps|
      invariant HttpPlaced(rps, i, start, decode) == Ok(HttpTally(entries, success, failed))
    {
      var n;
      match TryParseInnerAsNumber(rps[i].id) {
        case Err(e) =>
          HttpStuck(rps, i + 1, |rps|, start, decode);
          return Err(BadReplyId(e));
        case Ok(m) => n := m;
      }
      var entry;
      match rps[i].payload {
        case Success(json) =>
          match decode(json) {
            case None =>
              HttpStuck(rps, i + 1, |rps|, start, decode);
              return Err(ResultNotDecoded);
            case Some(v) =>
              entry := EntryOk(v);
          }
        case Failure(code, message) =>
          entry := EntryErr(code, message);
      }
      if start <= n && n - start < |entries| {
        entries := entries[n - start := entry];
      } else {
        HttpStuck(rps, i + 1, |rps|, start, decode);
        return Err(BadReplyId(NotPendingRequest(rps[i].id)));
      }
      if entry.EntryOk? {
        success := success + 1;
      } else {
        failed := failed + 1;
      }
      i := i + 1;
    }
    return Ok(BatchResponse(success, failed, entries));
  }

  lemma {:induction false} CountUpdate<R>(entries: seq<BatchEntry<R>>, p: nat, entry: BatchEntry<R>)
    requires p < |entries| && entries[p].EntryErr?
    ensures CountOk(entries[p := entry]) == CountOk(entries) + if entry.EntryOk? then 1 else 0
  {
    var last := |entries| - 1;
    if p == last {
      assert entries[p := entry][..last] == entries[..last];
    } else {
      CountUpdate(entries[..last], p, entry);
      assert entries[p := entry][..last] == entries[..last][p := entry];
    }
  }

  lemma {:induction false} NoneOk<R>(n: nat)
    ensures CountOk<R>(seq(n, _ => EntryErr(0, ""))) == 0
  {
    if n > 0 {
      NoneOk<R>(n - 1);
      var s: seq<BatchEntry<R>> := seq(n, _ => EntryErr(0, ""));
      assert s[..n - 1] == seq(n - 1, _ => EntryErr(0, ""));
    }
  }

  /**
   * After `k` replies of a full array: those sit in their slots, the others' slots are placeholders, the
   * counts match.
   */
  lemma {:induction false} HttpSlots<R>(rps: seq<Response>, k: nat, ids: Range, decode: string -> Option<R>)
    requires CoversOnce(rps, ids) && k <= |rps|
    requires forall i :: 0 <= i < k ==> EntryOf(rps[i], decode).Some?
    ensures HttpPlaced(rps, k, ids.start, decode).Ok?
    ensures var t := HttpPlaced(rps, k, ids.start, decode).value;
            t.success == CountOk(t.entries) && t.success + t.failed == k
    ensures forall i :: 0 <= i < |rps| ==>
              var entry := HttpPlaced(rps, k, ids.start, decode).value.entries[ReplyNumber(rps[i]) - ids.start];
              if i < k then Some(entry) == EntryOf(rps[i], decode) else entry.EntryErr?
  {
    hide EntryOf;
    if k == 0 {
      NoneOk<R>(|rps|);
    } else {
      HttpSlots(rps, k - 1, ids, decode);
      var t := HttpPlaced(rps, k - 1, ids.start, decode).value;
      var entry := EntryOf(rps[k - 1], decode).value;
      HttpNext(rps, k, ids, decode);
      CountUpdate(t.entries, ReplyNumber(rps[k - 1]) - ids.start, entry);
      hide HttpPlaced, ReplyNumber, CountOk;
      forall i | 0 <= i < |rps|
        ensures var e := t.entries[ReplyNumber(rps[k - 1]) - ids.start := entry][ReplyNumber(rps[i]) - ids.start];
                if i < k then Some(e) == EntryOf(rps[i], decode) else e.EntryErr?
      {
        assert i != k - 1 ==> ReplyNumber(rps[i]) != ReplyNumber(rps[k - 1]);
      }
    }
  }

  /** One more reply of a full array goes into its slot. */
  lemma HttpNext<R>(rps: seq<Response>, k: nat, ids: Range, decode: string -> Option<R>)
    requires CoversOnce(rps, ids) && 0 < k <= |rps|
    requires HttpPlaced(rps, k - 1, ids.start, decode).Ok? && EntryOf(rps[k - 1], decode).Some?
    ensures var t := HttpPlaced(rps, k - 1, ids.start, decode).value;
            var entry := EntryOf(rps[k - 1], decode).value;
            HttpPlaced(rps, k, ids.start, decode)
            == Ok(HttpTally(t.entries[ReplyNumber(rps[k - 1]) - ids.start := entry],
                            t.success + (if entry.EntryOk? then 1 else 0),
                            t.failed + (if entry.EntryOk? then 0 else 1)))
  {
    hide EntryOf;
  }

  lemma {:induction false} HttpUndecoded<R>(rps: seq<Response>, k: nat, ids: Range, decode: string -> Option<R>)
    requires CoversOnce(rps, ids) && k < |rps|
    requires EntryOf(rps[k], decode).None? && forall i :: 0 <= i < k ==> EntryOf(rps[i], decode).Some?
    ensures HttpPlaced(rps, |rps|, ids.start, decode) == Err(ResultNotDecoded)
  {
    hide EntryOf;
    HttpSlots(rps, k, ids, decode);
    assert ReplyNumber(rps[k]) >= 0;
    HttpStuck(rps, k + 1, |rps|, ids.start, decode);
  }

  /** The entries the caller must get: at each position the decoded reply with that number. */
  ghost predicate InRequestOrder<R>(entries: seq<BatchEntry<R>>, rps: seq<Response>, ids: Range,
                                    decode: string -> Option<R>) {
    && |entries| == ids.end - ids.start
    && forall i :: 0 <= i < |rps| ==>
         ids.start <= ReplyNumber(rps[i]) < ids.end
           && Some(entries[ReplyNumber(rps[i]) - ids.start]) == EntryOf(rps[i], decode)
  }

  /** At most one list of entries is in request order. */
  lemma RequestOrderUnique<R>(a: seq<BatchEntry<R>>, b: seq<BatchEntry<R>>, rps: seq<Response>, ids: Range,
                              decode: string -> Option<R>)
    requires CoversOnce(rps, ids) && InRequestOrder(a, rps, ids, decode) && InRequestOrder(b, rps, ids, decode)
    ensures a == b
  {
    hide EntryOf, ReplyNumber;
    forall p | 0 <= p < |a| ensures a[p] == b[p] {
      assert HasNumber(rps, ids.start + p);
    }
  }

  /**
   * For a full reply in any order, both clients give the caller the same batch response: both fail when a
   * result does not decode, and otherwise entry p is the reply with number start + p and the counts of
   * successes and failures match the entries.
   */
  method BothClients<R>(kind: IdKind, rps: seq<Response>, ids: Range, decode: string -> Option<R>)
    returns (viaHttp: Result<BatchResponse<R>, BatchError>, viaAsync: Result<BatchResponse<R>, BatchError>)
    requires FullReply(kind, rps, ids)
    ensures viaHttp == viaAsync
    ensures viaHttp.Ok? <==> forall i :: 0 <= i < |rps| ==> EntryOf(rps[i], decode).Some?
    ensures viaHttp.Ok? ==> viaHttp.value == Tallied(viaHttp.value.responses)
    ensures viaHttp.Ok? ==> InRequestOrder(viaHttp.value.responses, rps, ids, decode)
  {
    hide EntryOf, ReplyNumber, HttpPlaced, Placed, FullReply, CountOk;
    FullReplyCovers(kind, rps, ids);
    PlacedSlots(rps, |rps|, ids);
    viaHttp := HttpBatchResponse(rps, ids.start, decode);
    var placed := PlaceReplies(rps, ids);
    ghost var slots := placed.value;
    viaAsync := AsyncBatchResponse(placed.value, decode);
    if forall i :: 0 <= i < |rps| ==> EntryOf(rps[i], decode).Some? {
      HttpSlots(rps, |rps|, ids, decode);
      forall p | 0 <= p < |slots| ensures EntryOf(slots[p], decode).Some? {
        assert HasNumber(rps, ids.start + p);
        var i :| 0 <= i < |rps| && ReplyNumber(rps[i]) == ids.start + p;
        assert slots[ReplyNumber(rps[i]) - ids.start] == rps[i];
      }
      assert InRequestOrder(viaAsync.value.responses, rps, ids, decode);
      assert InRequestOrder(viaHttp.value.responses, rps, ids, decode);
      RequestOrderUnique(viaHttp.value.responses, viaAsync.value.responses, rps, ids, decode);
    } else {
      ghost var k := FirstUndecoded(rps, decode);
      HttpUndecoded(rps, k, ids, decode);
      assert slots[ReplyNumber(rps[k]) - ids.start] == rps[k];
    }
  }

  lemma FirstUndecoded<R>(rps: seq<Response>, decode: string -> Option<R>) returns (k: nat)
    requires exists i :: 0 <= i < |rps| && EntryOf(rps[i], decode).None?
    ensures k < |rps| && EntryOf(rps[k], decode).None?
    ensures forall i :: 0 <= i < k ==> EntryOf(rps[i], decode).Some?
  {
    k := 0;
    while EntryOf(rps[k], decode).Some?
      invariant k < |rps|
      invariant forall i :: 0 <= i < k ==> EntryOf(rps[i], decode).Some?
      decreases |rps| - k
    {
      k := k + 1;
    }
  }
}
