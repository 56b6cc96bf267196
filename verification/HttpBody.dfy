/** Reading the body of an HTTP request frame by frame. */
module HttpBody {
  import opened Wrappers
  import opened MethodResponses

  datatype HttpError = TooLarge | Malformed | Stream

  predicate IsAsciiWhitespace(b: Byte) {
    b == 0x20 || b == 0x09 || b == 0x0A || b == 0x0C || b == 0x0D
  }

  /** The bytes from the first one that is not whitespace. */
  function Trimmed(s: seq<Byte>): (r: seq<Byte>) {
    if s != [] && IsAsciiWhitespace(s[0]) then Trimmed(s[1..]) else s
  }

  const OBJECT: Byte := 0x7B
  const ARRAY: Byte := 0x5B
  const LOOK_AHEAD := 128

  /** A first frame that shows, within its first 128 bytes, whether the body is a single request or a batch. */
  predicate Shows(first: seq<Byte>) {
    var t := Trimmed(first);
    t != [] && |first| - |t| < LOOK_AHEAD && (t[0] == OBJECT || t[0] == ARRAY)
  }

  /** The data of the frames that have any; trailers have none. */
  function DataOf(frames: seq<Option<seq<Byte>>>): (data: seq<seq<Byte>>) {
    if frames == [] then []
    else
      var n := |frames| - 1;
      DataOf(frames[..n]) + if frames[n].Some? then [frames[n].value] else []
  }

  /** What reading gives: the whole body without leading whitespace, or why it is refused. */
  function BodyOf(contentLength: nat, data: seq<seq<Byte>>, maxBodySize: nat)
    : (r: Result<(seq<Byte>, bool), HttpError>)
  {
    if contentLength > maxBodySize then Err(TooLarge)
    else if data == [] then Err(Malformed)
    else if |data[0]| > maxBodySize then Err(Stream)
    else if !Shows(data[0]) then Err(Malformed)
    else if |Joined(data)| > maxBodySize then Err(Stream)
    else var body := Trimmed(Joined(data)); Ok((body, body != [] && body[0] == OBJECT))
  }

  lemma {:induction false} TrimmedConcat(a: seq<Byte>, b: seq<Byte>)
    requires Trimmed(a) != []
    ensures Trimmed(a + b) == Trimmed(a) + b
  {
    if a != [] && IsAsciiWhitespace(a[0]) {
      assert (a + b)[1..] == a[1..] + b;
      TrimmedConcat(a[1..], b);
    }
  }

  /** The search for the first byte that is not whitespace. */
  method FirstNonWhitespace(chunk: seq<Byte>) returns (idx: Option<nat>)
    ensures idx.Some?
            ==> idx.value < |chunk| && idx.value < LOOK_AHEAD && !IsAsciiWhitespace(chunk[idx.value])
                && Trimmed(chunk) == chunk[idx.value..]
    ensures idx.None? ==> Trimmed(chunk) == [] || |chunk| - |Trimmed(chunk)| >= LOOK_AHEAD
  {
    var i := 0;
    while i < |chunk| && i < LOOK_AHEAD
      invariant 0 <= i <= |chunk| && i <= LOOK_AHEAD && Trimmed(chunk) == Trimmed(chunk[i..])
    {
      if !IsAsciiWhitespace(chunk[i]) {
        assert chunk[i..][0] == chunk[i];
        return Some(i);
      }
      assert chunk[i..][1..] == chunk[i + 1..];
      i := i + 1;
    }
    TrimmedIsShorter(chunk[i..]);
    return None;
  }

  lemma {:induction false} TrimmedIsShorter(s: seq<Byte>)
    ensures |Trimmed(s)| <= |s|
  {
    if s != [] && IsAsciiWhitespace(s[0]) {
      TrimmedIsShorter(s[1..]);
    }
  }

  lemma {:induction false} DataOfPrefix(frames: seq<Option<seq<Byte>>>, i: nat)
    requires i <= |frames|
    ensures DataOf(frames[..i]) <= DataOf(frames)
  {
    if i < |frames| {
      DataOfPrefix(frames[..|frames| - 1], i);
      assert frames[..|frames| - 1][..i] == frames[..i];
    } else {
      assert frames[..i] == frames;
    }
  }

  lemma JoinedOfPrefix(a: seq<seq<Byte>>, b: seq<seq<Byte>>)
    requires a <= b
    ensures |Joined(a)| <= |Joined(b)|
  {
    PrefixIsShorter(b, |a|);
    assert b[..|a|] == a;
  }

  lemma JoinedOne(chunk: seq<Byte>)
    ensures Joined([chunk]) == chunk
  {
    assert [chunk][..0] == [];
  }

  lemma JoinedNext(data: seq<seq<Byte>>, chunk: seq<Byte>)
    ensures Joined(data + [chunk]) == Joined(data) + chunk
  {
    assert (data + [chunk])[..|data|] == data;
  }

  /** A refusal while reading is the refusal of the whole. */
  lemma RefusedEarly(contentLength: nat, some: seq<seq<Byte>>, data: seq<seq<Byte>>, maxBodySize: nat)
    requires some <= data && some != [] && BodyOf(contentLength, some, maxBodySize).Err?
    ensures BodyOf(contentLength, data, maxBodySize) == BodyOf(contentLength, some, maxBodySize)
  {
    hide Shows, Trimmed;
    JoinedOfPrefix(some, data);
    assert data[0] == some[0];
  }

  method ReadBody(contentLength: nat, frames: seq<Option<seq<Byte>>>, maxBodySize: nat)
    returns (r: Result<(seq<Byte>, bool), HttpError>)
    ensures r == BodyOf(contentLength, DataOf(frames), maxBodySize)
  {
    if contentLength > maxBodySize { return Err(TooLarge); }
    var received: seq<Byte> := [];
    var size := 0;
    var isSingle := None;
    ghost var data: seq<seq<Byte>> := [];
    assert frames[..0] == [];
    for i := 0 to |frames|
      invariant data == DataOf(frames[..i]) && size == |Joined(data)|
      invariant data == [] ==> received == [] && isSingle == None
      invariant data != []
                ==> received != [] && isSingle.Some?
                    && BodyOf(contentLength, data, maxBodySize) == Ok((received, isSingle.value))
    {
      assert frames[..i + 1][..i] == frames[..i];
      DataOfPrefix(frames, i + 1);
      if frames[i].Some? {
        var chunk := frames[i].value;
        ghost var before := data;
        data := data + [chunk];
        FrameFacts(contentLength, before, chunk, maxBodySize, received);
        size := size + |chunk|;
        if size > maxBodySize {
          RefusedEarly(contentLength, data, DataOf(frames), maxBodySize);
          return Err(Stream);
        }
        if received == [] {
          var first := FirstNonWhitespace(chunk);
          if first.None? || (chunk[first.value] != OBJECT && chunk[first.value] != ARRAY) {
            RefusedEarly(contentLength, data, DataOf(frames), maxBodySize);
            return Err(Malformed);
          }
          isSingle := Some(chunk[first.value] == OBJECT);
          received := received + chunk[first.value..];
          assert received == Trimmed(chunk);
        } else {
          received := received + chunk;
        }
      }
    }
    assert frames[..|frames|] == frames;
    if isSingle.Some? && received != [] {
      return Ok((received, isSingle.value));
    }
    return Err(Malformed);
  }

  /** One more frame of data. */
  lemma FrameFacts(contentLength: nat, before: seq<seq<Byte>>, chunk: seq<Byte>, maxBodySize: nat, received: seq<Byte>)
    requires contentLength <= maxBodySize
    requires before != []
             ==> BodyOf(contentLength, before, maxBodySize).Ok?
                 && BodyOf(contentLength, before, maxBodySize).value.0 == received && received != []
    ensures |Joined(before + [chunk])| == |Joined(before)| + |chunk|
    ensures |Joined(before + [chunk])| > maxBodySize
            ==> BodyOf(contentLength, before + [chunk], maxBodySize) == Err(Stream)
    ensures before == [] && |chunk| <= maxBodySize
            ==> BodyOf(contentLength, before + [chunk], maxBodySize)
                == if Shows(chunk) then Ok((Trimmed(chunk), Trimmed(chunk)[0] == OBJECT)) else Err(Malformed)
    ensures before != [] && |Joined(before + [chunk])| <= maxBodySize
            ==> BodyOf(contentLength, before + [chunk], maxBodySize) == Ok((received + chunk, received[0] == OBJECT))
  {
    hide Shows;
    JoinedNext(before, chunk);
    JoinedOne(chunk);
    if before == [] {
      assert before + [chunk] == [chunk];
      assert Shows(chunk) ==> Trimmed(chunk) != [] by { ShowsSomething(chunk); }
    } else {
      assert (before + [chunk])[0] == before[0];
      TrimmedConcat(Joined(before), chunk);
    }
  }

  lemma ShowsSomething(chunk: seq<Byte>)
    ensures Shows(chunk) ==> Trimmed(chunk) != []
  {
  }

  /** A body that is refused for its first frame, which is within the limit but does not show what the body is. */
  predicate FirstRefused(data: seq<seq<Byte>>, maxBodySize: nat)
    requires data != []
  {
    |data[0]| <= maxBodySize && !Shows(data[0])
  }

  /**
   * Two cuts of the same body into frames read the same exactly if its length was declared too large, or
   * both first frames are refused, or neither.
   */
  lemma CutMattersExactly(contentLength: nat, a: seq<seq<Byte>>, b: seq<seq<Byte>>, maxBodySize: nat)
    requires a != [] && b != [] && Joined(a) == Joined(b)
    ensures BodyOf(contentLength, a, maxBodySize) == BodyOf(contentLength, b, maxBodySize)
            <==> contentLength > maxBodySize || (FirstRefused(a, maxBodySize) <==> FirstRefused(b, maxBodySize))
    ensures contentLength <= maxBodySize && |Joined(a)| <= maxBodySize
            ==> (BodyOf(contentLength, a, maxBodySize) == BodyOf(contentLength, b, maxBodySize)
                 <==> (Shows(a[0]) <==> Shows(b[0])))
  {
    hide Shows, Trimmed, Joined;
    FirstIsShorter(a);
    FirstIsShorter(b);
  }

  lemma FirstIsShorter(data: seq<seq<Byte>>)
    requires data != []
    ensures |data[0]| <= |Joined(data)|
  {
    JoinedOne(data[0]);
    assert [data[0]] <= data;
    JoinedOfPrefix([data[0]], data);
  }

  /**
   * Two cuts that differ: leading whitespace in a frame of its own is refused, in one frame with the rest it
   * is read.
   */
  lemma WhitespaceFrameRefused(contentLength: nat, maxBodySize: nat)
    requires contentLength <= maxBodySize && maxBodySize >= 3
    ensures BodyOf(contentLength, [[0x20], [0x7B, 0x7D]], maxBodySize) == Err(Malformed)
    ensures BodyOf(contentLength, [[0x20, 0x7B, 0x7D]], maxBodySize) == Ok(([0x7B, 0x7D], true))
  {
    var body: seq<Byte> := [0x20, 0x7B, 0x7D];
    JoinedOne(body);
    assert body[1..] == [0x7B, 0x7D];
    assert [0x20 as Byte][1..] == [];
  }
}
