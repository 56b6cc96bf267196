/** Request ids: how the client prints them, how it reads them back, and the ranges it uses for batches. */
module Ids {
  import opened Wrappers

  /** Ids are unsigned 64-bit numbers. */
  const TWO_64: nat := 0x1_0000_0000_0000_0000
  const U64_MAX: nat := TWO_64 - 1

  type U64 = n: nat | n < TWO_64

  datatype Id = Null | Number(n: U64) | Str(s: string)

  datatype IdKind = StringIds | NumberIds

  datatype InvalidRequestId = NotPendingRequest(what: Id) | NotPendingBatch(range: Range) | Invalid(what: Id)

  /** A half-open range of id numbers. */
  datatype Range = Range(start: U64, end: U64)

  function DigitChar(d: nat): (c: char)
    requires d < 10
  {
    '0' + d as char
  }

  /** The decimal text of a number, as formatted by the client for string ids. */
  function Decimal(n: nat): (s: string)
    ensures |s| > 0
    ensures forall i :: 0 <= i < |s| ==> '0' <= s[i] <= '9'
  {
    if n < 10 then [DigitChar(n)] else Decimal(n / 10) + [DigitChar(n % 10)]
  }

  /** Digits read from left to right; every multiplication and addition is checked against 64 bits. */
  function ParseDigits(s: string): (r: Option<U64>)
  {
    if s == "" then Some(0)
    else
      var last := s[|s| - 1];
      match ParseDigits(s[..|s| - 1])
      case None => None
      case Some(v) =>
        if '0' <= last <= '9' then
          var w := 10 * v + (last as nat - '0' as nat);
          if w < TWO_64 then Some(w) else None
        else None
  }

  /** Parsing an unsigned number: a leading plus sign and leading zeros are accepted, an empty text is not. */
  function ParseU64(s: string): (r: Option<U64>)
  {
    if s == "" || s == "+" then None
    else if s[0] == '+' then ParseDigits(s[1..])
    else ParseDigits(s)
  }

  function IntoId(kind: IdKind, n: U64): (id: Id) {
    match kind
    case NumberIds => Number(n)
    case StringIds => Str(Decimal(n))
  }

  function TryParseInnerAsNumber(id: Id): (r: Result<U64, InvalidRequestId>) {
    match id
    case Null => Err(Invalid(id))
    case Number(n) => Ok(n)
    case Str(s) =>
      match ParseU64(s)
      case Some(n) => Ok(n)
      case None => Err(Invalid(id))
  }

  /** The id range of a batch, or nothing when its end would not fit in 64 bits. */
  function GenerateBatchIdRange(id: Id, len: nat): (r: Option<Range>)
    ensures r.Some? ==> r.value.end == r.value.start + len 
  {
    match TryParseInnerAsNumber(id)
    case Err(_) => None
    case Ok(start) => if start + len <= U64_MAX then Some(Range(start, start + len)) else None
  }

  lemma {:induction false} DecimalParses(n: U64)
    ensures ParseDigits(Decimal(n)) == Some(n)
  {
    var s := Decimal(n);
    if n < 10 {
      assert s[..|s| - 1] == "";
      assert ParseDigits("") == Some(0);
    } else {
      DecimalParses(n / 10);
      assert s[..|s| - 1] == Decimal(n / 10);
    }
  }

  /** Every id the client issues reads back as the number it was made from, for both id kinds. */
  lemma IdRoundTrip(kind: IdKind, n: U64)
    ensures TryParseInnerAsNumber(IntoId(kind, n)) == Ok(n)
  {
    DecimalParses(n);
  }

  /** Different numbers never share an id. */
  lemma IntoIdInjective(kind: IdKind, a: U64, b: U64)
    requires IntoId(kind, a) == IntoId(kind, b)
    ensures a == b
  {
    IdRoundTrip(kind, a);
    IdRoundTrip(kind, b);
  }
}
