/**
 * A small JSON model: values, the compact printer and a prefix parser, with the law that a printed
 * value is read back whatever delimiter follows it.
 */
module Json {
  import opened Wrappers
  import opened Ids

  datatype Json =
    | JNull
    | JBool(b: bool)
    | JInt(n: int)
    | JReal(text: RealText)
    | JStr(s: string)
    | JArr(items: seq<Json>)
    | JObj(fields: seq<(string, Json)>)

  /** The text of a number that is not a plain integer: it has a fraction or an exponent, or is a negative zero. */
  type RealText = s: string | IsReal(s) witness (IsRealWitness(); "0.5")

  predicate IsReal(s: string) {
    NumberEnd(s) == Some(|s|) && ParseInt(s) == None
  }

  lemma IsRealWitness()
    ensures IsReal("0.5")
  {
    var s := "0.5";
    assert s[1..] == ".5" && s[1..][1..] == "5" && s[1..][2..] == "" && "5"[1..] == "";
    assert CountDigits("5") == 1 && CountDigits(".5") == 0 && CountDigits(s) == 1;
  }

  /** A parsed value and the text that follows it. */
  datatype Parsed<+T> = Parsed(value: T, rest: string)

  // ---------------------------------------------------------------- printing

  function HexChar(d: nat): (c: char)
    requires d < 16
  {
    if d < 10 then '0' + d as char else 'a' + (d - 10) as char
  }

  /** Quotes, backslashes and control characters are escaped; everything else is copied. */
  function EscapeChar(c: char): (s: string) {
    if c == '"' then "\\\""
    else if c == '\\' then "\\\\"
    else if c as int == 8 then "\\b"
    else if c as int == 9 then "\\t"
    else if c as int == 10 then "\\n"
    else if c as int == 12 then "\\f"
    else if c as int == 13 then "\\r"
    else if c as int < 32 then "\\u00" + [HexChar(c as nat / 16), HexChar(c as nat % 16)]
    else [c]
  }

  function Escape(s: string): (r: string) {
    if s == "" then "" else EscapeChar(s[0]) + Escape(s[1..])
  }

  function PrintStr(s: string): (r: string) {
    "\"" + Escape(s) + "\""
  }

  function PrintInt(n: int): (r: string) {
    if n < 0 then "-" + Decimal(-n) else Decimal(n)
  }

  function Print(v: Json): (r: string)
    decreases v, 1
  {
    match v
    case JNull => "null"
    case JBool(b) => if b then "true" else "false"
    case JInt(n) => PrintInt(n)
    case JReal(text) => text
    case JStr(s) => PrintStr(s)
    case JArr(items) => "[" + PrintItems(items) + "]"
    case JObj(fields) => "{" + PrintFields(fields) + "}"
  }

  function PrintItems(items: seq<Json>): (r: string)
    decreases items, 0
  {
    if items == [] then ""
    else if |items| == 1 then Print(items[0])
    else Print(items[0]) + "," + PrintItems(items[1..])
  }

  function PrintField(f: (string, Json)): (r: string)
    decreases f, 2
  {
    PrintStr(f.0) + ":" + Print(f.1)
  }

  function PrintFields(fields: seq<(string, Json)>): (r: string)
    decreases fields, 0
  {
    if fields == [] then ""
    else if |fields| == 1 then PrintField(fields[0])
    else PrintField(fields[0]) + "," + PrintFields(fields[1..])
  }

  // ---------------------------------------------------------------- parsing

  predicate IsSpace(c: char) {
    c == ' ' || c == '\n' || c == '\t' || c == '\r'
  }

  function SkipSpaces(s: string): (r: string)
    ensures |r| <= |s|
    ensures r == "" || !IsSpace(r[0])
  {
    if s != "" && IsSpace(s[0]) then SkipSpaces(s[1..]) else s
  }

  predicate IsDigit(c: char) {
    '0' <= c <= '9'
  }

  function CountDigits(s: string): (k: nat)
    ensures k <= |s|
    ensures forall i :: 0 <= i < k ==> IsDigit(s[i])
    ensures k < |s| ==> !IsDigit(s[k])
  {
    if s != "" && IsDigit(s[0]) then 1 + CountDigits(s[1..]) else 0
  }

  function DigitsValue(s: string): (v: nat)
    requires forall i :: 0 <= i < |s| ==> IsDigit(s[i])
  {
    if s == "" then 0
    else
      assert IsDigit(s[|s| - 1]);
      10 * DigitsValue(s[..|s| - 1]) + (s[|s| - 1] as nat - '0' as nat)
  }

  /** The fraction at the front of a text, if there is one; a point needs digits after it. */
  function FractionEnd(s: string): (r: Option<nat>)
    ensures r.Some? ==> r.value <= |s|
  {
    if s == "" || s[0] != '.' then Some(0)
    else
      var k := CountDigits(s[1..]);
      if k == 0 then None else Some(1 + k)
  }

  /** The exponent at the front of a text, if there is one; it may have a sign and needs digits. */
  function ExponentEnd(s: string): (r: Option<nat>)
    ensures r.Some? ==> r.value <= |s|
  {
    if s == "" || s[0] !in "eE" then Some(0)
    else
      var sign := if |s| > 1 && s[1] in "+-" then 1 else 0;
      var k := CountDigits(s[1 + sign..]);
      if k == 0 then None else Some(1 + sign + k)
  }

  /** Where the number at the front of a text ends. */
  function NumberEnd(s: string): (r: Option<nat>)
    ensures r.Some? ==> 0 < r.value <= |s|
  {
    var sign := if s != "" && s[0] == '-' then 1 else 0;
    var k := CountDigits(s[sign..]);
    if k == 0 || (k > 1 && s[sign] == '0') then None
    else
      var whole := sign + k;
      match FractionEnd(s[whole..])
      case None => None
      case Some(f) =>
        match ExponentEnd(s[whole + f..])
        case None => None
        case Some(e) => Some(whole + f + e)
  }

  /** Any number: a plain integer by its value, another one by its text. */
  function ParseNumber(s: string): (r: Option<Parsed<Json>>)
    ensures r.Some? ==> |r.value.rest| < |s|
  {
    match ParseInt(s)
    case Some(Parsed(n, rest)) => Some(Parsed(JInt(n), rest))
    case None =>
      match NumberEnd(s)
      case None => None
      case Some(k) => if IsReal(s[..k]) then Some(Parsed(JReal(s[..k]), s[k..])) else None
  }

  /** Integers only: a leading zero, a fraction or an exponent is not read. */
  function ParseNat(s: string): (r: Option<Parsed<int>>)
    ensures r.Some? ==> |r.value.rest| < |s| && r.value.value >= 0
  {
    var k := CountDigits(s);
    if k == 0 || (k > 1 && s[0] == '0') || (k < |s| && s[k] in ".eE") then None
    else Some(Parsed(DigitsValue(s[..k]), s[k..]))
  }

  function ParseInt(s: string): (r: Option<Parsed<int>>)
    ensures r.Some? ==> |r.value.rest| < |s|
  {
    if s != "" && s[0] == '-' then
      match ParseNat(s[1..])
      case Some(Parsed(n, rest)) => if n == 0 then None else Some(Parsed(-n, rest))
      case None => None
    else ParseNat(s)
  }

  function HexValue(c: char): (r: Option<nat>)
    ensures r.Some? ==> r.value < 16
  {
    if '0' <= c <= '9' then Some(c as nat - '0' as nat)
    else if 'a' <= c <= 'f' then Some(10 + c as nat - 'a' as nat)
    else if 'A' <= c <= 'F' then Some(10 + c as nat - 'A' as nat)
    else None
  }

  /** The character after a backslash, with the number of characters it takes; surrogates are not read. */
  function ParseEscape(s: string): (r: Option<(char, nat)>)
    ensures r.Some? ==> 0 < r.value.1 <= |s|
  {
    if s == "" then None
    else if s[0] == '"' || s[0] == '\\' || s[0] == '/' then Some((s[0], 1))
    else if s[0] == 'b' then Some((8 as char, 1))
    else if s[0] == 'f' then Some((12 as char, 1))
    else if s[0] == 'n' then Some(('\n', 1))
    else if s[0] == 'r' then Some(('\r', 1))
    else if s[0] == 't' then Some(('\t', 1))
    else if s[0] == 'u' && |s| >= 5 then
      match (HexValue(s[1]), HexValue(s[2]), HexValue(s[3]), HexValue(s[4]))
      case (Some(a), Some(b), Some(c), Some(d)) =>
        var code := 4096 * a + 256 * b + 16 * c + d;
        if 0xD800 <= code < 0xE000 then None else Some((code as char, 5))
      case _ => None
    else None
  }

  /** The text after an opening quote. */
  function ParseStrTail(s: string): (r: Option<Parsed<string>>)
    ensures r.Some? ==> |r.value.rest| < |s|
    decreases |s|
  {
    if s == "" || s[0] as int < 32 then None
    else if s[0] == '"' then Some(Parsed("", s[1..]))
    else if s[0] == '\\' then
      match ParseEscape(s[1..])
      case None => None
      case Some((c, k)) =>
        match ParseStrTail(s[1 + k..])
        case Some(Parsed(t, rest)) => Some(Parsed([c] + t, rest))
        case None => None
    else
      match ParseStrTail(s[1..])
      case Some(Parsed(t, rest)) => Some(Parsed([s[0]] + t, rest))
      case None => None
  }

  function ParseLiteral(s: string, word: string, v: Json): (r: Option<Parsed<Json>>)
    requires word != ""
    ensures r.Some? ==> |r.value.rest| < |s|
  {
    if word <= s then Some(Parsed(v, s[|word|..])) else None
  }

  /** One value at the front of a text, spaces before it skipped; the first character decides its kind. */
  function ParseValue(text: string): (r: Option<Parsed<Json>>)
    ensures r.Some? ==> |r.value.rest| < |text|
    decreases |text|, 0
  {
    var s := SkipSpaces(text);
    if s == "" then None
    else if s[0] == 'n' then ParseLiteral(s, "null", JNull)
    else if s[0] == 't' then ParseLiteral(s, "true", JBool(true))
    else if s[0] == 'f' then ParseLiteral(s, "false", JBool(false))
    else if s[0] == '"' then
      match ParseStrTail(s[1..])
      case Some(Parsed(t, rest)) => Some(Parsed(JStr(t), rest))
      case None => None
    else if s[0] == '[' then
      var t := SkipSpaces(s[1..]);
      if t != "" && t[0] == ']' then Some(Parsed(JArr([]), t[1..]))
      else
        match ParseItems(t)
        case Some(Parsed(items, rest)) => Some(Parsed(JArr(items), rest))
        case None => None
    else if s[0] == '{' then
      var t := SkipSpaces(s[1..]);
      if t != "" && t[0] == '}' then Some(Parsed(JObj([]), t[1..]))
      else
        match ParseFields(t)
        case Some(Parsed(fields, rest)) => Some(Parsed(JObj(fields), rest))
        case None => None
    else ParseNumber(s)
  }

  /** One or more items up to and including the closing bracket. */
  function ParseItems(s: string): (r: Option<Parsed<seq<Json>>>)
    ensures r.Some? ==> |r.value.rest| < |s|
    decreases |s|, 1
  {
    match ParseValue(s)
    case None => None
    case Some(Parsed(v, rest)) =>
      var t := SkipSpaces(rest);
      if t == "" then None
      else if t[0] == ']' then Some(Parsed([v], t[1..]))
      else if t[0] == ',' then
        match ParseItems(t[1..])
        case Some(Parsed(vs, rest')) => Some(Parsed([v] + vs, rest'))
        case None => None
      else None
  }

  function ParseField(text: string): (r: Option<Parsed<(string, Json)>>)
    ensures r.Some? ==> |r.value.rest| < |text|
    decreases |text|, 1
  {
    var s := SkipSpaces(text);
    if s == "" || s[0] != '"' then None
    else
      match ParseStrTail(s[1..])
      case None => None
      case Some(Parsed(key, rest)) =>
        var t := SkipSpaces(rest);
        if t == "" || t[0] != ':' then None
        else
          match ParseValue(t[1..])
          case Some(Parsed(v, rest')) => Some(Parsed((key, v), rest'))
          case None => None
  }

  /** One or more fields up to and including the closing brace. */
  function ParseFields(s: string): (r: Option<Parsed<seq<(string, Json)>>>)
    ensures r.Some? ==> |r.value.rest| < |s|
    decreases |s|, 2
  {
    match ParseField(s)
    case None => None
    case Some(Parsed(f, rest)) =>
      var t := SkipSpaces(rest);
      if t == "" then None
      else if t[0] == '}' then Some(Parsed([f], t[1..]))
      else if t[0] == ',' then
        match ParseFields(t[1..])
        case Some(Parsed(fs, rest')) => Some(Parsed([f] + fs, rest'))
        case None => None
      else None
  }

  /** A text that is one value and nothing else but spaces. */
  function ParseDocument(s: string): (r: Option<Json>) {
    match ParseValue(s)
    case Some(Parsed(v, rest)) => if SkipSpaces(rest) == "" then Some(v) else None
    case None => None
  }

  // ---------------------------------------------------------------- the law

  lemma {:induction false} DecimalValue(n: nat)
    ensures DigitsValue(Decimal(n)) == n
    ensures |Decimal(n)| > 1 ==> Decimal(n)[0] != '0'
    ensures n > 0 ==> Decimal(n)[0] != '0'
  {
    var s := Decimal(n);
    if n < 10 {
      assert s[..|s| - 1] == "";
    } else {
      DecimalValue(n / 10);
      assert s[..|s| - 1] == Decimal(n / 10);
    }
  }

  lemma {:induction false} CountDigitsOf(d: string, rest: string)
    requires forall i :: 0 <= i < |d| ==> IsDigit(d[i])
    requires rest == "" || !IsDigit(rest[0])
    ensures CountDigits(d + rest) == |d|
  {
    if d == "" {
      assert d + rest == rest;
    } else {
      assert (d + rest)[1..] == d[1..] + rest;
      CountDigitsOf(d[1..], rest);
    }
  }

  /** What may follow a printed value inside a document. */
  predicate Delimits(rest: string) {
    rest == "" || rest[0] in ",]}" || IsSpace(rest[0])
  }

  lemma NatParses(n: nat, rest: string)
    requires Delimits(rest)
    ensures ParseNat(Decimal(n) + rest) == Some(Parsed(n, rest))
  {
    var d := Decimal(n);
    CountDigitsOf(d, rest);
    DecimalValue(n);
    assert (d + rest)[..|d|] == d && (d + rest)[|d|..] == rest;
  }

  lemma SignedParses(d: string, n: int, rest: string)
    requires n >= 0 && d != "" && IsDigit(d[0])
    requires ParseNat(d + rest) == Some(Parsed(n, rest))
    ensures ParseInt(d + rest) == Some(Parsed(n, rest))
    ensures n > 0 ==> ParseInt("-" + d + rest) == Some(Parsed(-n, rest))
  {
    hide ParseNat;
    assert (d + rest)[0] == d[0];
    var s := "-" + d + rest;
    assert s[0] == '-' && s[1..] == d + rest;
  }

  lemma IntParses(n: int, rest: string)
    requires Delimits(rest)
    ensures ParseInt(PrintInt(n) + rest) == Some(Parsed(n, rest))
  {
    hide ParseInt, ParseNat;
    var m: nat := if n < 0 then -n else n;
    var d := Decimal(m);
    NatParses(m, rest);
    assert IsDigit(d[0]);
    SignedParses(d, m, rest);
  }

  lemma {:induction false} CountDigitsThen(s: string, rest: string)
    requires rest == "" || !IsDigit(rest[0])
    ensures CountDigits(s + rest) == CountDigits(s)
  {
    if s == "" {
      assert s + rest == rest;
    } else if IsDigit(s[0]) {
      assert (s + rest)[1..] == s[1..] + rest;
      CountDigitsThen(s[1..], rest);
    }
  }

  lemma FractionThen(s: string, rest: string)
    requires Delimits(rest)
    ensures FractionEnd(s + rest) == FractionEnd(s)
  {
    if s == "" {
      assert s + rest == rest;
    } else {
      assert (s + rest)[1..] == s[1..] + rest;
      CountDigitsThen(s[1..], rest);
    }
  }

  lemma ExponentThen(s: string, rest: string)
    requires Delimits(rest)
    ensures ExponentEnd(s + rest) == ExponentEnd(s)
  {
    hide CountDigits;
    var t := s + rest;
    if s == "" {
      assert t == rest;
    } else if s[0] in "eE" {
      var signed, signed' := |s| > 1 && s[1] in "+-", |t| > 1 && t[1] in "+-";
      assert |s| == 1 && rest != "" ==> t[1] == rest[0];
      assert signed == signed';
      var from := if signed then 2 else 1;
      assert t[from..] == s[from..] + rest;
      CountDigitsThen(s[from..], rest);
    }
  }

  /** A delimiter does not make a number any longer. */
  lemma NumberThen(s: string, rest: string)
    requires Delimits(rest) && s != ""
    ensures NumberEnd(s + rest) == NumberEnd(s)
  {
    hide CountDigits, FractionEnd, ExponentEnd;
    var sign := if s[0] == '-' then 1 else 0;
    assert (s + rest)[sign..] == s[sign..] + rest;
    CountDigitsThen(s[sign..], rest);
    var whole := sign + CountDigits(s[sign..]);
    assert (s + rest)[whole..] == s[whole..] + rest;
    FractionThen(s[whole..], rest);
    if FractionEnd(s[whole..]).Some? {
      var f := FractionEnd(s[whole..]).value;
      assert (s + rest)[whole + f..] == s[whole + f..] + rest;
      ExponentThen(s[whole + f..], rest);
    }
  }

  lemma NoNatThen(s: string, rest: string)
    requires Delimits(rest)
    ensures ParseNat(s).None? <==> ParseNat(s + rest).None?
    ensures ParseNat(s).Some? ==> ParseNat(s + rest).value.value == ParseNat(s).value.value
  {
    CountDigitsThen(s, rest);
    var k := CountDigits(s);
    assert (s + rest)[..k] == s[..k];
  }

  lemma NoIntThen(s: string, rest: string)
    requires Delimits(rest) && s != "" && ParseInt(s) == None
    ensures ParseInt(s + rest) == None
  {
    hide ParseNat;
    NoNatThen(s, rest);
    assert (s + rest)[1..] == s[1..] + rest;
    NoNatThen(s[1..], rest);
  }

  lemma RealStarts(s: string)
    requires IsReal(s)
    ensures s != "" && (s[0] == '-' || IsDigit(s[0]))
  {
  }

  lemma RealNumberParses(text: RealText, rest: string)
    requires Delimits(rest)
    ensures ParseNumber(text + rest) == Some(Parsed(JReal(text), rest))
  {
    RealStarts(text);
    NumberThen(text, rest);
    NoIntThen(text, rest);
    assert NumberEnd(text) == Some(|text|);
    hide ParseInt, NumberEnd, IsReal;
    var s := text + rest;
    assert s[..|text|] == text && s[|text|..] == rest;
  }

  /** A text that starts like a number is read as one. */
  lemma NumberValue(s: string)
    requires s != "" && (s[0] == '-' || IsDigit(s[0]))
    ensures ParseValue(s) == ParseNumber(s)
  {
    hide ParseNumber, ParseItems, ParseFields, ParseStrTail;
    assert SkipSpaces(s) == s;
  }

  lemma RealValueParses(text: RealText, rest: string)
    requires Delimits(rest)
    ensures ParseValue(text + rest) == Some(Parsed(JReal(text), rest))
  {
    hide ParseValue, ParseNumber, NumberEnd, ParseInt;
    RealStarts(text);
    RealNumberParses(text, rest);
    NumberValue(text + rest);
  }

  lemma ControlEscape(c: char, tail: string)
    requires c as int < 32 && c as int !in {8, 9, 10, 12, 13}
    ensures ParseEscape(EscapeChar(c)[1..] + tail) == Some((c, 5))
  {
    var a, b := HexChar(c as nat / 16), HexChar(c as nat % 16);
    var u := EscapeChar(c)[1..] + tail;
    assert u == ['u', '0', '0', a, b] + tail;
    assert HexValue('0') == Some(0);
    assert HexValue(a) == Some(c as nat / 16) && HexValue(b) == Some(c as nat % 16);
  }

  lemma EscapedCharParses(c: char, tail: string, t: string, rest: string)
    requires ParseStrTail(tail) == Some(Parsed(t, rest))
    ensures ParseStrTail(EscapeChar(c) + tail) == Some(Parsed([c] + t, rest))
  {
    var e := EscapeChar(c);
    var s := e + tail;
    assert s[|e|..] == tail;
    if |e| == 2 {
      assert s[1..][0] == e[1];
      assert ParseEscape(s[1..]) == Some((c, 1));
    } else if |e| > 2 {
      ControlEscape(c, tail);
      assert s[1..] == e[1..] + tail;
    }
  }

  lemma {:induction false} StrParses(s: string, rest: string)
    ensures ParseStrTail(Escape(s) + "\"" + rest) == Some(Parsed(s, rest))
  {
    if s == "" {
      assert Escape(s) + "\"" + rest == "\"" + rest;
      assert ("\"" + rest)[1..] == rest;
    } else {
      StrParses(s[1..], rest);
      EscapedCharParses(s[0], Escape(s[1..]) + "\"" + rest, s[1..], rest);
      assert EscapeChar(s[0]) + (Escape(s[1..]) + "\"" + rest) == Escape(s) + "\"" + rest;
      assert [s[0]] + s[1..] == s;
    }
  }

  /** A printed value never starts with a space, a closing bracket or a comma. */
  lemma PrintStarts(v: Json)
    ensures |Print(v)| > 0
    ensures !IsSpace(Print(v)[0]) && Print(v)[0] !in ",]}:"
  {
    if v.JInt? && v.n >= 0 {
      assert IsDigit(Print(v)[0]);
    } else if v.JReal? {
      RealStarts(v.text);
    }
  }

  // One lemma for each kind of value, on texts that are not printed yet.

  lemma LiteralParses(word: string, v: Json, rest: string)
    requires (word == "null" && v == JNull) || (word == "true" && v == JBool(true))
             || (word == "false" && v == JBool(false))
    ensures ParseValue(word + rest) == Some(Parsed(v, rest))
  {
    var s := word + rest;
    assert s[0] == word[0] && s[|word|..] == rest;
    assert SkipSpaces(s) == s;
  }

  lemma IntValueParses(n: int, rest: string)
    requires Delimits(rest)
    ensures ParseValue(PrintInt(n) + rest) == Some(Parsed(JInt(n), rest))
  {
    hide ParseValue, ParseInt;
    IntParses(n, rest);
    NumberValue(PrintInt(n) + rest);
  }

  lemma StrValueParses(t: string, rest: string)
    ensures ParseValue(PrintStr(t) + rest) == Some(Parsed(JStr(t), rest))
  {
    hide ParseStrTail, Escape, ParseInt;
    StrParses(t, rest);
    var s := PrintStr(t) + rest;
    assert s[0] == '"' && s[1..] == Escape(t) + "\"" + rest;
    assert SkipSpaces(s) == s;
  }

  lemma EmptyParses(rest: string)
    ensures ParseValue("[]" + rest) == Some(Parsed(JArr([]), rest))
    ensures ParseValue("{}" + rest) == Some(Parsed(JObj([]), rest))
  {
    var s, o := "[]" + rest, "{}" + rest;
    assert s[1..][1..] == rest && o[1..][1..] == rest;
    assert SkipSpaces(s) == s && SkipSpaces(o) == o;
    assert SkipSpaces(s[1..]) == s[1..] && SkipSpaces(o[1..]) == o[1..];
  }

  lemma ArrayParses(t: string, items: seq<Json>, rest: string)
    requires t != "" && !IsSpace(t[0]) && t[0] != ']'
    requires ParseItems(t) == Some(Parsed(items, rest))
    ensures ParseValue("[" + t) == Some(Parsed(JArr(items), rest))
  {
    hide ParseFields, ParseInt, ParseStrTail, ParseItems;
    var s := "[" + t;
    assert s[1..] == t;
    assert SkipSpaces(s) == s && SkipSpaces(t) == t;
  }

  lemma ObjectParses(t: string, fields: seq<(string, Json)>, rest: string)
    requires t != "" && t[0] == '"'
    requires ParseFields(t) == Some(Parsed(fields, rest))
    ensures ParseValue("{" + t) == Some(Parsed(JObj(fields), rest))
  {
    hide ParseFields, ParseInt, ParseStrTail, ParseItems;
    var s := "{" + t;
    assert s[1..] == t;
    assert SkipSpaces(s) == s && SkipSpaces(t) == t;
  }

  lemma LastItem(p: string, v: Json, rest: string)
    requires ParseValue(p + "]" + rest) == Some(Parsed(v, "]" + rest))
    ensures ParseItems(p + "]" + rest) == Some(Parsed([v], rest))
  {
    assert ("]" + rest)[1..] == rest;
    assert SkipSpaces("]" + rest) == "]" + rest;
  }

  lemma MoreItems(p: string, v: Json, tail: string, vs: seq<Json>, rest: string)
    requires ParseValue(p + "," + tail) == Some(Parsed(v, "," + tail))
    requires ParseItems(tail) == Some(Parsed(vs, rest))
    ensures ParseItems(p + "," + tail) == Some(Parsed([v] + vs, rest))
  {
    assert ("," + tail)[1..] == tail;
    assert SkipSpaces("," + tail) == "," + tail;
  }

  lemma LastField(p: string, f: (string, Json), rest: string)
    requires ParseField(p + "}" + rest) == Some(Parsed(f, "}" + rest))
    ensures ParseFields(p + "}" + rest) == Some(Parsed([f], rest))
  {
    assert ("}" + rest)[1..] == rest;
    assert SkipSpaces("}" + rest) == "}" + rest;
  }

  lemma MoreFields(p: string, f: (string, Json), tail: string, fs: seq<(string, Json)>, rest: string)
    requires ParseField(p + "," + tail) == Some(Parsed(f, "," + tail))
    requires ParseFields(tail) == Some(Parsed(fs, rest))
    ensures ParseFields(p + "," + tail) == Some(Parsed([f] + fs, rest))
  {
    assert ("," + tail)[1..] == tail;
    assert SkipSpaces("," + tail) == "," + tail;
  }

  lemma KeyedParses(key: string, v: Json, p: string, rest: string)
    requires ParseValue(p) == Some(Parsed(v, rest))
    ensures ParseField(PrintStr(key) + ":" + p) == Some(Parsed((key, v), rest))
  {
    hide ParseStrTail, ParseValue, Escape, PrintStr;
    var s := PrintStr(key) + ":" + p;
    StrParses(key, ":" + p);
    assert s == PrintStr(key) + (":" + p);
    QuotedTail(key, ":" + p, s);
    assert (":" + p)[1..] == p;
    assert SkipSpaces(s) == s && SkipSpaces(":" + p) == ":" + p;
  }

  lemma QuotedTail(key: string, tail: string, s: string)
    requires s == PrintStr(key) + tail
    ensures s[0] == '"' && s[1..] == Escape(key) + "\"" + tail
  {
    hide Escape;
  }

  /** Reading back a printed value leaves exactly the text that followed it. */
  lemma {:induction false} ParsePrint(v: Json, rest: string)
    requires Delimits(rest)
    ensures ParseValue(Print(v) + rest) == Some(Parsed(v, rest))
    decreases v, 1
  {
    hide ParseValue, PrintInt, PrintStr, PrintItems, PrintFields;
    match v
    case JNull => LiteralParses("null", v, rest);
    case JBool(b) => LiteralParses(if b then "true" else "false", v, rest);
    case JInt(n) => IntValueParses(n, rest);
    case JReal(text) => RealValueParses(text, rest);
    case JStr(t) => StrValueParses(t, rest);
    case JArr(items) =>
      ArrayPrint(items, rest);
      assert Print(v) == "[" + PrintItems(items) + "]";
    case JObj(fields) =>
      ObjectPrint(fields, rest);
      assert Print(v) == "{" + PrintFields(fields) + "}";
  }

  lemma {:induction false} ArrayPrint(items: seq<Json>, rest: string)
    ensures ParseValue("[" + PrintItems(items) + "]" + rest) == Some(Parsed(JArr(items), rest))
    decreases items, 1
  {
    hide ParseValue, ParseItems, Print;
    if items == [] {
      EmptyParses(rest);
      assert "[" + PrintItems(items) + "]" + rest == "[]" + rest;
    } else {
      var t := PrintItems(items) + "]" + rest;
      ItemsParse(items, rest);
      PrintStarts(items[0]);
      assert t[0] == Print(items[0])[0];
      ArrayParses(t, items, rest);
      assert "[" + PrintItems(items) + "]" + rest == "[" + t;
    }
  }

  lemma {:induction false} ObjectPrint(fields: seq<(string, Json)>, rest: string)
    ensures ParseValue("{" + PrintFields(fields) + "}" + rest) == Some(Parsed(JObj(fields), rest))
    decreases fields, 1
  {
    hide ParseValue, ParseFields, Print, PrintField;
    if fields == [] {
      EmptyParses(rest);
      assert "{" + PrintFields(fields) + "}" + rest == "{}" + rest;
    } else {
      var t := PrintFields(fields) + "}" + rest;
      FieldsParse(fields, rest);
      FieldStarts(fields[0]);
      assert t[0] == PrintField(fields[0])[0];
      ObjectParses(t, fields, rest);
      assert "{" + PrintFields(fields) + "}" + rest == "{" + t;
    }
  }

  lemma FieldStarts(f: (string, Json))
    ensures |PrintField(f)| > 0 && PrintField(f)[0] == '"'
  {
    hide Print;
  }

  /** Printed items begin with the first one. */
  lemma ItemsPrint(items: seq<Json>)
    requires items != []
    ensures PrintItems(items) == Print(items[0]) + if |items| == 1 then "" else "," + PrintItems(items[1..])
  {
    hide Print;
  }

  lemma {:induction false} ItemsParse(items: seq<Json>, rest: string)
    requires items != []
    ensures ParseItems(PrintItems(items) + "]" + rest) == Some(Parsed(items, rest))
    decreases items, 0
  {
    hide ParseValue, ParseItems, Print, PrintItems;
    ItemsPrint(items);
    var p := Print(items[0]);
    if |items| == 1 {
      ParsePrint(items[0], "]" + rest);
      assert p + "]" + rest == p + ("]" + rest);
      LastItem(p, items[0], rest);
      assert items == [items[0]] && PrintItems(items) == p;
    } else {
      var tail := PrintItems(items[1..]) + "]" + rest;
      ParsePrint(items[0], "," + tail);
      assert p + "," + tail == p + ("," + tail);
      ItemsParse(items[1..], rest);
      MoreItems(p, items[0], tail, items[1..], rest);
      assert PrintItems(items) + "]" + rest == p + "," + tail;
      assert [items[0]] + items[1..] == items;
    }
  }

  lemma {:induction false} FieldParses(f: (string, Json), rest: string)
    requires Delimits(rest)
    ensures ParseField(PrintField(f) + rest) == Some(Parsed(f, rest))
    decreases f, 2
  {
    hide ParseValue, ParseField, Print, PrintStr;
    ParsePrint(f.1, rest);
    KeyedParses(f.0, f.1, Print(f.1) + rest, rest);
    assert PrintField(f) + rest == PrintStr(f.0) + ":" + (Print(f.1) + rest);
  }

  lemma FieldsPrint(fields: seq<(string, Json)>)
    requires fields != []
    ensures PrintFields(fields)
            == PrintField(fields[0]) + if |fields| == 1 then "" else "," + PrintFields(fields[1..])
  {
    hide PrintField;
  }

  lemma {:induction false} FieldsParse(fields: seq<(string, Json)>, rest: string)
    requires fields != []
    ensures ParseFields(PrintFields(fields) + "}" + rest) == Some(Parsed(fields, rest))
    decreases fields, 0
  {
    hide ParseFields, ParseField, PrintField, PrintFields;
    FieldsPrint(fields);
    var p := PrintField(fields[0]);
    if |fields| == 1 {
      FieldParses(fields[0], "}" + rest);
      assert p + "}" + rest == p + ("}" + rest);
      LastField(p, fields[0], rest);
      assert fields == [fields[0]] && PrintFields(fields) == p;
    } else {
      var tail := PrintFields(fields[1..]) + "}" + rest;
      FieldParses(fields[0], "," + tail);
      assert p + "," + tail == p + ("," + tail);
      FieldsParse(fields[1..], rest);
      MoreFields(p, fields[0], tail, fields[1..], rest);
      assert PrintFields(fields) + "}" + rest == p + "," + tail;
      assert [fields[0]] + fields[1..] == fields;
    }
  }

  /** A printed document reads back as itself, so printing is injective. */
  lemma DocumentRoundTrip(v: Json)
    ensures ParseDocument(Print(v)) == Some(v)
  {
    ParsePrint(v, "");
    assert Print(v) + "" == Print(v);
  }
}
