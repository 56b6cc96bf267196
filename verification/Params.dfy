/** Call parameters: the builder on the client side and the one-at-a-time reader on the server side. */
module Params {
  import opened Wrappers
  import opened Json

  // ---------------------------------------------------------------- building

  /** What serializing a value does to the buffer: all of its text, or a part of it and then an error. */
  datatype Serialized = Written(v: Json) | Aborted(partial: string)

  function TextOf(value: Serialized): (r: string) {
    match value
    case Written(v) => Print(v) + ","
    case Aborted(partial) => partial
  }

  type NamedInsertion = (string, Serialized)

  function NamedText(insertion: NamedInsertion): (r: string) {
    PrintStr(insertion.0) + ":" + TextOf(insertion.1)
  }

  /** A body without its last comma. */
  function DropComma(body: string): (r: string) {
    if body != "" && body[|body| - 1] == ',' then body[..|body| - 1] else body
  }

  function Closed(open: char, body: string, close: char): (r: string) {
    [open] + DropComma(body) + [close]
  }

  /** What building gives; a text that is no JSON document makes it panic. */
  datatype Built = NoParams | Text(text: string) | Panicked

  function Checked(text: string): (r: Built) {
    if ParseDocument(text).Some? then Text(text) else Panicked
  }

  /** Collects serialized entries between two brackets; nothing is written before the first insertion. */
  class ParamsBuilder {
    var bytes: string
    const open: char
    const close: char
    ghost var body: Option<string>

    /** The buffer is the opening bracket and the body, once an insertion was tried. */
    ghost predicate Valid()
      reads this
    {
      bytes == (if body.Some? then [open] + body.value else "") && open != ','
    }

    ghost function Body(): (r: string)
      reads this
    {
      if body.Some? then body.value else ""
    }

    constructor (open: char, close: char)
      requires open != ','
      ensures Valid() && body == None
      ensures this.open == open && this.close == close
    {
      this.open, this.close := open, close;
      bytes, body := "", None;
    }

    /** One positional value; an aborted serialization leaves what it wrote behind. */
    method Insert(value: Serialized) returns (ok: bool)
      requires Valid()
      modifies this
      ensures Valid() && ok == value.Written?
      ensures body == Some(old(Body()) + TextOf(value))
    {
      hide Print;
      if bytes == "" {
        bytes := [open];
      }
      body := Some(old(Body()) + TextOf(value));
      match value {
        case Written(v) =>
          bytes := bytes + Print(v);
          bytes := bytes + ",";
          assert bytes == [open] + body.value;
          return true;
        case Aborted(partial) =>
          bytes := bytes + partial;
          return false;
      }
    }

    /** One named value. */
    method InsertNamed(name: string, value: Serialized) returns (ok: bool)
      requires Valid()
      modifies this
      ensures Valid() && ok == value.Written?
      ensures body == Some(old(Body()) + NamedText((name, value)))
    {
      hide Print, PrintStr;
      if bytes == "" {
        bytes := [open];
      }
      bytes := bytes + PrintStr(name);
      bytes := bytes + ":";
      body := Some(old(Body()) + NamedText((name, value)));
      match value {
        case Written(v) =>
          bytes := bytes + Print(v);
          bytes := bytes + ",";
          assert bytes == [open] + body.value;
          return true;
        case Aborted(partial) =>
          bytes := bytes + partial;
          assert bytes == [open] + body.value;
          return false;
      }
    }

    /** The last comma becomes the closing bracket; a builder nothing was inserted into gives no params. */
    method Build() returns (r: Built)
      requires Valid()
      modifies this
      ensures r == if old(body).None? then NoParams else Checked(Closed(open, old(Body()), close))
    {
      hide ParseDocument;
      if bytes == "" {
        return NoParams;
      }
      var idx := |bytes| - 1;
      if bytes[idx] == ',' {
        bytes := bytes[idx := close];
      } else {
        bytes := bytes + [close];
      }
      assert bytes == Closed(open, old(Body()), close);
      r := if ParseDocument(bytes).Some? then Text(bytes) else Panicked;
    }
  }

  // ---------------------------------------------------------------- what is built

  /** The body after some positional insertions, failed ones included. */
  function PositionalBody(ins: seq<Serialized>): (body: string) {
    if ins == [] then "" else PositionalBody(ins[..|ins| - 1]) + TextOf(ins[|ins| - 1])
  }

  function Values(ins: seq<Serialized>): (vs: seq<Json>) {
    if ins == [] then []
    else Values(ins[..|ins| - 1]) + match ins[|ins| - 1] case Written(v) => [v] case Aborted(_) => []
  }

  /** How much text the failed insertions left behind. */
  function LeftBehind(ins: seq<Serialized>): (n: nat) {
    if ins == [] then 0
    else LeftBehind(ins[..|ins| - 1]) + match ins[|ins| - 1] case Written(_) => 0 case Aborted(partial) => |partial|
  }

  function NamedBody(ins: seq<NamedInsertion>): (body: string) {
    if ins == [] then "" else NamedBody(ins[..|ins| - 1]) + NamedText(ins[|ins| - 1])
  }

  function FieldsOf(ins: seq<NamedInsertion>): (fs: seq<(string, Json)>) {
    if ins == [] then []
    else
      var last := ins[|ins| - 1];
      FieldsOf(ins[..|ins| - 1]) + match last.1 case Written(v) => [(last.0, v)] case Aborted(_) => []
  }

  predicate NoneFailed(ins: seq<NamedInsertion>) {
    forall i :: 0 <= i < |ins| ==> ins[i].1.Written?
  }

  lemma NothingInserted()
    ensures PositionalBody([]) == "" && NamedBody([]) == ""
  {
  }

  lemma LastPositional(ins: seq<Serialized>)
    requires ins != []
    ensures PositionalBody(ins) == PositionalBody(ins[..|ins| - 1]) + TextOf(ins[|ins| - 1])
  {
    hide TextOf;
  }

  /** Positional insertions in order, whether or not they fail, and then the build. */
  method BuildPositional(ins: seq<Serialized>) returns (r: Built)
    ensures r == if ins == [] then NoParams else Checked(Closed('[', PositionalBody(ins), ']'))
  {
    hide Checked, TextOf, Closed, PositionalBody;
    NothingInserted();
    assert ins[..0] == [];
    var builder := new ParamsBuilder('[', ']');
    for i := 0 to |ins|
      invariant builder.Valid() && builder.open == '[' && builder.close == ']' && fresh(builder)
      invariant builder.body.Some? <==> i > 0
      invariant builder.Body() == PositionalBody(ins[..i])
    {
      LastPositional(ins[..i + 1]);
      assert ins[..i + 1][..i] == ins[..i];
      var _ := builder.Insert(ins[i]);
    }
    assert ins[..|ins|] == ins;
    r := builder.Build();
  }

  /** The same with names. */
  method BuildNamed(ins: seq<NamedInsertion>) returns (r: Built)
    ensures r == if ins == [] then NoParams else Checked(Closed('{', NamedBody(ins), '}'))
  {
    hide Checked, NamedText, Closed, NamedBody;
    NothingInserted();
    assert ins[..0] == [];
    var builder := new ParamsBuilder('{', '}');
    for i := 0 to |ins|
      invariant builder.Valid() && builder.open == '{' && builder.close == '}' && fresh(builder)
      invariant builder.body.Some? <==> i > 0
      invariant builder.Body() == NamedBody(ins[..i])
    {
      LastNamed(ins[..i + 1]);
      assert ins[..i + 1][..i] == ins[..i] && ins[i] == (ins[i].0, ins[i].1);
      var _ := builder.InsertNamed(ins[i].0, ins[i].1);
    }
    assert ins[..|ins|] == ins;
    r := builder.Build();
  }

  // ---------------------------------------------------------------- when the built text is right

  /** Printed values, each followed by a comma. */
  function CommaEnded(vs: seq<Json>): (r: string) {
    if vs == [] then "" else CommaEnded(vs[..|vs| - 1]) + (Print(vs[|vs| - 1]) + ",")
  }

  lemma {:induction false} PrintItemsGrow(vs: seq<Json>, v: Json)
    requires vs != []
    ensures PrintItems(vs + [v]) == PrintItems(vs) + "," + Print(v)
  {
    hide Print;
    assert (vs + [v])[1..] == vs[1..] + [v];
    if |vs| > 1 {
      PrintItemsGrow(vs[1..], v);
    }
  }

  lemma {:induction false} CommaEndedItems(vs: seq<Json>)
    requires vs != []
    ensures CommaEnded(vs) == PrintItems(vs) + ","
  {
    hide Print;
    var n := |vs| - 1;
    if n > 0 {
      CommaEndedItems(vs[..n]);
      PrintItemsGrow(vs[..n], vs[n]);
      assert vs[..n] + [vs[n]] == vs;
    }
  }

  /** The body is the printed values and what the failed insertions left, so its length tells the two apart. */
  lemma {:induction false} BodyOfValues(ins: seq<Serialized>)
    ensures |PositionalBody(ins)| == |CommaEnded(Values(ins))| + LeftBehind(ins)
    ensures LeftBehind(ins) == 0 ==> PositionalBody(ins) == CommaEnded(Values(ins))
  {
    hide Print;
    if ins != [] {
      var n := |ins| - 1;
      BodyOfValues(ins[..n]);
      if ins[n].Written? {
        var before := Values(ins[..n]);
        assert (before + [ins[n].v])[..|before|] == before;
      } else {
        assert Values(ins) == Values(ins[..n]);
      }
    }
  }

  /**
   * The built text is the compact array of the values that were written exactly if no failed insertion left
   * any text behind; or, with nothing written, if all that is left is one comma.
   */
  lemma PositionalExactly(ins: seq<Serialized>)
    ensures Closed('[', PositionalBody(ins), ']') == Print(JArr(Values(ins)))
            <==> LeftBehind(ins) == 0 || (Values(ins) == [] && PositionalBody(ins) == ",")
  {
    var body, vs := PositionalBody(ins), Values(ins);
    BodyOfValues(ins);
    if vs != [] {
      CommaEndedItems(vs);
    }
    NothingPrinted();
    assert vs == [] ==> CommaEnded(vs) == "";
    assert Print(JArr(vs)) == "[" + PrintItems(vs) + "]";
    ClosedExactly('[', body, PrintItems(vs), ']');
    hide *;
  }

  /** Which bodies close to the given items, by their last comma or their length. */
  lemma ClosedExactly(open: char, body: string, items: string, close: char)
    ensures body == items + "," ==> Closed(open, body, close) == [open] + items + [close]
    ensures body == items == "" ==> Closed(open, body, close) == [open] + items + [close]
    ensures |body| > |items| + 1 ==> Closed(open, body, close) != [open] + items + [close]
    ensures |body| == 1 && items == "" ==> (Closed(open, body, close) == [open] + items + [close] <==> body == ",")
  {
    assert body == items + "," ==> DropComma(body) == items;
    assert |Closed(open, body, close)| == |DropComma(body)| + 2;
  }

  lemma NothingPrinted()
    ensures PrintItems([]) == "" && PrintFields([]) == ""
  {
  }

  /** What building gives, in terms of the values: their array exactly then, and never a panic in that case. */
  lemma BuiltExactly(ins: seq<Serialized>)
    ensures Checked(Closed('[', PositionalBody(ins), ']')) == Text(Print(JArr(Values(ins))))
            <==> LeftBehind(ins) == 0 || (Values(ins) == [] && PositionalBody(ins) == ",")
  {
    hide ParseDocument, Closed, PositionalBody, Values, LeftBehind, Print;
    PositionalExactly(ins);
    DocumentRoundTrip(JArr(Values(ins)));
  }

  function CommaEndedFields(fs: seq<(string, Json)>): (r: string) {
    if fs == [] then "" else CommaEndedFields(fs[..|fs| - 1]) + (PrintField(fs[|fs| - 1]) + ",")
  }

  lemma {:induction false} PrintFieldsGrow(fs: seq<(string, Json)>, f: (string, Json))
    requires fs != []
    ensures PrintFields(fs + [f]) == PrintFields(fs) + "," + PrintField(f)
  {
    hide PrintField;
    assert (fs + [f])[1..] == fs[1..] + [f];
    if |fs| > 1 {
      PrintFieldsGrow(fs[1..], f);
    }
  }

  lemma {:induction false} CommaEndedIsFields(fs: seq<(string, Json)>)
    requires fs != []
    ensures CommaEndedFields(fs) == PrintFields(fs) + ","
  {
    hide PrintField;
    var n := |fs| - 1;
    if n > 0 {
      CommaEndedIsFields(fs[..n]);
      PrintFieldsGrow(fs[..n], fs[n]);
      assert fs[..n] + [fs[n]] == fs;
    }
  }

  /** A failed named insertion leaves at least its name and a colon. */
  lemma {:induction false} BodyOfFields(ins: seq<NamedInsertion>)
    ensures NoneFailed(ins) ==> NamedBody(ins) == CommaEndedFields(FieldsOf(ins))
    ensures |NamedBody(ins)| >= |CommaEndedFields(FieldsOf(ins))| + if NoneFailed(ins) then 0 else 3
  {
    if ins != [] {
      var n := |ins| - 1;
      BodyOfFields(ins[..n]);
      LastNamed(ins);
      NamedTextIs(ins[n]);
      hide *;
    }
  }

  /** What the last insertion adds. */
  lemma LastNamed(ins: seq<NamedInsertion>)
    requires ins != []
    ensures var last, before := ins[|ins| - 1], ins[..|ins| - 1];
            && NamedBody(ins) == NamedBody(before) + NamedText(last)
            && (NoneFailed(ins) <==> NoneFailed(before) && last.1.Written?)
            && (last.1.Aborted? ==> FieldsOf(ins) == FieldsOf(before))
            && (last.1.Written?
                ==> CommaEndedFields(FieldsOf(ins))
                    == CommaEndedFields(FieldsOf(before)) + (PrintField((last.0, last.1.v)) + ","))
  {
    hide NamedText, PrintField;
    var last, before := ins[|ins| - 1], ins[..|ins| - 1];
    if last.1.Written? {
      var fs := FieldsOf(before);
      assert (fs + [(last.0, last.1.v)])[..|fs|] == fs;
    }
  }

  lemma NamedTextIs(insertion: NamedInsertion)
    ensures |NamedText(insertion)| >= 3
    ensures insertion.1.Written? ==> NamedText(insertion) == PrintField((insertion.0, insertion.1.v)) + ","
  {
    hide Print;
  }

  /** The built text is the compact object of the fields that were written exactly if no insertion failed. */
  lemma NamedExactly(ins: seq<NamedInsertion>)
    ensures Closed('{', NamedBody(ins), '}') == Print(JObj(FieldsOf(ins))) <==> NoneFailed(ins)
  {
    var fs := FieldsOf(ins);
    BodyOfFields(ins);
    if fs != [] {
      CommaEndedIsFields(fs);
    }
    NothingPrinted();
    PrintedObject(fs);
    assert fs == [] ==> CommaEndedFields(fs) == "";
    ClosedExactly('{', NamedBody(ins), PrintFields(fs), '}');
    hide *;
  }

  lemma BuiltNamedExactly(ins: seq<NamedInsertion>)
    ensures Checked(Closed('{', NamedBody(ins), '}')) == Text(Print(JObj(FieldsOf(ins)))) <==> NoneFailed(ins)
  {
    hide ParseDocument, Closed, NamedBody, FieldsOf, NoneFailed, Print;
    NamedExactly(ins);
    DocumentRoundTrip(JObj(FieldsOf(ins)));
  }

  lemma {:induction false} AllWritten(vs: seq<Json>, ins: seq<Serialized>)
    requires |ins| == |vs| && forall i :: 0 <= i < |vs| ==> ins[i] == Written(vs[i])
    ensures Values(ins) == vs && LeftBehind(ins) == 0
  {
    if vs != [] {
      var n := |vs| - 1;
      AllWritten(vs[..n], ins[..n]);
      assert vs[..n] + [vs[n]] == vs;
    }
  }

  lemma {:induction false} AllNamedWritten(fs: seq<(string, Json)>, ins: seq<NamedInsertion>)
    requires |ins| == |fs| && forall i :: 0 <= i < |fs| ==> ins[i] == (fs[i].0, Written(fs[i].1))
    ensures FieldsOf(ins) == fs && NoneFailed(ins)
  {
    if fs != [] {
      var n := |fs| - 1;
      AllNamedWritten(fs[..n], ins[..n]);
      assert fs[..n] + [fs[n]] == fs;
    }
  }

  /** Positional parameters as a caller builds them. */
  method BuildArray(vs: seq<Json>) returns (raw: Built)
    ensures raw == if vs == [] then NoParams else Text(Print(JArr(vs)))
  {
    hide Checked, Closed, PositionalBody, Print;
    var ins := seq(|vs|, i requires 0 <= i < |vs| => Written(vs[i]));
    AllWritten(vs, ins);
    BuiltExactly(ins);
    raw := BuildPositional(ins);
  }

  /** Named parameters as a caller builds them. */
  method BuildObject(fs: seq<(string, Json)>) returns (raw: Built)
    ensures raw == if fs == [] then NoParams else Text(Print(JObj(fs)))
  {
    hide Checked, Closed, NamedBody, Print;
    var ins := seq(|fs|, i requires 0 <= i < |fs| => (fs[i].0, Written(fs[i].1)));
    AllNamedWritten(fs, ins);
    BuiltNamedExactly(ins);
    raw := BuildNamed(ins);
  }

  // ---------------------------------------------------------------- reading

  /** White space as trimming sees it, which is wider than the spaces of JSON. */
  predicate IsWhitespace(c: char) {
    var n := c as int;
    9 <= n <= 13 || n == 0x20 || n == 0x85 || n == 0xA0 || n == 0x1680 || 0x2000 <= n <= 0x200A
    || n == 0x2028 || n == 0x2029 || n == 0x202F || n == 0x205F || n == 0x3000
  }

  function TrimStart(s: string): (r: string) {
    if s != "" && IsWhitespace(s[0]) then TrimStart(s[1..]) else s
  }

  function TrimEnd(s: string): (r: string) {
    if s != "" && IsWhitespace(s[|s| - 1]) then TrimEnd(s[..|s| - 1]) else s
  }

  /** Parameters as received: the raw text, trimmed, or nothing. */
  function NewParams(raw: Option<string>): (r: Option<string>) {
    match raw
    case Some(text) => Some(TrimEnd(TrimStart(text)))
    case None => None
  }

  /** What was built, as the other side receives it; a panic sends nothing. */
  function Received(raw: Built): (r: Option<string>) {
    if raw.Text? then NewParams(Some(raw.text)) else NewParams(None)
  }

  /** The parameters as one value: no parameters read as null. */
  function ParseParams(params: Option<string>): (r: Option<Json>) {
    ParseDocument(if params.Some? then params.value else "null")
  }

  /** Where reading starts: only the exact text of an empty array counts as no parameters. */
  function SequenceOf(params: Option<string>): (r: string) {
    match params
    case Some(text) => if text == "[]" then "" else text
    case None => ""
  }

  datatype ParamsError = NoMoreParams | UnexpectedCharacter | BadValue

  /** What a read returned, and where the cursor is afterwards. */
  datatype Step<+T> = Step(result: Option<Result<T, ParamsError>>, cursor: string)

  /** A value that is not closed by its own last character must be followed by a delimiter. */
  predicate EndsValue(rest: string) {
    rest == "" || IsSpace(rest[0]) || rest[0] in "\"[]{},:"
  }

  /** The next parameter, decoded into the caller's type; any failure but a bad first character ends the sequence. */
  function NextInner<T>(cursor: string, decode: Json -> Option<T>): (r: Step<T>) {
    if cursor == "" then Step(None, cursor)
    else if cursor[0] == ']' then Step(None, "")
    else if cursor[0] != '[' && cursor[0] != ',' then Step(Some(Err(UnexpectedCharacter)), cursor)
    else
      var json := cursor[1..];
      var s := SkipSpaces(json);
      if s == "" then Step(None, cursor)
      else
        match ParseValue(json)
        case None => Step(Some(Err(BadValue)), "")
        case Some(Parsed(v, rest)) =>
          if s[0] !in "[\"{" && !EndsValue(rest) then Step(Some(Err(BadValue)), "")
          else
            match decode(v)
            case None => Step(Some(Err(BadValue)), "")
            case Some(t) => Step(Some(Ok(t)), TrimStart(rest))
  }

  /** Decoding an optional parameter: null reads as nothing. */
  function Optional<T>(decode: Json -> Option<T>, v: Json): (r: Option<Option<T>>) {
    if v == JNull then Some(None)
    else
      match decode(v)
      case Some(t) => Some(Some(t))
      case None => None
  }

  /** The reader of a parameter list; its only state is the text not read yet. */
  class ParamsSequence {
    var cursor: string

    constructor (params: Option<string>)
      ensures cursor == SequenceOf(params)
    {
      cursor := SequenceOf(params);
    }

    method Next<T>(decode: Json -> Option<T>) returns (r: Result<T, ParamsError>)
      modifies this
      ensures cursor == NextInner(old(cursor), decode).cursor
      ensures r == match NextInner(old(cursor), decode).result
                   case Some(result) => result
                   case None => Err(NoMoreParams)
    {
      var step := NextInner(cursor, decode);
      cursor := step.cursor;
      match step.result
      case Some(result) => r := result;
      case None => r := Err(NoMoreParams);
    }

    method OptionalNext<T>(decode: Json -> Option<T>) returns (r: Result<Option<T>, ParamsError>)
      modifies this
      ensures cursor == NextInner(old(cursor), v => Optional(decode, v)).cursor
      ensures r == match NextInner(old(cursor), v => Optional(decode, v)).result
                   case Some(result) => result
                   case None => Ok(None)
    {
      var step := NextInner(cursor, v => Optional(decode, v));
      cursor := step.cursor;
      match step.result
      case Some(result) => r := result;
      case None => r := Ok(None);
    }
  }

  // ---------------------------------------------------------------- the round trip

  /** The cursor after the first `k` of the values have been read. */
  function CursorAt(vs: seq<Json>, k: nat): (r: string)
    requires vs != [] && k <= |vs|
  {
    if k == |vs| then "]" else (if k == 0 then "[" else ",") + PrintItems(vs[k..]) + "]"
  }

  lemma PrintedStart(vs: seq<Json>)
    requires vs != []
    ensures PrintItems(vs) != "" && !IsSpace(PrintItems(vs)[0])
  {
    PrintStarts(vs[0]);
  }

  lemma TrimBracketed(s: string)
    requires |s| > 0 && s[0] in "[{,]" && s[|s| - 1] in "]}"
    ensures TrimStart(s) == s && TrimEnd(s) == s
  {
  }

  lemma ItemsAfter(vs: seq<Json>, k: nat)
    requires k < |vs|
    ensures PrintItems(vs[k..]) == Print(vs[k]) + if k + 1 < |vs| then "," + PrintItems(vs[k + 1..]) else ""
  {
    hide Print;
    assert vs[k..][1..] == vs[k + 1..];
  }

  /** The text after reading value `k` is the next cursor, and trimming leaves it alone. */
  lemma RestAt(vs: seq<Json>, k: nat)
    requires k < |vs|
    ensures CursorAt(vs, k)[1..] == Print(vs[k]) + CursorAt(vs, k + 1)
    ensures Delimits(CursorAt(vs, k + 1)) && EndsValue(CursorAt(vs, k + 1))
    ensures TrimStart(CursorAt(vs, k + 1)) == CursorAt(vs, k + 1)
  {
    hide Print, PrintItems;
    ItemsAfter(vs, k);
    assert CursorAt(vs, k)[1..] == PrintItems(vs[k..]) + "]";
    TrimBracketed(CursorAt(vs, k + 1));
  }

  /**
   * Reading at position `k`: a value the caller's type accepts is returned and the cursor moves to the
   * next one; a value it does not accept is an error that ends the sequence.
   */
  lemma ReadAt<T>(vs: seq<Json>, k: nat, decode: Json -> Option<T>)
    requires k < |vs|
    ensures NextInner(CursorAt(vs, k), decode)
         == match decode(vs[k])
            case Some(t) => Step(Some(Ok(t)), CursorAt(vs, k + 1))
            case None => Step(Some(Err(BadValue)), "")
  {
    hide ParseValue, Print, PrintItems;
    var cursor := CursorAt(vs, k);
    RestAt(vs, k);
    ParsePrint(vs[k], CursorAt(vs, k + 1));
    PrintStarts(vs[k]);
    assert cursor[1..][0] == Print(vs[k])[0];
  }

  /** After the last value there is nothing more to read, however often one asks. */
  lemma ReadPastEnd<T>(vs: seq<Json>, decode: Json -> Option<T>)
    requires vs != []
    ensures NextInner(CursorAt(vs, |vs|), decode) == Step<T>.Step(None, "")
    ensures NextInner("", decode) == Step<T>.Step(None, "")
  {
  }

  /** The built text survives trimming and is where reading starts. */
  lemma ReadFromStart(vs: seq<Json>)
    requires vs != []
    ensures SequenceOf(NewParams(Some(Print(JArr(vs))))) == CursorAt(vs, 0)
  {
    hide PrintItems;
    var text := Print(JArr(vs));
    PrintedStart(vs);
    assert vs[0..] == vs;
    assert text == CursorAt(vs, 0);
    TrimBracketed(text);
    assert |text| > 2;
  }

  /** A failed insertion that left text behind: here closing it does not even give a document, and building panics. */
  method AbortedInsertSpoils() returns (ok: bool, raw: Built)
    ensures !ok && raw == Panicked
  {
    var builder := new ParamsBuilder('[', ']');
    hide ParseDocument;
    ok := builder.Insert(Aborted("{"));
    raw := builder.Build();
    assert "" + TextOf(Aborted("{")) == "{" && Closed('[', "{", ']') == "[{]";
    BrokenText();
  }

  lemma BrokenText()
    ensures ParseDocument("[{]") == None
  {
    assert "[{]"[1..] == "{]" && "{]"[1..] == "]";
    assert SkipSpaces("[{]") == "[{]" && SkipSpaces("{]") == "{]" && SkipSpaces("]") == "]";
    assert ParseField("]") == None;
    assert ParseFields("]") == None;
    assert ParseValue("{]") == None;
    assert ParseItems("{]") == None;
  }

  /**
   * Inserting values, building, and reading them back one by one returns the same values in order, then
   * the end: a plain read fails with "no more params" and an optional read gives nothing.
   */
  method SendAndRead(vs: seq<Json>)
    returns (read: seq<Json>, past: Result<Json, ParamsError>, again: Result<Option<Json>, ParamsError>)
    ensures read == vs
    ensures past == Err(NoMoreParams) && again == Ok(None)
  {
    hide Print, PrintItems, NextInner, CursorAt;
    var raw := BuildArray(vs);
    if vs != [] {
      ReadFromStart(vs);
    }
    var reader := new ParamsSequence(Received(raw));
    read := [];
    var decode := (v: Json) => Some(v);
    while |read| < |vs|
      invariant |read| <= |vs| && read == vs[..|read|] && fresh(reader)
      invariant reader.cursor == if vs == [] then "" else CursorAt(vs, |read|)
    {
      ReadAt(vs, |read|, decode);
      var r := reader.Next(decode);
      read := read + [r.value];
    }
    if vs != [] {
      ReadPastEnd(vs, decode);
      ReadPastEnd(vs, v => Optional(decode, v));
    } else {
      ReadPastEnd([JNull], decode);
      ReadPastEnd([JNull], v => Optional(decode, v));
    }
    past := reader.Next(decode);
    again := reader.OptionalNext(decode);
  }

  /** Named parameters, built and received, read back as the same fields in insertion order. */
  method NamedRoundTrip(fs: seq<(string, Json)>) returns (read: Option<Json>)
    ensures read == Some(if fs == [] then JNull else JObj(fs))
  {
    hide Print, ParseDocument, PrintFields;
    var raw := BuildObject(fs);
    if fs == [] {
      DocumentRoundTrip(JNull);
      assert Print(JNull) == "null" by { PrintedNull(); }
    } else {
      assert Print(JObj(fs)) == "{" + PrintFields(fs) + "}" by { PrintedObject(fs); }
      TrimBracketed(Print(JObj(fs)));
      DocumentRoundTrip(JObj(fs));
    }
    read := ParseParams(Received(raw));
  }

  lemma PrintedNull()
    ensures Print(JNull) == "null"
  {
  }

  lemma PrintedObject(fs: seq<(string, Json)>)
    ensures Print(JObj(fs)) == "{" + PrintFields(fs) + "}"
  {
  }

  // ---------------------------------------------------------------- empty arrays

  /** The text of an empty array: spaces, a bracket, spaces, a bracket, spaces. */
  lemma EmptyArrayShape(text: string) returns (rest: string)
    requires ParseDocument(text) == Some(JArr([]))
    ensures SkipSpaces(text) != "" && SkipSpaces(text)[0] == '['
    ensures SkipSpaces(SkipSpaces(text)[1..]) == "]" + rest && SkipSpaces(rest) == ""
  {
    assert ParseValue(text).Some? && SkipSpaces(ParseValue(text).value.rest) == "";
    hide ParseDocument, ParseValue;
    rest := EmptyArrayValue(text);
  }

  lemma EmptyArrayValue(text: string) returns (rest: string)
    requires ParseValue(text).Some? && ParseValue(text).value.value == JArr([])
    ensures SkipSpaces(text) != "" && SkipSpaces(text)[0] == '['
    ensures SkipSpaces(SkipSpaces(text)[1..]) == "]" + rest && ParseValue(text).value.rest == rest
  {
    hide ParseItems, ParseFields, ParseNumber, ParseStrTail, SkipSpaces;
    var s := SkipSpaces(text);
    var t := SkipSpaces(s[1..]);
    ItemsAreSome(t);
    NumberIsNoArray(s);
    rest := t[1..];
  }

  lemma NumberIsNoArray(s: string)
    ensures ParseNumber(s).Some? ==> !ParseNumber(s).value.value.JArr?
  {
  }

  lemma ItemsAreSome(s: string)
    ensures ParseItems(s).Some? ==> ParseItems(s).value.value != []
  {
  }

  lemma {:induction false} TrimSkips(s: string)
    requires SkipSpaces(s) != "" && !IsWhitespace(SkipSpaces(s)[0])
    ensures TrimStart(s) == SkipSpaces(s)
  {
    if s != "" && IsSpace(s[0]) {
      TrimSkips(s[1..]);
    }
  }

  lemma {:induction false} SkippedAreSpaces(s: string) returns (spaces: string)
    ensures s == spaces + SkipSpaces(s) && forall i :: 0 <= i < |spaces| ==> IsSpace(spaces[i])
  {
    spaces := "";
    if s != "" && IsSpace(s[0]) {
      spaces := SkippedAreSpaces(s[1..]);
      spaces := [s[0]] + spaces;
    }
  }

  lemma {:induction false} TrimEndSpaces(a: string, rest: string)
    requires a != "" && !IsWhitespace(a[|a| - 1]) && forall i :: 0 <= i < |rest| ==> IsSpace(rest[i])
    ensures TrimEnd(a + rest) == a
  {
    if rest == "" {
      assert a + rest == a;
    } else {
      var n := |rest| - 1;
      assert (a + rest)[..|a + rest| - 1] == a + rest[..n];
      TrimEndSpaces(a, rest[..n]);
    }
  }

  /** What trimming makes of an empty array: only the spaces between its brackets stay. */
  lemma TrimmedEmptyArray(text: string) returns (inner: string)
    requires ParseDocument(text) == Some(JArr([]))
    ensures TrimEnd(TrimStart(text)) == "[" + inner + "]" && SkipSpaces(inner + "]") == "]"
  {
    var rest := EmptyArrayShape(text);
    TrimSkips(text);
    var s := SkipSpaces(text);
    inner := SkippedAreSpaces(s[1..]);
    var trailing := SkippedAreSpaces(rest);
    hide *;
    SpacesThen(inner, "]");
    BracketsAround(s, inner, rest);
    assert rest == trailing;
    TrimEndSpaces("[" + inner + "]", rest);
  }

  lemma BracketsAround(s: string, inner: string, rest: string)
    requires s != "" && s[0] == '[' && s[1..] == inner + ("]" + rest)
    ensures s == "[" + inner + "]" + rest
  {
    assert s == "[" + s[1..];
  }

  lemma {:induction false} SpacesThen(spaces: string, t: string)
    requires t != "" && !IsSpace(t[0]) && forall i :: 0 <= i < |spaces| ==> IsSpace(spaces[i])
    ensures SkipSpaces(spaces + t) == t
  {
    if spaces == "" {
      assert spaces + t == t;
    } else {
      assert (spaces + t)[1..] == spaces[1..] + t;
      SpacesThen(spaces[1..], t);
    }
  }

  /**
   * Whatever text of an empty array is received: reading it gives no parameters if it is trimmed to `[]`, and
   * else fails.
   */
  lemma EmptyArrayReads<T>(raw: string, decode: Json -> Option<T>)
    requires ParseDocument(raw) == Some(JArr([]))
    ensures NextInner(SequenceOf(NewParams(Some(raw))), decode).result
            == if TrimEnd(TrimStart(raw)) == "[]" then None else Some(Err(BadValue))
  {
    var inner := TrimmedEmptyArray(raw);
    var text := "[" + inner + "]";
    assert text[1..] == inner + "]";
    BracketIsNoValue(inner + "]");
    hide ParseValue, ParseDocument, TrimStart, TrimEnd;
    assert inner == "" ==> text == "[]";
    assert text == "[]" ==> |inner| == 0;
    assert |text| == |inner| + 2 && text[0] == '[';
  }

  lemma BracketIsNoValue(s: string)
    requires SkipSpaces(s) == "]"
    ensures ParseValue(s) == None
  {
    assert CountDigits("]") == 0;
    assert "]"[0..] == "]";
  }

  /** One such text. */
  lemma SpacedEmptyArrayFails<T>(decode: Json -> Option<T>)
    ensures NextInner(SequenceOf(NewParams(Some("[ ]"))), decode).result == Some(Err(BadValue))
  {
    assert "[ ]"[1..] == " ]" && " ]"[1..] == "]" && "]"[1..] == "";
    assert SkipSpaces("]") == "]" && SkipSpaces(" ]") == "]" && SkipSpaces("[ ]") == "[ ]";
    assert ParseDocument("[ ]") == Some(JArr([]));
    hide ParseValue, ParseDocument;
    assert TrimStart("[ ]") == "[ ]" && TrimEnd("[ ]") == "[ ]";
    EmptyArrayReads("[ ]", decode);
  }
}
