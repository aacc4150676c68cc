/** The hand-written JSON printers' output language, and a parser for it.
  *
  * `Quoted` is what `push_json_str` appends (crates/ndn-boltffi/src/offer.rs and discovery.rs);
  * `Render` is compact JSON text built from it.  The parser follows RFC 8259, except that it knows
  * no insignificant white space, no `\u` escapes, no fractions and no literals; none is ever printed.
  */
module Json {
  import opened Basics

  // ---------------------------------------------------------------- numbers

  predicate IsDigit(c: char) {
    '0' <= c <= '9'
  }

  function Digit(d: nat): char
    requires d < 10
  {
    "0123456789"[d]
  }

  function DigitValue(c: char): nat
    requires IsDigit(c)
  {
    (c as int) - ('0' as int)
  }

  /** The decimal form of a number. */
  function Decimal(n: nat): (text: string)
    ensures text != [] && forall i :: 0 <= i < |text| ==> IsDigit(text[i])
  {
    if n < 10 then [Digit(n)] else Decimal(n / 10) + [Digit(n % 10)]
  }

  /** Reads digits while there are any. */
  function ParseDigits(s: string, read: nat): (r: (nat, string))
    ensures |r.1| <= |s|
    ensures s != [] && IsDigit(s[0]) ==> |r.1| < |s|
  {
    if s != [] && IsDigit(s[0]) then ParseDigits(s[1..], read * 10 + DigitValue(s[0])) else (read, s)
  }

  predicate EndsNumber(rest: string) {
    rest == [] || !IsDigit(rest[0])
  }

  lemma {:induction false} ParseDigitsAppend(a: string, b: string, read: nat)
    requires forall i :: 0 <= i < |a| ==> IsDigit(a[i])
    ensures ParseDigits(a + b, read) == ParseDigits(b, ParseDigits(a, read).0) && ParseDigits(a, read).1 == []
    decreases |a|
  {
    if a == [] {
      assert a + b == b;
    } else {
      assert (a + b)[1..] == a[1..] + b;
      ParseDigitsAppend(a[1..], b, read * 10 + DigitValue(a[0]));
    }
  }

  lemma {:induction false} DecimalValue(n: nat)
    ensures ParseDigits(Decimal(n), 0) == (n, [])
  {
    if n < 10 {
      assert DigitValue(Digit(n)) == n;
    } else {
      DecimalValue(n / 10);
      ParseDigitsAppend(Decimal(n / 10), [Digit(n % 10)], 0);
      assert DigitValue(Digit(n % 10)) == n % 10;
      assert [Digit(n % 10)][1..] == [];
    }
  }

  lemma DecimalRoundTrip(n: nat, rest: string)
    requires EndsNumber(rest)
    ensures ParseDigits(Decimal(n) + rest, 0) == (n, rest)
  {
    DecimalValue(n);
    ParseDigitsAppend(Decimal(n), rest, 0);
  }

  function Signed(n: int): string {
    if n < 0 then "-" + Decimal(-n) else Decimal(n)
  }

  function ParseNumber(s: string): (r: Option<(int, string)>)
    ensures r.Some? ==> |r.value.1| < |s|
  {
    if s != [] && IsDigit(s[0]) then
      var (n, rest) := ParseDigits(s, 0);
      Some((n, rest))
    else if |s| > 1 && s[0] == '-' && IsDigit(s[1]) then
      var (n, rest) := ParseDigits(s[1..], 0);
      Some((0 - n, rest))
    else None
  }

  lemma NumberRoundTrip(n: int, rest: string)
    requires EndsNumber(rest)
    ensures ParseNumber(Signed(n) + rest) == Some((n, rest))
  {
    if n < 0 {
      NegativeRoundTrip(-n, rest);
    } else {
      DecimalRoundTrip(n, rest);
    }
  }

  lemma NegativeRoundTrip(n: nat, rest: string)
    requires EndsNumber(rest)
    ensures ParseNumber(("-" + Decimal(n)) + rest) == Some((0 - n, rest))
  {
    var text := ("-" + Decimal(n)) + rest;
    DecimalRoundTrip(n, rest);
    assert text[1..] == Decimal(n) + rest;
    assert text[0] == '-' && text[1] == Decimal(n)[0];
  }

  // ---------------------------------------------------------------- strings

  /** What one character is printed as. */
  function Escape(c: char): string {
    if c == '"' then ['\\', '"']
    else if c == '\\' then ['\\', '\\']
    else if c == '\n' then ['\\', 'n']
    else if c == '\r' then ['\\', 'r']
    else if c == '\t' then ['\\', 't']
    else if (c as int) < 0x20 then [' ']
    else [c]
  }

  function EscapeAll(s: string): string {
    if s == [] then [] else Escape(s[0]) + EscapeAll(s[1..])
  }

  function Quoted(s: string): string {
    ['"'] + EscapeAll(s) + ['"']
  }

  predicate Blanked(c: char) {
    (c as int) < 0x20 && c != '\n' && c != '\r' && c != '\t'
  }

  /** The characters a reader gets back: control characters other than newline, return and tab become
    * spaces. */
  function Readable(s: string): string {
    seq(|s|, i requires 0 <= i < |s| => if Blanked(s[i]) then ' ' else s[i])
  }

  /** A reader gets a string back unchanged exactly when it has no such control character; each of these has become
    * one space, and everything else is as it was. */
  lemma ReadableExactly(s: string)
    ensures Readable(s) == s <==> forall i :: 0 <= i < |s| ==> (s[i] as int) >= 32 || s[i] in ['\n', '\r', '\t']
    ensures |Readable(s)| == |s|
    ensures forall i :: 0 <= i < |s| ==>
      Readable(s)[i] == if (s[i] as int) < 32 && s[i] !in ['\n', '\r', '\t'] then ' ' else s[i]
  {
    if Readable(s) == s {
      forall i | 0 <= i < |s| ensures !Blanked(s[i]) {
        assert Readable(s)[i] == s[i];
      }
    }
  }

  /** The character after a backslash. */
  function Unescape(c: char): Option<char> {
    if c == '"' || c == '\\' || c == '/' then Some(c)
    else if c == 'b' then Some(8 as char)
    else if c == 'f' then Some(12 as char)
    else if c == 'n' then Some('\n')
    else if c == 'r' then Some('\r')
    else if c == 't' then Some('\t')
    else None
  }

  /** The characters up to the closing quote; raw control characters are not allowed. */
  function ParseChars(s: string): (r: Option<(string, string)>)
    ensures r.Some? ==> |r.value.1| < |s|
    decreases |s|
  {
    if s == [] then None
    else if s[0] == '"' then Some(([], s[1..]))
    else if s[0] == '\\' then
      if |s| == 1 || Unescape(s[1]).None? then None
      else match ParseChars(s[2..])
        case None => None
        case Some((text, rest)) => Some(([Unescape(s[1]).value] + text, rest))
    else if (s[0] as int) < 0x20 then None
    else match ParseChars(s[1..])
      case None => None
      case Some((text, rest)) => Some(([s[0]] + text, rest))
  }

  function ParseString(s: string): (r: Option<(string, string)>)
    ensures r.Some? ==> |r.value.1| < |s|
  {
    if s != [] && s[0] == '"' then ParseChars(s[1..]) else None
  }

  lemma ParseOneChar(c: char, rest: string)
    requires ParseChars(rest).Some?
    ensures ParseChars(Escape(c) + rest)
      == Some(([if Blanked(c) then ' ' else c] + ParseChars(rest).value.0, ParseChars(rest).value.1))
  {
    var text := Escape(c) + rest;
    if |Escape(c)| == 2 {
      assert text[2..] == rest;
    } else {
      assert text[1..] == rest;
    }
  }

  lemma {:induction false} CharsRoundTrip(s: string, rest: string)
    ensures ParseChars(EscapeAll(s) + (['"'] + rest)) == Some((Readable(s), rest))
    decreases |s|
  {
    if s == [] {
      assert EscapeAll(s) + (['"'] + rest) == ['"'] + rest;
    } else {
      CharsRoundTrip(s[1..], rest);
      ParseOneChar(s[0], EscapeAll(s[1..]) + (['"'] + rest));
      ConcatAssociative(Escape(s[0]), EscapeAll(s[1..]), ['"'] + rest);
      assert Readable(s) == [if Blanked(s[0]) then ' ' else s[0]] + Readable(s[1..]);
    }
  }

  lemma StringRoundTrip(s: string, rest: string)
    ensures ParseString(Quoted(s) + rest) == Some((Readable(s), rest))
  {
    CharsRoundTrip(s, rest);
    assert (Quoted(s) + rest)[1..] == EscapeAll(s) + (['"'] + rest);
  }

  // ----------------------------------------------------------------- values

  datatype Value =
    | Text(text: string)
    | Number(number: int)
    | List(items: seq<Value>)
    | Record(fields: seq<Field>)

  datatype Field = Field(key: string, value: Value)

  function Render(v: Value): string
    decreases v, 0
  {
    match v
    case Text(s) => Quoted(s)
    case Number(n) => Signed(n)
    case List(items) => "[" + RenderItems(items) + "]"
    case Record(fields) => "{" + RenderFields(fields) + "}"
  }

  function RenderItems(items: seq<Value>): string
    decreases items, 1
  {
    if items == [] then []
    else Render(items[0]) + (if |items| == 1 then [] else "," + RenderItems(items[1..]))
  }

  function RenderFields(fields: seq<Field>): string
    decreases fields, 1
  {
    if fields == [] then []
    else RenderField(fields[0]) + (if |fields| == 1 then [] else "," + RenderFields(fields[1..]))
  }

  function RenderField(f: Field): string
    decreases f, 0
  {
    Quoted(f.key) + ":" + Render(f.value)
  }

  /** A value as its reader gets it. */
  function ReadBack(v: Value): Value
    decreases v, 0
  {
    match v
    case Text(s) => Text(Readable(s))
    case Number(n) => Number(n)
    case List(items) => List(ReadBackItems(items))
    case Record(fields) => Record(ReadBackFields(fields))
  }

  function ReadBackItems(items: seq<Value>): (r: seq<Value>)
    ensures |r| == |items| && forall i :: 0 <= i < |r| ==> r[i] == ReadBack(items[i])
    decreases items, 1
  {
    if items == [] then [] else [ReadBack(items[0])] + ReadBackItems(items[1..])
  }

  function ReadBackFields(fields: seq<Field>): (r: seq<Field>)
    ensures |r| == |fields|
    ensures forall i :: 0 <= i < |r| ==> r[i] == Field(Readable(fields[i].key), ReadBack(fields[i].value))
    decreases fields, 1
  {
    if fields == [] then []
    else [Field(Readable(fields[0].key), ReadBack(fields[0].value))] + ReadBackFields(fields[1..])
  }

  function ParseValue(s: string): (r: Option<(Value, string)>)
    ensures r.Some? ==> |r.value.1| < |s|
    decreases |s|, 0
  {
    if s == [] then None
    else if s[0] == '"' then
      match ParseString(s)
      case None => None
      case Some((text, rest)) => Some((Text(text), rest))
    else if s[0] == '[' then
      if |s| > 1 && s[1] == ']' then Some((List([]), s[2..]))
      else match ParseItems(s[1..])
        case None => None
        case Some((items, rest)) => Some((List(items), rest))
    else if s[0] == '{' then
      if |s| > 1 && s[1] == '}' then Some((Record([]), s[2..]))
      else match ParseFields(s[1..])
        case None => None
        case Some((fields, rest)) => Some((Record(fields), rest))
    else match ParseNumber(s)
      case None => None
      case Some((n, rest)) => Some((Number(n), rest))
  }

  /** One or more items and the closing bracket. */
  function ParseItems(s: string): (r: Option<(seq<Value>, string)>)
    ensures r.Some? ==> |r.value.1| < |s|
    decreases |s|, 2
  {
    match ParseValue(s)
    case None => None
    case Some((v, rest)) =>
      if rest != [] && rest[0] == ']' then Some(([v], rest[1..]))
      else if rest != [] && rest[0] == ',' then
        match ParseItems(rest[1..])
        case None => None
        case Some((more, last)) => Some(([v] + more, last))
      else None
  }

  function ParseField(s: string): (r: Option<(Field, string)>)
    ensures r.Some? ==> |r.value.1| < |s|
    decreases |s|, 1
  {
    match ParseString(s)
    case None => None
    case Some((key, rest)) =>
      if rest == [] || rest[0] != ':' then None
      else match ParseValue(rest[1..])
        case None => None
        case Some((v, last)) => Some((Field(key, v), last))
  }

  /** One or more members and the closing brace. */
  function ParseFields(s: string): (r: Option<(seq<Field>, string)>)
    ensures r.Some? ==> |r.value.1| < |s|
    decreases |s|, 2
  {
    match ParseField(s)
    case None => None
    case Some((f, rest)) =>
      if rest != [] && rest[0] == '}' then Some(([f], rest[1..]))
      else if rest != [] && rest[0] == ',' then
        match ParseFields(rest[1..])
        case None => None
        case Some((more, last)) => Some(([f] + more, last))
      else None
  }

  // ---------------------------------------------------------------- looking up

  function FirstField(fields: seq<Field>, key: string): Option<Value> {
    if fields == [] then None
    else if fields[0].key == key then Some(fields[0].value)
    else FirstField(fields[1..], key)
  }

  /** The value of a record's first member of this name. */
  function Member(v: Value, key: string): Option<Value> {
    if v.Record? then FirstField(v.fields, key) else None
  }

  lemma {:induction false} FirstFieldAt(fields: seq<Field>, key: string, i: nat)
    requires i < |fields| && fields[i].key == key && forall j :: 0 <= j < i ==> fields[j].key != key
    ensures FirstField(fields, key) == Some(fields[i].value)
    decreases i
  {
    if i > 0 {
      FirstFieldAt(fields[1..], key, i - 1);
    }
  }

  lemma {:induction false} NoSuchField(fields: seq<Field>, key: string)
    requires forall j :: 0 <= j < |fields| ==> fields[j].key != key
    ensures FirstField(fields, key) == None
    decreases |fields|
  {
    if fields != [] {
      NoSuchField(fields[1..], key);
    }
  }

  // ------------------------------------------------------------- round trip

  lemma RenderStarts(v: Value, rest: string)
    ensures Render(v) != [] && Render(v)[0] != ']'
    ensures v.List? ==> Render(v)[0] == '['
    ensures v.Record? ==> Render(v)[0] == '{'
    ensures v.Number? ==> Render(v)[0] == '-' || IsDigit(Render(v)[0])
  {
  }

  /** JSON round trip: what is printed is parsed back, whatever number-free text follows it. */
  lemma {:induction false} ValueRoundTrip(v: Value, rest: string)
    requires EndsNumber(rest)
    ensures ParseValue(Render(v) + rest) == Some((ReadBack(v), rest))
    decreases v, 0
  {
    match v
    case Text(s) =>
      StringRoundTrip(s, rest);
    case Number(n) =>
      NumberRoundTrip(n, rest);
    case List(items) =>
      ListRoundTrip(items, rest);
    case Record(fields) =>
      RecordRoundTrip(fields, rest);
  }

  lemma {:induction false} ListRoundTrip(items: seq<Value>, rest: string)
    ensures ParseValue(Render(List(items)) + rest) == Some((ReadBack(List(items)), rest))
    decreases items, 2
  {
    var text := Render(List(items)) + rest;
    if items == [] {
      assert text[2..] == rest;
    } else {
      ItemsRoundTrip(items, rest);
      RenderStarts(items[0], rest);
      assert text[1..] == RenderItems(items) + ("]" + rest);
      assert text[1] == Render(items[0])[0];
    }
  }

  lemma {:induction false} RecordRoundTrip(fields: seq<Field>, rest: string)
    ensures ParseValue(Render(Record(fields)) + rest) == Some((ReadBack(Record(fields)), rest))
    decreases fields, 2
  {
    var text := Render(Record(fields)) + rest;
    if fields == [] {
      assert text[2..] == rest;
    } else {
      FieldsRoundTrip(fields, rest);
      assert text[1..] == RenderFields(fields) + ("}" + rest);
      assert RenderFields(fields)[0] == '"';
    }
  }

  lemma {:induction false} ItemsRoundTrip(items: seq<Value>, rest: string)
    requires items != []
    ensures ParseItems(RenderItems(items) + ("]" + rest)) == Some((ReadBackItems(items), rest))
    decreases items, 1
  {
    var tail := if |items| == 1 then [] else "," + RenderItems(items[1..]);
    var after := tail + ("]" + rest);
    ConcatAssociative(Render(items[0]), tail, "]" + rest);
    ValueRoundTrip(items[0], after);
    if |items| == 1 {
      assert after == "]" + rest;
      assert after[1..] == rest;
      assert ReadBackItems(items) == [ReadBack(items[0])] + [];
      ParseItemsStep(RenderItems(items) + ("]" + rest), ReadBack(items[0]), after, [], rest);
    } else {
      var more := RenderItems(items[1..]) + ("]" + rest);
      ItemsRoundTrip(items[1..], rest);
      ConcatAssociative(",", RenderItems(items[1..]), "]" + rest);
      assert after[1..] == more;
      assert ReadBackItems(items) == [ReadBack(items[0])] + ReadBackItems(items[1..]);
      ParseItemsStep(RenderItems(items) + ("]" + rest), ReadBack(items[0]), after, ReadBackItems(items[1..]), rest);
    }
  }

  lemma {:induction false} FieldRoundTrip(f: Field, rest: string)
    requires EndsNumber(rest)
    ensures ParseField(RenderField(f) + rest) == Some((Field(Readable(f.key), ReadBack(f.value)), rest))
    decreases f, 0
  {
    var after := ":" + Render(f.value) + rest;
    assert RenderField(f) + rest == Quoted(f.key) + after;
    StringRoundTrip(f.key, after);
    assert after[1..] == Render(f.value) + rest;
    ValueRoundTrip(f.value, rest);
  }

  lemma ParseItemsStep(s: string, v: Value, rest: string, more: seq<Value>, last: string)
    requires ParseValue(s) == Some((v, rest)) && rest != []
    requires if rest[0] == ']' then more == [] && last == rest[1..]
             else rest[0] == ',' && ParseItems(rest[1..]) == Some((more, last))
    ensures ParseItems(s) == Some(([v] + more, last))
  {
    assert [v] + [] == [v];
  }

  lemma ParseFieldsStep(s: string, f: Field, rest: string, more: seq<Field>, last: string)
    requires ParseField(s) == Some((f, rest)) && rest != []
    requires if rest[0] == '}' then more == [] && last == rest[1..]
             else rest[0] == ',' && ParseFields(rest[1..]) == Some((more, last))
    ensures ParseFields(s) == Some(([f] + more, last))
  {
    assert [f] + [] == [f];
  }

  lemma RenderFieldsFirst(fields: seq<Field>, rest: string) returns (after: string)
    requires fields != []
    ensures RenderFields(fields) + ("}" + rest) == RenderField(fields[0]) + after
    ensures if |fields| == 1 then after == "}" + rest else after == "," + (RenderFields(fields[1..]) + ("}" + rest))
  {
    if |fields| == 1 {
      after := "}" + rest;
      assert RenderFields(fields) == RenderField(fields[0]) + [];
    } else {
      var more := RenderFields(fields[1..]);
      after := "," + (more + ("}" + rest));
      ConcatAssociative(RenderField(fields[0]), "," + more, "}" + rest);
      ConcatAssociative(",", more, "}" + rest);
    }
  }

  lemma {:induction false} FieldsRoundTrip(fields: seq<Field>, rest: string)
    requires fields != []
    ensures ParseFields(RenderFields(fields) + ("}" + rest)) == Some((ReadBackFields(fields), rest))
    decreases fields, 1
  {
    var text := RenderFields(fields) + ("}" + rest);
    var after := RenderFieldsFirst(fields, rest);
    FieldRoundTrip(fields[0], after);
    var f := Field(Readable(fields[0].key), ReadBack(fields[0].value));
    if |fields| == 1 {
      assert after[1..] == rest;
      ParseFieldsStep(text, f, after, [], rest);
      assert ReadBackFields(fields) == [f] + [];
    } else {
      FieldsRoundTrip(fields[1..], rest);
      assert after[1..] == RenderFields(fields[1..]) + ("}" + rest);
      ParseFieldsStep(text, f, after, ReadBackFields(fields[1..]), rest);
      assert ReadBackFields(fields) == [f] + ReadBackFields(fields[1..]);
    }
  }

  // ---------------------------------------------------------------- printing

  /** A string that needs no escaping, such as a field name written out in the source. */
  predicate Plain(s: string) {
    forall i :: 0 <= i < |s| ==> (s[i] as int) >= 0x20 && s[i] != '"' && s[i] != '\\'
  }

  lemma {:induction false} PlainQuoted(s: string)
    requires Plain(s)
    ensures EscapeAll(s) == s && Quoted(s) == ['"'] + s + ['"'] && Readable(s) == s
    decreases |s|
  {
    PlainIsReadable(s);
    if s != [] {
      PlainQuoted(s[1..]);
      assert Escape(s[0]) == [s[0]];
      assert s == [s[0]] + s[1..];
    }
  }

  lemma PlainIsReadable(s: string)
    requires Plain(s)
    ensures Readable(s) == s
  {
    ReadableExactly(s);
  }

  /** The text a printer has produced so far. */
  class Printer {
    var out: string

    constructor ()
      ensures out == []
    {
      out := [];
    }

    method Push(s: string)
      modifies this
      ensures out == old(out) + s
    {
      out := out + s;
    }

    /** `push_json_str`. */
    method PushJsonStr(s: string)
      modifies this
      ensures out == old(out) + Quoted(s)
    {
      Push("\"");
      for i := 0 to |s|
        invariant out == old(out) + "\"" + EscapeAll(s[..i])
      {
        var c := s[i];
        EscapeAllSnoc(s[..i], c);
        assert s[..i + 1] == s[..i] + [c];
        ConcatAssociative(old(out) + "\"", EscapeAll(s[..i]), Escape(c));
        if c == '"' {
          Push("\\\"");
        } else if c == '\\' {
          Push("\\\\");
        } else if c == '\n' {
          Push("\\n");
        } else if c == '\r' {
          Push("\\r");
        } else if c == '\t' {
          Push("\\t");
        } else if (c as int) < 0x20 {
          Push(" ");
        } else {
          Push([c]);
        }
      }
      assert s[..|s|] == s;
      Push("\"");
      ConcatAssociative(old(out), "\"", EscapeAll(s));
      ConcatAssociative(old(out), "\"" + EscapeAll(s), "\"");
    }

    /** The fixed text before the value of a record's next field. */
    method PushKey(ghost fields: seq<Field>, first: bool, key: string)
      requires Plain(key) && (first <==> fields == [])
      modifies this
      ensures out == old(out) + Comma(fields) + KeyText(key)
    {
      if !first {
        Push(",");
      }
      ghost var start := out;
      assert start == old(out) + Comma(fields);
      Push("\"");
      Push(key);
      Push("\":");
      KeyPushed(start, key);
    }

    /** A field whose value is a string. */
    method AddText(ghost start: string, ghost fields: seq<Field>, first: bool, key: string, text: string)
      requires Plain(key) && (first <==> fields == []) && out == start + RenderFields(fields)
      modifies this
      ensures out == start + RenderFields(fields + [Field(key, Text(text))])
    {
      FieldText(start, fields, key, Text(text));
      PushKey(fields, first, key);
      PushJsonStr(text);
    }

    /** A field whose value is a number. */
    method AddNumber(ghost start: string, ghost fields: seq<Field>, first: bool, key: string, number: int)
      requires Plain(key) && (first <==> fields == []) && out == start + RenderFields(fields)
      modifies this
      ensures out == start + RenderFields(fields + [Field(key, Number(number))])
    {
      FieldText(start, fields, key, Number(number));
      PushKey(fields, first, key);
      Push(Signed(number));
    }
  }

  function Comma(fields: seq<Field>): string {
    if fields == [] then [] else ","
  }

  function KeyText(key: string): string {
    Quoted(key) + ":"
  }

  lemma KeyPushed(start: string, key: string)
    requires Plain(key)
    ensures start + "\"" + key + "\":" == start + KeyText(key)
  {
    PlainQuoted(key);
    ConcatAssociative(start, "\"", key);
    ConcatAssociative(start, "\"" + key, "\":");
    assert "\":" == "\"" + ":";
    ConcatAssociative("\"" + key, "\"", ":");
  }

  lemma FieldText(start: string, fields: seq<Field>, key: string, v: Value)
    ensures start + RenderFields(fields + [Field(key, v)])
      == (start + RenderFields(fields)) + Comma(fields) + KeyText(key) + Render(v)
  {
    var before, field := RenderFields(fields), RenderField(Field(key, v));
    RenderFieldsSnoc(fields, Field(key, v));
    assert field == KeyText(key) + Render(v);
    ConcatAssociative(start, before + Comma(fields), field);
    ConcatAssociative(start, before, Comma(fields));
    ConcatAssociative((start + before) + Comma(fields), KeyText(key), Render(v));
  }

  lemma {:induction false} EscapeAllSnoc(s: string, c: char)
    ensures EscapeAll(s + [c]) == EscapeAll(s) + Escape(c)
    decreases |s|
  {
    if s == [] {
      assert s + [c] == [c];
      assert [c][1..] == [];
    } else {
      EscapeAllSnoc(s[1..], c);
      assert (s + [c])[1..] == s[1..] + [c];
    }
  }

  /** A field added at the end of a record under construction. */
  lemma {:induction false} RenderFieldsSnoc(fields: seq<Field>, f: Field)
    ensures RenderFields(fields + [f]) == RenderFields(fields) + (if fields == [] then [] else ",") + RenderField(f)
    decreases |fields|
  {
    if |fields| > 0 {
      RenderFieldsSnoc(fields[1..], f);
      assert (fields + [f])[1..] == fields[1..] + [f];
    }
  }

  /** An item added at the end of a list under construction. */
  lemma {:induction false} RenderItemsSnoc(items: seq<Value>, v: Value)
    ensures RenderItems(items + [v]) == RenderItems(items) + (if items == [] then [] else ",") + Render(v)
    decreases |items|
  {
    if |items| > 0 {
      RenderItemsSnoc(items[1..], v);
      assert (items + [v])[1..] == items[1..] + [v];
    }
  }
}
