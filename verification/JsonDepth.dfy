/** The nesting-depth guard of the SQLite JSON columns, against the canonical printer.

    Every record is written as canonical JSON and scanned, character by character, before it
    is stored and again before it is parsed. The scanner never builds a value: it tracks
    strings and escapes by hand. The theorem is that on canonical text it sees exactly the
    nesting of the value, whatever the strings of the value contain. */
module JsonDepth {

  /** A number as `json.dumps` prints it: digits, sign, exponent, `NaN` or `Infinity`. */
  type NumberText = s: string | forall i :: 0 <= i < |s| ==> IsNumberChar(s[i]) witness "0"

  predicate IsNumberChar(c: char) {
    '0' <= c <= '9' || c in {'+', '-', '.', 'e', 'E', 'I', 'N', 'a', 'f', 'i', 'n', 't', 'y'}
  }

  datatype Json =
    | Null
    | Bool(value: bool)
    | Number(text: NumberText)
    | Str(chars: string)
    | Arr(items: seq<Json>)
    | Obj(fields: seq<Field>)

  /** The fields of an object stand in printing order: sorted by key when canonical. */
  datatype Field = Field(key: string, value: Json)

  const MAX_SQLITE_JSON_BYTES := 262_144
  const MAX_SQLITE_JSON_DEPTH := 256

  function Max(a: int, b: int): int { if a >= b then a else b }

  /** How deeply brackets nest in a value. */
  function Depth(v: Json): nat
    decreases v, 1
  {
    match v
    case Arr(items) => 1 + ItemsDepth(items)
    case Obj(fields) => 1 + FieldsDepth(fields)
    case _ => 0
  }

  function ItemsDepth(items: seq<Json>): nat
    decreases items, 0
  {
    if items == [] then 0 else Max(Depth(items[0]), ItemsDepth(items[1..]))
  }

  function FieldsDepth(fields: seq<Field>): nat
    decreases fields, 0
  {
    if fields == [] then 0 else Max(Depth(fields[0].value), FieldsDepth(fields[1..]))
  }

  // The canonical printer: compact separators and every non-ASCII character escaped.

  function HexDigit(n: nat): char
    requires n < 16
  {
    "0123456789abcdef"[n]
  }

  function UnicodeEscape(n: nat): string
    requires n < 0x1_0000
  {
    ['\\', 'u', HexDigit(n / 4096), HexDigit(n / 256 % 16), HexDigit(n / 16 % 16), HexDigit(n % 16)]
  }

  function EscapeChar(c: char): string {
    if c == '"' then ['\\', '"']
    else if c == '\\' then ['\\', '\\']
    else if c == '\n' then ['\\', 'n']
    else if c == '\r' then ['\\', 'r']
    else if c == '\t' then ['\\', 't']
    else if c as int == 0x08 then ['\\', 'b']
    else if c as int == 0x0c then ['\\', 'f']
    else if ' ' <= c <= '~' then [c]
    else if c as int < 0x1_0000 then UnicodeEscape(c as int)
    else
      var n := c as int - 0x1_0000;
      UnicodeEscape(0xd800 + n / 0x400) + UnicodeEscape(0xdc00 + n % 0x400)
  }

  function EscapeChars(s: string): string {
    if s == [] then [] else EscapeChar(s[0]) + EscapeChars(s[1..])
  }

  function Quoted(s: string): string { ['"'] + EscapeChars(s) + ['"'] }

  function Print(v: Json): string
    decreases v, 1
  {
    match v
    case Null => "null"
    case Bool(b) => if b then "true" else "false"
    case Number(text) => text
    case Str(chars) => Quoted(chars)
    case Arr(items) => ['['] + PrintItems(items) + [']']
    case Obj(fields) => ['{'] + PrintFields(fields) + ['}']
  }

  function PrintItems(items: seq<Json>): string
    decreases items, 0
  {
    if items == [] then []
    else if |items| == 1 then Print(items[0])
    else Print(items[0]) + [','] + PrintItems(items[1..])
  }

  function PrintFields(fields: seq<Field>): string
    decreases fields, 0
  {
    if fields == [] then []
    else if |fields| == 1 then Quoted(fields[0].key) + [':'] + Print(fields[0].value)
    else Quoted(fields[0].key) + [':'] + Print(fields[0].value) + [','] + PrintFields(fields[1..])
  }

  // The scanner.

  datatype Scan = Scan(depth: nat, maximum: nat, inString: bool, escaped: bool)

  const START := Scan(0, 0, false, false)

  function Next(s: Scan, c: char): Scan {
    if s.inString then
      if s.escaped then s.(escaped := false)
      else if c == '\\' then s.(escaped := true)
      else if c == '"' then s.(inString := false)
      else s
    else if c == '"' then s.(inString := true)
    else if c == '[' || c == '{' then s.(depth := s.depth + 1, maximum := Max(s.maximum, s.depth + 1))
    else if c == ']' || c == '}' then s.(depth := Max(0, s.depth - 1))
    else s
  }

  function ScanText(s: Scan, text: string): Scan
    decreases |text|
  {
    if text == [] then s else ScanText(Next(s, text[0]), text[1..])
  }

  /** The loop of the depth guard, one iteration per character. */
  method JsonNestingDepth(text: string) returns (maximum: nat)
    ensures maximum == ScanText(START, text).maximum
  {
    var depth: nat := 0;
    maximum := 0;
    var inString, escaped := false, false;
    var i := 0;
    while i < |text|
      invariant 0 <= i <= |text|
      invariant ScanText(Scan(depth, maximum, inString, escaped), text[i..]) == ScanText(START, text)
    {
      var c := text[i];
      assert text[i..][0] == c && text[i..][1..] == text[i + 1..];
      i := i + 1;
      if inString {
        if escaped {
          escaped := false;
        } else if c == '\\' {
          escaped := true;
        } else if c == '"' {
          inString := false;
        }
        continue;
      }
      if c == '"' {
        inString := true;
      } else if c == '[' || c == '{' {
        depth := depth + 1;
        maximum := Max(maximum, depth);
      } else if c == ']' || c == '}' {
        depth := Max(0, depth - 1);
      }
    }
  }

  lemma {:induction false} ScanConcat(s: Scan, a: string, b: string)
    ensures ScanText(s, a + b) == ScanText(ScanText(s, a), b)
    decreases |a|
  {
    if a == [] {
      assert a + b == b;
    } else {
      assert (a + b)[0] == a[0] && (a + b)[1..] == a[1..] + b;
      ScanConcat(Next(s, a[0]), a[1..], b);
    }
  }

  ghost predicate Outside(s: Scan) { !s.inString && !s.escaped && s.depth <= s.maximum }

  ghost predicate Inside(s: Scan) { s.inString && !s.escaped }

  ghost predicate Plain(c: char) { c !in ['"', '\\', '[', ']', '{', '}'] }

  lemma {:induction false} PlainScan(s: Scan, text: string)
    requires !s.escaped && forall i :: 0 <= i < |text| ==> Plain(text[i])
    ensures ScanText(s, text) == s
    decreases |text|
  {
    if text != [] {
      assert Plain(text[0]) && Next(s, text[0]) == s;
      PlainScan(s, text[1..]);
    }
  }

  lemma HexDigitsArePlain(n: nat)
    requires n < 16
    ensures Plain(HexDigit(n))
  {
  }

  lemma UnicodeEscapeScan(s: Scan, n: nat)
    requires Inside(s) && n < 0x1_0000
    ensures ScanText(s, UnicodeEscape(n)) == s
  {
    var e := UnicodeEscape(n);
    HexDigitsArePlain(n / 4096);
    HexDigitsArePlain(n / 256 % 16);
    HexDigitsArePlain(n / 16 % 16);
    HexDigitsArePlain(n % 16);
    assert e == e[..2] + e[2..];
    ScanConcat(s, e[..2], e[2..]);
    assert e[..2] == ['\\', 'u'];
    PairScan(s, 'u');
    PlainScan(s, e[2..]);
  }

  /** A backslash and the character after it leave the scanner where it was. */
  lemma PairScan(s: Scan, c: char)
    requires Inside(s)
    ensures ScanText(s, ['\\', c]) == s
  {
    assert ['\\', c][1..] == [c] && [c][1..] == [];
    assert ScanText(s, ['\\', c]) == ScanText(s.(escaped := true), [c]);
    assert ScanText(s.(escaped := true), [c]) == ScanText(s, []);
  }

  lemma OneChar(s: Scan, c: char)
    ensures ScanText(s, [c]) == Next(s, c)
  {
    assert [c][1..] == [];
  }

  /** The two halves of a surrogate pair fit in four hexadecimal digits each. */
  lemma SurrogateBounds(n: nat)
    requires n < 0x10_0000
    ensures 0xd800 + n / 0x400 < 0x1_0000 && 0xdc00 + n % 0x400 < 0x1_0000
  {
  }

  lemma SurrogateScan(s: Scan, n: nat)
    requires Inside(s) && n < 0x10_0000
    ensures 0xd800 + n / 0x400 < 0x1_0000 && 0xdc00 + n % 0x400 < 0x1_0000
    ensures ScanText(s, UnicodeEscape(0xd800 + n / 0x400) + UnicodeEscape(0xdc00 + n % 0x400)) == s
  {
    hide ScanText, UnicodeEscape;
    SurrogateBounds(n);
    var high: nat, low: nat := 0xd800 + n / 0x400, 0xdc00 + n % 0x400;
    ScanConcat(s, UnicodeEscape(high), UnicodeEscape(low));
    UnicodeEscapeScan(s, high);
    UnicodeEscapeScan(s, low);
  }

  /** The characters with an escape of their own. */
  predicate ShortEscaped(c: char) {
    c == '"' || c == '\\' || c == '\n' || c == '\r' || c == '\t' || c as int == 0x08 || c as int == 0x0c
  }

  lemma ShortEscapeScan(s: Scan, c: char)
    requires Inside(s) && ShortEscaped(c)
    ensures ScanText(s, EscapeChar(c)) == s
  {
    hide ScanText;
    var e := EscapeChar(c);
    assert |e| == 2 && e == ['\\', e[1]];
    PairScan(s, e[1]);
  }

  lemma EscapeCharScan(s: Scan, c: char)
    requires Inside(s)
    ensures ScanText(s, EscapeChar(c)) == s
  {
    hide ScanText, UnicodeEscape;
    if ShortEscaped(c) {
      ShortEscapeScan(s, c);
    } else if ' ' <= c <= '~' {
      OneChar(s, c);
    } else if c as int < 0x1_0000 {
      UnicodeEscapeScan(s, c as int);
    } else {
      SurrogateScan(s, c as int - 0x1_0000);
    }
  }

  lemma {:induction false} EscapeCharsScan(s: Scan, text: string)
    requires Inside(s)
    ensures ScanText(s, EscapeChars(text)) == s
  {
    if text != [] {
      ScanConcat(s, EscapeChar(text[0]), EscapeChars(text[1..]));
      EscapeCharScan(s, text[0]);
      EscapeCharsScan(s, text[1..]);
    }
  }

  /** A printed string, whatever its characters, moves the scanner nowhere. */
  lemma QuotedScan(s: Scan, text: string)
    requires Outside(s)
    ensures ScanText(s, Quoted(text)) == s
  {
    var within := s.(inString := true);
    ScanConcat(s, ['"'] + EscapeChars(text), ['"']);
    ScanConcat(s, ['"'], EscapeChars(text));
    OneChar(s, '"');
    EscapeCharsScan(within, text);
    OneChar(within, '"');
  }

  function Seen(s: Scan, d: nat): Scan { s.(maximum := Max(s.maximum, s.depth + d)) }

  lemma {:induction false} PrintScan(s: Scan, v: Json)
    requires Outside(s)
    ensures ScanText(s, Print(v)) == Seen(s, Depth(v))
    decreases v, 1
  {
    match v
    case Null => AtomScan(s, v);
    case Bool(_) => AtomScan(s, v);
    case Number(_) => AtomScan(s, v);
    case Str(chars) => QuotedScan(s, chars);
    case Arr(items) =>
      PrintItemsScan(Next(s, '['), items);
      BracketScan(s, '[', PrintItems(items), ']', ItemsDepth(items));
    case Obj(fields) =>
      PrintFieldsScan(Next(s, '{'), fields);
      BracketScan(s, '{', PrintFields(fields), '}', FieldsDepth(fields));
  }

  lemma AtomScan(s: Scan, v: Json)
    requires Outside(s) && (v.Null? || v.Bool? || v.Number?)
    ensures ScanText(s, Print(v)) == s
  {
    if v.Number? {
      forall i | 0 <= i < |v.text| ensures Plain(v.text[i]) {
        assert IsNumberChar(v.text[i]);
      }
    }
    PlainScan(s, Print(v));
  }

  lemma BracketScan(s: Scan, open: char, body: string, close: char, d: nat)
    requires Outside(s) && open in ['[', '{'] && close in [']', '}']
    requires ScanText(Next(s, open), body) == Seen(Next(s, open), d)
    ensures ScanText(s, [open] + body + [close]) == Seen(s, 1 + d)
  {
    ScanConcat(s, [open] + body, [close]);
    ScanConcat(s, [open], body);
    OneChar(s, open);
    OneChar(Seen(Next(s, open), d), close);
  }

  lemma {:induction false} PrintItemsScan(s: Scan, items: seq<Json>)
    requires Outside(s)
    ensures ScanText(s, PrintItems(items)) == Seen(s, ItemsDepth(items))
    decreases items, 0
  {
    if items != [] {
      PrintScan(s, items[0]);
      var first := Seen(s, Depth(items[0]));
      if |items| > 1 {
        ScanConcat(s, Print(items[0]) + [','], PrintItems(items[1..]));
        ScanConcat(s, Print(items[0]), [',']);
        OneChar(first, ',');
        PrintItemsScan(first, items[1..]);
      }
    }
  }

  lemma FieldScan(s: Scan, f: Field)
    requires Outside(s)
    requires ScanText(s, Print(f.value)) == Seen(s, Depth(f.value))
    ensures ScanText(s, Quoted(f.key) + [':'] + Print(f.value)) == Seen(s, Depth(f.value))
  {
    ScanConcat(s, Quoted(f.key) + [':'], Print(f.value));
    ScanConcat(s, Quoted(f.key), [':']);
    QuotedScan(s, f.key);
    OneChar(s, ':');
  }

  lemma {:induction false} PrintFieldsScan(s: Scan, fields: seq<Field>)
    requires Outside(s)
    ensures ScanText(s, PrintFields(fields)) == Seen(s, FieldsDepth(fields))
    decreases fields, 0
  {
    if fields != [] {
      var f := fields[0];
      PrintScan(s, f.value);
      FieldScan(s, f);
      var first := Seen(s, Depth(f.value));
      if |fields| > 1 {
        var head := Quoted(f.key) + [':'] + Print(f.value);
        ScanConcat(s, head + [','], PrintFields(fields[1..]));
        ScanConcat(s, head, [',']);
        OneChar(first, ',');
        PrintFieldsScan(first, fields[1..]);
      }
    }
  }

  /** The scanner on canonical text is the structural depth, for every value. */
  lemma ScannedDepthIsStructural(v: Json)
    ensures ScanText(START, Print(v)) == Scan(0, Depth(v), false, false)
  {
    PrintScan(START, v);
  }

  // The size in UTF-8, which on canonical text is its length.

  function Utf8Bytes(c: char): nat {
    if c as int < 0x80 then 1 else if c as int < 0x800 then 2 else if c as int < 0x1_0000 then 3 else 4
  }

  function Utf8Size(text: string): nat {
    if text == [] then 0 else Utf8Size(text[..|text| - 1]) + Utf8Bytes(text[|text| - 1])
  }

  predicate Ascii(text: string) { forall i :: 0 <= i < |text| ==> text[i] as int < 0x80 }

  lemma {:induction false} AsciiSize(text: string)
    requires Ascii(text)
    ensures Utf8Size(text) == |text|
    decreases |text|
  {
    if text != [] { AsciiSize(text[..|text| - 1]); }
  }

  lemma AsciiJoins(a: string, b: string)
    requires Ascii(a) && Ascii(b)
    ensures Ascii(a + b)
  {
  }

  lemma FieldIsAscii(f: Field)
    requires Ascii(Print(f.value))
    ensures Ascii(Quoted(f.key) + [':'] + Print(f.value))
  {
    hide Print, EscapeChars;
    EscapeCharsAreAscii(f.key);
  }

  lemma HexDigitsAreAscii(n: nat)
    requires n < 16
    ensures HexDigit(n) as int < 0x80
  {
  }

  lemma UnicodeEscapeIsAscii(n: nat)
    requires n < 0x1_0000
    ensures Ascii(UnicodeEscape(n))
  {
    HexDigitsAreAscii(n / 4096);
    HexDigitsAreAscii(n / 256 % 16);
    HexDigitsAreAscii(n / 16 % 16);
    HexDigitsAreAscii(n % 16);
  }

  lemma EscapeCharIsAscii(c: char)
    ensures Ascii(EscapeChar(c))
  {
    hide UnicodeEscape;
    if c as int >= 0x1_0000 {
      var n := c as int - 0x1_0000;
      SurrogateBounds(n);
      UnicodeEscapeIsAscii(0xd800 + n / 0x400);
      UnicodeEscapeIsAscii(0xdc00 + n % 0x400);
    } else {
      UnicodeEscapeIsAscii(c as int);
    }
  }

  lemma {:induction false} EscapeCharsAreAscii(text: string)
    ensures Ascii(EscapeChars(text))
  {
    hide EscapeChar;
    if text != [] {
      EscapeCharIsAscii(text[0]);
      EscapeCharsAreAscii(text[1..]);
    }
  }

  /** Whatever a value holds, its canonical printing is ASCII. */
  lemma {:induction false} PrintIsAscii(v: Json)
    ensures Ascii(Print(v))
    decreases v, 1
  {
    match v
    case Null =>
    case Bool(_) =>
    case Number(text) => forall i | 0 <= i < |text| ensures text[i] as int < 0x80 { assert IsNumberChar(text[i]); }
    case Str(chars) => EscapeCharsAreAscii(chars);
    case Arr(items) => PrintItemsAreAscii(items);
    case Obj(fields) => PrintFieldsAreAscii(fields);
  }

  lemma {:induction false} PrintItemsAreAscii(items: seq<Json>)
    ensures Ascii(PrintItems(items))
    decreases items, 0
  {
    if items != [] {
      PrintIsAscii(items[0]);
      if |items| > 1 { PrintItemsAreAscii(items[1..]); }
    }
  }

  lemma {:induction false} PrintFieldsAreAscii(fields: seq<Field>)
    ensures Ascii(PrintFields(fields))
    decreases fields, 0
  {
    if fields != [] {
      PrintIsAscii(fields[0].value);
      FieldIsAscii(fields[0]);
      if |fields| > 1 {
        PrintFieldsAreAscii(fields[1..]);
        hide Quoted, Print, Ascii;
        var first := Quoted(fields[0].key) + [':'] + Print(fields[0].value);
        CommaIsAscii();
        AsciiJoins(first, [',']);
        AsciiJoins(first + [','], PrintFields(fields[1..]));
      }
    }
  }

  lemma CommaIsAscii()
    ensures Ascii([','])
  {
  }

  // The guard on stored text.

  datatype TextError = TooLarge | TooDeep

  method ValidateSqliteJsonText(text: string) returns (refused: bool, error: TextError)
    ensures refused <==> Utf8Size(text) > MAX_SQLITE_JSON_BYTES || ScanText(START, text).maximum > MAX_SQLITE_JSON_DEPTH
    ensures refused ==> (error == TooLarge <==> Utf8Size(text) > MAX_SQLITE_JSON_BYTES)
  {
    refused, error := false, TooLarge;
    var size, i := 0, 0;
    while i < |text|
      invariant 0 <= i <= |text| && size == Utf8Size(text[..i])
    {
      assert text[..i + 1][..i] == text[..i];
      size := size + Utf8Bytes(text[i]);
      i := i + 1;
    }
    assert text[..i] == text;
    if size > MAX_SQLITE_JSON_BYTES {
      refused := true;
      return;
    }
    var depth := JsonNestingDepth(text);
    if depth > MAX_SQLITE_JSON_DEPTH {
      refused, error := true, TooDeep;
    }
  }

  /** The guard stores a canonical record exactly when it prints in the permitted number of characters and
      nests no deeper than permitted. */
  method AcceptsRecord(v: Json) returns (accepted: bool)
    ensures accepted <==> |Print(v)| <= MAX_SQLITE_JSON_BYTES && Depth(v) <= MAX_SQLITE_JSON_DEPTH
  {
    var refused, _ := ValidateSqliteJsonText(Print(v));
    ScannedDepthIsStructural(v);
    PrintIsAscii(v);
    AsciiSize(Print(v));
    accepted := !refused;
  }
}
