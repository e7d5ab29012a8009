/** The "report this translation" link of `apps/web/src/App.tsx`: the pre-filled issue URL and the binary search for a
    shared character budget.  Text is a sequence of UTF-16 code units; the query is serialised as
    application/x-www-form-urlencoded (section 5.2 of the WHATWG URL Standard). */
module ReportUrl {
  import opened Jobs

  type CodeUnit = u: int | 0 <= u < 0x10000
  type Text = seq<CodeUnit>
  type Byte = b: int | 0 <= b < 0x100

  const GITHUB_NEW_ISSUE_URL_LENGTH_LIMIT := 8096
  const MAX_INPUT_LENGTH := 2000

  /** The code units of a literal (all of them lie in the Basic Multilingual Plane). */
  function Units(s: string): Text {
    seq(|s|, i requires 0 <= i < |s| => if s[i] as int < 0x10000 then s[i] as int else 0xFFFD)
  }

  // ------------------------------------------------------------------- the serializer

  predicate High(u: CodeUnit) { 0xD800 <= u < 0xDC00 }

  predicate Low(u: CodeUnit) { 0xDC00 <= u < 0xE000 }

  predicate Unreserved(b: Byte) {
    b == 0x2A || b == 0x2D || b == 0x2E || 0x30 <= b <= 0x39 || 0x41 <= b <= 0x5A || b == 0x5F || 0x61 <= b <= 0x7A
  }

  function HexDigit(n: int): CodeUnit
    requires 0 <= n < 16
  {
    if n < 10 then 0x30 + n else 0x41 + n - 10
  }

  function EncodeByte(b: Byte): Text {
    if Unreserved(b) then [b] else if b == 0x20 then [0x2B] else [0x25, HexDigit(b / 16), HexDigit(b % 16)]
  }

  /** UTF-8. */
  function Utf8(scalar: int): seq<Byte>
    requires 0 <= scalar < 0x110000
  {
    if scalar < 0x80 then [scalar]
    else if scalar < 0x800 then [0xC0 + scalar / 0x40, 0x80 + scalar % 0x40]
    else if scalar < 0x10000 then [0xE0 + scalar / 0x1000, 0x80 + scalar / 0x40 % 0x40, 0x80 + scalar % 0x40]
    else [0xF0 + scalar / 0x40000, 0x80 + scalar / 0x1000 % 0x40, 0x80 + scalar / 0x40 % 0x40, 0x80 + scalar % 0x40]
  }

  function EncodeBytes(bytes: seq<Byte>): Text {
    if bytes == [] then [] else EncodeByte(bytes[0]) + EncodeBytes(bytes[1..])
  }

  predicate StartsWithPair(text: Text) {
    |text| >= 2 && High(text[0]) && Low(text[1])
  }

  /** The scalar value a text starts with; a lone surrogate reads as U+FFFD. */
  function FirstScalar(text: Text): (scalar: int)
    requires text != []
    ensures 0 <= scalar < 0x110000
  {
    var first: int := text[0];
    if StartsWithPair(text) then
      (var second: int := text[1]; 0x10000 + (first - 0xD800) * 0x400 + (second - 0xDC00))
    else if High(text[0]) || Low(text[0]) then 0xFFFD
    else first
  }

  function AfterFirst(text: Text): Text
    requires text != []
  {
    if StartsWithPair(text) then text[2..] else text[1..]
  }

  function Encode(text: Text): Text
    decreases |text|, 1
  {
    if text == [] then [] else EncodeFrom(text)
  }

  function EncodeFrom(text: Text): Text
    requires text != []
    decreases |text|, 0
  {
    EncodeBytes(Utf8(FirstScalar(text))) + Encode(AfterFirst(text))
  }

  // ---------------------------------------------------------------- reading it back

  function HexValue(u: CodeUnit): int {
    if 0x30 <= u <= 0x39 then u - 0x30
    else if 0x41 <= u <= 0x46 then u - 0x37
    else if 0x61 <= u <= 0x66 then u - 0x57
    else -1
  }

  predicate IsEscape(text: Text) {
    |text| >= 3 && text[0] == 0x25 && HexValue(text[1]) >= 0 && HexValue(text[2]) >= 0
  }

  /** What the receiver's parser makes of a value (section 5.1 of the WHATWG URL Standard). */
  function PercentDecode(text: Text): seq<Byte> {
    if text == [] then []
    else if IsEscape(text) then [16 * HexValue(text[1]) + HexValue(text[2])] + PercentDecode(text[3..])
    else if text[0] == 0x2B then [0x20] + PercentDecode(text[1..])
    else [if text[0] < 0x100 then text[0] else 0x3F] + PercentDecode(text[1..])
  }

  /** UTF-8 read back, by the first byte of each sequence. */
  function Utf8Decode(bytes: seq<Byte>): seq<int> {
    if bytes == [] then []
    else
      var b0: int := bytes[0];
      if b0 < 0x80 || |bytes| < 2 then [b0] + Utf8Decode(bytes[1..])
      else
        var b1: int := bytes[1];
        if b0 < 0xE0 || |bytes| < 3 then [(b0 - 0xC0) * 0x40 + b1 - 0x80] + Utf8Decode(bytes[2..])
        else
          var b2: int := bytes[2];
          if b0 < 0xF0 || |bytes| < 4 then
            [(b0 - 0xE0) * 0x1000 + (b1 - 0x80) * 0x40 + b2 - 0x80] + Utf8Decode(bytes[3..])
          else
            var b3: int := bytes[3];
            [(b0 - 0xF0) * 0x40000 + (b1 - 0x80) * 0x1000 + (b2 - 0x80) * 0x40 + b3 - 0x80] + Utf8Decode(bytes[4..])
  }

  /** The characters of a text, a lone surrogate reading as U+FFFD. */
  function Scalars(text: Text): seq<int>
    decreases |text|
  {
    if text == [] then [] else [FirstScalar(text)] + Scalars(AfterFirst(text))
  }

  function Utf8Of(text: Text): seq<Byte>
    decreases |text|
  {
    if text == [] then [] else Utf8(FirstScalar(text)) + Utf8Of(AfterFirst(text))
  }

  lemma DecodeByte(b: Byte, rest: Text)
    ensures PercentDecode(EncodeByte(b) + rest) == [b] + PercentDecode(rest)
  {
    var text := EncodeByte(b) + rest;
    if Unreserved(b) || b == 0x20 {
      assert text[1..] == rest;
    } else {
      assert text[3..] == rest;
      assert HexValue(HexDigit(b / 16)) == b / 16 && HexValue(HexDigit(b % 16)) == b % 16;
      assert text[1] == HexDigit(b / 16) && text[2] == HexDigit(b % 16);
    }
  }

  lemma {:induction false} DecodeBytes(bytes: seq<Byte>, rest: Text)
    ensures PercentDecode(EncodeBytes(bytes) + rest) == bytes + PercentDecode(rest)
  {
    hide EncodeByte, PercentDecode;
    if bytes == [] {
      assert EncodeBytes(bytes) + rest == rest;
    } else {
      assert EncodeBytes(bytes) + rest == EncodeByte(bytes[0]) + (EncodeBytes(bytes[1..]) + rest);
      DecodeByte(bytes[0], EncodeBytes(bytes[1..]) + rest);
      DecodeBytes(bytes[1..], rest);
    }
  }

  lemma {:induction false} DecodeEncoded(text: Text)
    ensures PercentDecode(Encode(text)) == Utf8Of(text)
    decreases |text|
  {
    if text != [] {
      assert Encode(text) == EncodeFrom(text);
      DecodeBytes(Utf8(FirstScalar(text)), Encode(AfterFirst(text)));
      DecodeEncoded(AfterFirst(text));
    }
  }

  lemma Base64Digits(n: nat)
    ensures n / 0x40 * 0x40 + n % 0x40 == n
    ensures n / 0x1000 * 0x40 + n / 0x40 % 0x40 == n / 0x40
    ensures n / 0x40000 * 0x40 + n / 0x1000 % 0x40 == n / 0x1000
  {
  }

  lemma DecodeTwo(scalar: int, rest: seq<Byte>)
    requires 0x80 <= scalar < 0x800
    ensures Utf8Decode(Utf8(scalar) + rest) == [scalar] + Utf8Decode(rest)
  {
    Base64Digits(scalar);
    assert (Utf8(scalar) + rest)[2..] == rest;
  }

  lemma DecodeThree(scalar: int, rest: seq<Byte>)
    requires 0x800 <= scalar < 0x10000
    ensures Utf8Decode(Utf8(scalar) + rest) == [scalar] + Utf8Decode(rest)
  {
    Base64Digits(scalar);
    assert (Utf8(scalar) + rest)[3..] == rest;
  }

  lemma DecodeFour(scalar: int, rest: seq<Byte>)
    requires 0x10000 <= scalar < 0x110000
    ensures Utf8Decode(Utf8(scalar) + rest) == [scalar] + Utf8Decode(rest)
  {
    Base64Digits(scalar);
    assert (Utf8(scalar) + rest)[4..] == rest;
  }

  lemma DecodeScalar(scalar: int, rest: seq<Byte>)
    requires 0 <= scalar < 0x110000
    ensures Utf8Decode(Utf8(scalar) + rest) == [scalar] + Utf8Decode(rest)
  {
    if scalar < 0x80 {
      assert (Utf8(scalar) + rest)[1..] == rest;
    } else if scalar < 0x800 {
      DecodeTwo(scalar, rest);
    } else if scalar < 0x10000 {
      DecodeThree(scalar, rest);
    } else {
      DecodeFour(scalar, rest);
    }
  }

  lemma {:induction false} DecodeUtf8(text: Text)
    ensures Utf8Decode(Utf8Of(text)) == Scalars(text)
    decreases |text|
  {
    if text != [] {
      DecodeScalar(FirstScalar(text), Utf8Of(AfterFirst(text)));
      DecodeUtf8(AfterFirst(text));
    }
  }

  /** The receiver reads exactly the text's characters, lone surrogates replaced. */
  lemma EncodedTextIsReadBack(text: Text)
    ensures Utf8Decode(PercentDecode(Encode(text))) == Scalars(text)
  {
    DecodeEncoded(text);
    DecodeUtf8(text);
  }

  /** The characters that would end the value or the query: `&`, `=`, `#`. */
  predicate IsDelimiter(u: CodeUnit) {
    u == 0x26 || u == 0x3D || u == 0x23
  }

  predicate IsUpperHex(u: CodeUnit) {
    '0' as int <= u <= '9' as int || 'A' as int <= u <= 'F' as int
  }

  /** ASCII letters and digits, and `*`, `+`, `-`, `.`, `_`. */
  predicate IsPlain(u: CodeUnit) {
    || '0' as int <= u <= '9' as int || 'A' as int <= u <= 'Z' as int || 'a' as int <= u <= 'z' as int
    || u == '*' as int || u == '+' as int || u == '-' as int || u == '.' as int || u == '_' as int
  }

  /** A plain character, or a percent sign with two upper-case digits behind it. */
  predicate EncodedAt(text: Text, i: nat)
    requires i < |text|
  {
    || IsPlain(text[i])
    || (text[i] == '%' as int && i + 2 < |text| && IsUpperHex(text[i + 1]) && IsUpperHex(text[i + 2]))
  }

  predicate IsEncoded(text: Text) {
    forall i :: 0 <= i < |text| ==> EncodedAt(text, i)
  }

  lemma IsEncodedAppend(x: Text, y: Text)
    requires IsEncoded(x) && IsEncoded(y)
    ensures IsEncoded(x + y)
  {
    hide IsPlain, IsUpperHex;
    forall i | 0 <= i < |x + y| ensures EncodedAt(x + y, i) {
      if i < |x| { assert EncodedAt(x, i); } else { assert EncodedAt(y, i - |x|); }
    }
  }

  lemma EncodedHasNoDelimiter(text: Text, u: CodeUnit)
    requires IsEncoded(text) && u in text
    ensures !IsDelimiter(u)
  {
    var i :| 0 <= i < |text| && text[i] == u;
    assert EncodedAt(text, i);
  }

  lemma EncodedByte(b: Byte)
    ensures IsEncoded(EncodeByte(b))
  {
    var r := EncodeByte(b);
    assert r[0] == b || r[0] == '+' as int || r[0] == '%' as int;
    assert |r| == 3 ==> IsUpperHex(r[1]) && IsUpperHex(r[2]);
    assert Unreserved(b) ==> IsPlain(b);
    assert forall u: CodeUnit :: IsUpperHex(u) ==> IsPlain(u);
  }

  lemma {:induction false} EncodedBytesAreSafe(bytes: seq<Byte>)
    ensures IsEncoded(EncodeBytes(bytes))
  {
    if bytes != [] {
      EncodedBytesAreSafe(bytes[1..]);
      EncodedByte(bytes[0]);
      IsEncodedAppend(EncodeByte(bytes[0]), EncodeBytes(bytes[1..]));
    }
  }

  lemma {:induction false} EncodedTextIsEncoded(text: Text)
    ensures IsEncoded(Encode(text))
    decreases |text|
  {
    hide IsEncoded;
    if text == [] {
      EncodedBytesAreSafe([]);
    } else {
      assert Encode(text) == EncodeFrom(text);
      EncodedBytesAreSafe(Utf8(FirstScalar(text)));
      EncodedTextIsEncoded(AfterFirst(text));
      IsEncodedAppend(EncodeBytes(Utf8(FirstScalar(text))), Encode(AfterFirst(text)));
    }
  }

  /** An encoded text has the form's shape, so nothing in it can end its parameter early. */
  lemma EncodedTextIsSafe(text: Text)
    ensures IsEncoded(Encode(text))
    ensures forall u :: u in Encode(text) ==> !IsDelimiter(u)
  {
    EncodedTextIsEncoded(text);
    forall u | u in Encode(text) ensures !IsDelimiter(u) { EncodedHasNoDelimiter(Encode(text), u); }
  }

  lemma PlainCharacter(u: CodeUnit)
    requires IsPlain(u) || u == ' ' as int
    ensures u < 0x80 && Utf8(u) == [u]
    ensures u != '+' as int ==> EncodeBytes([u]) == [if u == ' ' as int then '+' as int else u]
  {
    assert EncodeBytes([u]) == EncodeByte(u) + EncodeBytes([]);
  }

  /** Letters, digits, `*`, `-`, `.` and `_` stand for themselves, and a space is a plus sign. */
  lemma {:induction false} PlainTextIsKept(text: Text)
    requires forall u :: u in text ==> u == ' ' as int || (IsPlain(u) && u != '+' as int)
    ensures |Encode(text)| == |text|
    ensures forall i :: 0 <= i < |text| ==> Encode(text)[i] == if text[i] == ' ' as int then '+' as int else text[i]
    decreases |text|
  {
    hide IsPlain, Utf8, EncodeBytes;
    if text != [] {
      PlainCharacter(text[0]);
      assert FirstScalar(text) == text[0] && AfterFirst(text) == text[1..];
      PlainTextIsKept(text[1..]);
      assert Encode(text) == [if text[0] == ' ' as int then '+' as int else text[0]] + Encode(text[1..]);
    }
  }

  // --------------------------------------------------------------- what encoding costs

  function ScalarCost(scalar: int): nat
    requires 0 <= scalar < 0x110000
  {
    if scalar < 0x80 then (if Unreserved(scalar) || scalar == 0x20 then 1 else 3)
    else if scalar < 0x800 then 6
    else if scalar < 0x10000 then 9
    else 12
  }

  function FirstCost(text: Text): nat
    requires text != []
  {
    ScalarCost(FirstScalar(text))
  }

  function Cost(text: Text): nat
    decreases |text|, 1
  {
    if text == [] then 0 else CostFrom(text)
  }

  function CostFrom(text: Text): nat
    requires text != []
    decreases |text|, 0
  {
    FirstCost(text) + Cost(AfterFirst(text))
  }

  lemma {:induction false} EscapedBytes(bytes: seq<Byte>)
    requires forall b :: b in bytes ==> b >= 0x80
    ensures |EncodeBytes(bytes)| == 3 * |bytes|
  {
    if bytes != [] {
      assert bytes[0] in bytes;
      assert forall b :: b in bytes[1..] ==> b in bytes;
      EscapedBytes(bytes[1..]);
    }
  }

  lemma ScalarLength(scalar: int)
    requires 0 <= scalar < 0x110000
    ensures |EncodeBytes(Utf8(scalar))| == ScalarCost(scalar)
  {
    var bytes := Utf8(scalar);
    if scalar < 0x80 {
      assert bytes[1..] == [];
    } else {
      EscapedBytes(bytes);
    }
  }

  /** The length of an encoded text is its cost. */
  lemma {:induction false} EncodedLength(text: Text)
    ensures |Encode(text)| == Cost(text)
    decreases |text|
  {
    if text != [] {
      ScalarLength(FirstScalar(text));
      EncodedLength(AfterFirst(text));
    }
  }

  lemma PairCost(text: Text)
    requires text != []
    ensures StartsWithPair(text) ==> FirstCost(text) == 12
    ensures !StartsWithPair(text) ==> 1 <= FirstCost(text) <= 9
    ensures High(text[0]) && !StartsWithPair(text) ==> FirstCost(text) == 9
  {
  }

  /** Every code unit costs at least one character and at most nine. */
  lemma {:induction false} CostBounds(text: Text)
    ensures |text| <= Cost(text) <= 9 * |text|
    decreases |text|
  {
    if text != [] {
      PairCost(text);
      CostBounds(AfterFirst(text));
    }
  }

  lemma SeamKeepsFirst(x: Text, y: Text)
    requires x != [] && (y == [] || !Low(y[0]) || !High(x[|x| - 1]))
    ensures FirstCost(x + y) == FirstCost(x) && AfterFirst(x + y) == AfterFirst(x) + y
  {
    assert |x| >= 2 ==> (x + y)[1] == x[1];
    assert StartsWithPair(x + y) == StartsWithPair(x);
  }

  /** Texts are encoded piecewise unless a surrogate pair lies across the seam. */
  lemma {:induction false} CostAppend(x: Text, y: Text)
    requires x == [] || y == [] || !Low(y[0]) || !High(x[|x| - 1])
    ensures Cost(x + y) == Cost(x) + Cost(y)
    decreases |x|
  {
    if x == [] {
      assert x + y == y;
    } else {
      SeamKeepsFirst(x, y);
      CostAppend(AfterFirst(x), y);
    }
  }

  lemma SamePairSameCost(x: Text, y: Text)
    requires x != [] && y != [] && x[0] == y[0] && StartsWithPair(x) == StartsWithPair(y)
    requires StartsWithPair(x) ==> x[1] == y[1]
    ensures FirstCost(x) == FirstCost(y)
  {
  }

  /** One more code unit never makes the encoding shorter, also when it completes a surrogate pair. */
  lemma {:induction false} LongerPrefixCostsMore(text: Text, b: nat)
    requires b < |text|
    ensures Cost(text[..b]) <= Cost(text[..b + 1])
    decreases |text|
  {
    var x, y := text[..b], text[..b + 1];
    assert Cost(y) == CostFrom(y) && (b > 0 ==> Cost(x) == CostFrom(x));
    if b == 1 && StartsWithPair(y) {
      PairCost(x);
      PairCost(y);
      assert AfterFirst(x) == [];
    } else if b > 0 {
      SamePairSameCost(x, y);
      if StartsWithPair(y) {
        assert AfterFirst(x) == text[2..][..b - 2] && AfterFirst(y) == text[2..][..b - 1];
        LongerPrefixCostsMore(text[2..], b - 2);
      } else {
        assert AfterFirst(x) == text[1..][..b - 1] && AfterFirst(y) == text[1..][..b];
        LongerPrefixCostsMore(text[1..], b - 1);
      }
    }
  }

  // ------------------------------------------------------------------------- the report

  /** The fixed texts around the two that vary, and the truncation note. */
  datatype Template = Template(urlStart: Text, bodyStart: Text, bodyMiddle: Text, bodyEnd: Text, note: Text)

  function JoinLines(lines: seq<Text>): Text {
    if lines == [] then [] else if |lines| == 1 then lines[0] else lines[0] + [0x0A] + JoinLines(lines[1..])
  }

  /** Lines with a newline behind each. */
  function Lined(lines: seq<Text>): Text {
    if lines == [] then [] else lines[0] + [0x0A] + Lined(lines[1..])
  }

  function DirectionSection(d: Direction): Text {
    if d == EsToCak then Units("- [x] Spanish -> Kaqchikel\n- [ ] Kaqchikel -> Spanish")
    else Units("- [ ] Spanish -> Kaqchikel\n- [x] Kaqchikel -> Spanish")
  }

  /** The report's lines above, between and below its two texts. */
  function LinesAbove(d: Direction): seq<Text> {
    [Units("## Direction"), [], DirectionSection(d), [], Units("## Input text"), []]
  }

  function LinesBetween(): seq<Text> {
    [[], Units("## Output produced by the translator"), []]
  }

  function LinesBelow(): seq<Text> {
    [[], Units("## Expected / correct translation"), [], [],
     Units("## Your background (optional, helps us weigh the report)"), [],
     Units("- [ ] Native Kaqchikel speaker"), Units("- [ ] Kaqchikel learner / student"),
     Units("- [ ] Linguist / ALMG-affiliated"), Units("- [ ] Other"), [], Units("## Additional context"), []]
  }

  function UrlStart(): Text {
    Units("https://github.com/MynorXico/es-kaq-translator-v2/issues/new?")
    + Units("template=translation_quality.md&labels=translation-quality&title=%5BTranslation%5D+&body=")
  }

  function BodyStart(d: Direction): Text { Lined(LinesAbove(d)) }

  function BodyMiddle(): Text { [0x0A] + Lined(LinesBetween()) }

  function BodyEnd(): Text { [0x0A] + JoinLines(LinesBelow()) }

  function Note(): Text {
    Units("\n\n") + Units("[texto truncado por límite de longitud de la URL]")
  }

  function TemplateFor(d: Direction): Template {
    Template(UrlStart(), BodyStart(d), BodyMiddle(), BodyEnd(), Note())
  }

  predicate StartsOnNewline(text: Text) {
    text != [] && text[0] == 0x0A
  }

  predicate EndsOnNewline(text: Text) {
    text != [] && text[|text| - 1] == 0x0A
  }

  /** What the proofs use of the fixed texts: newlines at every seam, and room to spare in the URL. */
  predicate Sound(w: Template) {
    && EndsOnNewline(w.bodyStart) && StartsOnNewline(w.bodyMiddle) && EndsOnNewline(w.bodyMiddle)
    && StartsOnNewline(w.bodyEnd) && StartsOnNewline(w.note)
    && |w.urlStart| + 9 * (|w.bodyStart| + |w.bodyMiddle| + |w.bodyEnd|) <= 4000
    && 24 <= |w.note| <= 60
  }

  lemma UnitsEnds(s: string)
    requires s != ""
    ensures |Units(s)| == |s|
    ensures s[0] == '\n' ==> StartsOnNewline(Units(s))
    ensures s[|s| - 1] == '\n' ==> EndsOnNewline(Units(s))
  {
  }

  lemma UrlStartLength()
    ensures |UrlStart()| == 150
  {
  }

  function Total(lines: seq<Text>): nat {
    if lines == [] then 0 else |lines[0]| + 1 + Total(lines[1..])
  }

  lemma TotalOne(a: Text, rest: seq<Text>)
    ensures Total([a] + rest) == |a| + 1 + Total(rest)
    ensures Total([a]) == |a| + 1
  {
    assert ([a] + rest)[1..] == rest;
    assert [a][1..] == [];
  }

  lemma {:induction false} TotalAppend(x: seq<Text>, y: seq<Text>)
    ensures Total(x + y) == Total(x) + Total(y)
  {
    if x == [] {
      assert x + y == y;
    } else {
      assert (x + y)[1..] == x[1..] + y;
      TotalAppend(x[1..], y);
    }
  }

  /** The length of a list of four lines. */
  lemma TotalFour(a: Text, b: Text, c: Text, d: Text)
    ensures Total([a, b, c, d]) == |a| + |b| + |c| + |d| + 4
  {
    assert [a, b, c, d] == [a] + ([b] + ([c] + [d]));
    TotalOne(a, [b] + ([c] + [d]));
    TotalOne(b, [c] + [d]);
    TotalOne(c, [d]);
    TotalOne(d, []);
  }

  lemma {:induction false} LinedShape(lines: seq<Text>)
    ensures |Lined(lines)| == Total(lines)
    ensures lines != [] ==> EndsOnNewline(Lined(lines))
    ensures lines != [] && lines[0] == [] ==> StartsOnNewline(Lined(lines))
  {
    if lines != [] {
      LinedShape(lines[1..]);
    }
  }

  lemma {:induction false} JoinIsLined(x: seq<Text>, y: seq<Text>)
    requires y != []
    ensures JoinLines(x + y) == Lined(x) + JoinLines(y)
  {
    if x == [] {
      assert x + y == y;
    } else {
      assert (x + y)[1..] == x[1..] + y;
      JoinIsLined(x[1..], y);
    }
  }

  lemma AboveLength(d: Direction)
    ensures Total(LinesAbove(d)) == 84
  {
    hide Total;
    var lines := LinesAbove(d);
    TotalFour(lines[0], lines[1], lines[2], lines[3]);
    TotalOne(lines[4], [lines[5]]);
    TotalOne(lines[5], []);
    assert lines == [lines[0], lines[1], lines[2], lines[3]] + ([lines[4]] + [lines[5]]);
    TotalAppend([lines[0], lines[1], lines[2], lines[3]], [lines[4]] + [lines[5]]);
  }

  lemma BodyStartShape(d: Direction)
    ensures EndsOnNewline(BodyStart(d)) && |BodyStart(d)| == 84
  {
    LinedShape(LinesAbove(d));
    AboveLength(d);
  }

  lemma BodyMiddleShape()
    ensures StartsOnNewline(BodyMiddle()) && EndsOnNewline(BodyMiddle()) && |BodyMiddle()| == 40
  {
    var lines := LinesBetween();
    LinedShape(lines);
    TotalOne(lines[0], [lines[1]] + [lines[2]]);
    TotalOne(lines[1], [lines[2]]);
    TotalOne(lines[2], []);
    assert lines == [lines[0]] + ([lines[1]] + [lines[2]]);
  }

  lemma BelowLength()
    ensures Total(LinesBelow()) == 229
  {
    hide Total;
    var lines := LinesBelow();
    TotalFour(lines[0], lines[1], lines[2], lines[3]);
    TotalFour(lines[4], lines[5], lines[6], lines[7]);
    TotalFour(lines[8], lines[9], lines[10], lines[11]);
    TotalOne(lines[12], []);
    assert lines == lines[..4] + (lines[4..8] + (lines[8..12] + lines[12..]));
    TotalAppend(lines[..4], lines[4..8] + (lines[8..12] + lines[12..]));
    TotalAppend(lines[4..8], lines[8..12] + lines[12..]);
    TotalAppend(lines[8..12], lines[12..]);
    assert lines[..4] == [lines[0], lines[1], lines[2], lines[3]];
    assert lines[4..8] == [lines[4], lines[5], lines[6], lines[7]];
    assert lines[8..12] == [lines[8], lines[9], lines[10], lines[11]];
    assert lines[12..] == [lines[12]];
  }

  lemma BodyEndShape()
    ensures StartsOnNewline(BodyEnd()) && |BodyEnd()| == 229
  {
    var lines := LinesBelow();
    JoinIsLined(lines[..12], [[]]);
    assert lines == lines[..12] + [[]];
    LinedShape(lines[..12]);
    TotalAppend(lines[..12], [[]]);
    BelowLength();
  }

  lemma NoteShape()
    ensures StartsOnNewline(Note()) && |Note()| == 51
  {
    UnitsEnds("\n\n");
  }

  lemma SoundParts(urlStart: Text, bodyStart: Text, bodyMiddle: Text, bodyEnd: Text, note: Text)
    requires EndsOnNewline(bodyStart) && StartsOnNewline(bodyMiddle) && EndsOnNewline(bodyMiddle)
    requires StartsOnNewline(bodyEnd) && StartsOnNewline(note)
    requires |urlStart| == 150 && |bodyStart| == 84 && |bodyMiddle| == 40 && |bodyEnd| == 229 && |note| == 51
    ensures Sound(Template(urlStart, bodyStart, bodyMiddle, bodyEnd, note))
  {
  }

  lemma TemplatesAreSound(d: Direction)
    ensures Sound(TemplateFor(d))
  {
    hide Units, UrlStart, BodyStart, BodyMiddle, BodyEnd, Note;
    UrlStartLength();
    BodyStartShape(d);
    BodyMiddleShape();
    BodyEndShape();
    NoteShape();
    SoundParts(UrlStart(), BodyStart(d), BodyMiddle(), BodyEnd(), Note());
  }

  function BuildReportBody(w: Template, sourceText: Text, translation: Text): Text {
    w.bodyStart + sourceText + w.bodyMiddle + translation + w.bodyEnd
  }

  function BuildReportUrl(w: Template, sourceText: Text, translation: Text): Text {
    w.urlStart + Encode(BuildReportBody(w, sourceText, translation))
  }

  function TruncatedWithNote(w: Template, text: Text, keepLength: nat): Text {
    if |text| <= keepLength then text else text[..keepLength] + w.note
  }

  function UrlAt(w: Template, sourceText: Text, translation: Text, budget: nat): Text {
    BuildReportUrl(w, TruncatedWithNote(w, sourceText, budget), TruncatedWithNote(w, translation, budget))
  }

  predicate Fits(url: Text) {
    |url| <= GITHUB_NEW_ISSUE_URL_LENGTH_LIMIT
  }

  function Max(a: nat, b: nat): nat { if a < b then b else a }

  function Min(a: nat, b: nat): nat { if a < b then a else b }

  // --------------------------------------------------------- the search, on any predicate

  function Search(fits: nat -> bool, low: nat, high: nat): nat
    decreases high - low
  {
    if low >= high then low
    else
      var mid := (low + high + 1) / 2;
      if fits(mid) then Search(fits, mid, high) else Search(fits, low, mid - 1)
  }

  /** The `while` loop of `buildTranslationReportUrl`. */
  method SearchBudget(fits: nat -> bool, top: nat) returns (low: nat)
    ensures low == Search(fits, 0, top)
  {
    low := 0;
    var high := top;
    while low < high
      invariant low <= high <= top
      invariant Search(fits, low, high) == Search(fits, 0, top)
      decreases high - low
    {
      var mid := (low + high + 1) / 2;
      if fits(mid) {
        low := mid;
      } else {
        high := mid - 1;
      }
    }
  }

  /** Without any monotonicity: the result fits and the next budget does not. */
  lemma {:induction false} SearchBrackets(fits: nat -> bool, low: nat, high: nat)
    requires low <= high && fits(low)
    ensures low <= Search(fits, low, high) <= high
    ensures fits(Search(fits, low, high))
    ensures Search(fits, low, high) < high ==> !fits(Search(fits, low, high) + 1)
    decreases high - low
  {
    if low < high {
      var mid := (low + high + 1) / 2;
      if fits(mid) { SearchBrackets(fits, mid, high); } else { SearchBrackets(fits, low, mid - 1); }
    }
  }

  predicate DownwardClosed(fits: nat -> bool, from: nat, to: nat) {
    forall b, c :: from <= b <= c < to && fits(c) ==> fits(b)
  }

  predicate IsLargest(fits: nat -> bool, r: nat, high: nat) {
    fits(r) && forall b :: r < b <= high ==> !fits(b)
  }

  /** How the budgets behave: downward closed below the shorter text's length and again from there on. */
  predicate TwoPlateaus(fits: nat -> bool, m: nat, high: nat) {
    m <= high && fits(0) && !fits(high) && DownwardClosed(fits, 0, m) && DownwardClosed(fits, m, high + 1)
  }

  /** The search finds the largest budget exactly when it gets past the step, or nothing past the step fits. */
  lemma LargestIffPastTheStep(fits: nat -> bool, m: nat, high: nat)
    requires TwoPlateaus(fits, m, high)
    ensures IsLargest(fits, Search(fits, 0, high), high) <==> Search(fits, 0, high) >= m || !fits(m)
  {
    SearchBrackets(fits, 0, high);
    var r := Search(fits, 0, high);
    assert r < high && !fits(r + 1);
    if r >= m || !fits(m) {
      forall b | r < b <= high ensures !fits(b) {
        if b < m { assert !fits(r + 1) && r + 1 <= b; } else if r < m { assert !fits(m) && m <= b; }
      }
    }
  }

  /** A condition that can be checked beforehand: no step upwards at the shorter length. */
  lemma LargestWithoutAStep(fits: nat -> bool, m: nat, high: nat)
    requires TwoPlateaus(fits, m, high)
    requires m == 0 || fits(m - 1) || !fits(m)
    ensures IsLargest(fits, Search(fits, 0, high), high)
  {
    SearchBrackets(fits, 0, high);
    LargestIffPastTheStep(fits, m, high);
    var r := Search(fits, 0, high);
    assert m > 0 && r < m ==> r + 1 <= m - 1 || r + 1 == m;
  }

  /** The first budget the search probes strictly above `a` and not above `b`: plain arithmetic on the bounds. */
  function FirstProbe(low: nat, high: nat, a: nat, b: nat): nat
    requires low <= a < b <= high
    decreases high - low
  {
    var mid := (low + high + 1) / 2;
    if mid <= a then FirstProbe(mid, high, a, b) else if mid > b then FirstProbe(low, mid - 1, a, b) else mid
  }

  /** Up to `top`, exactly the budgets up to `a` and those from m to `b` fit. */
  predicate FitsUpTo(fits: nat -> bool, m: nat, top: nat, a: nat, b: nat) {
    forall c :: 0 <= c <= top ==> (fits(c) <==> c <= a || m <= c <= b)
  }

  lemma ProbeInside(fits: nat -> bool, m: nat, low: nat, high: nat, mid: nat, a: nat, b: nat)
    requires low <= a < mid <= b <= high && mid == (low + high + 1) / 2 && fits(low) && (fits(mid) <==> mid >= m)
    ensures Search(fits, low, high) >= m <==> FirstProbe(low, high, a, b) >= m
  {
    if mid >= m { SearchBrackets(fits, mid, high); } else { SearchBrackets(fits, low, mid - 1); }
  }

  lemma {:induction false} SearchFollowsFirstProbe(fits: nat -> bool, m: nat, top: nat, low: nat, high: nat,
                                                   a: nat, b: nat)
    requires low <= a < m <= b <= high <= top && FitsUpTo(fits, m, top, a, b)
    ensures Search(fits, low, high) >= m <==> FirstProbe(low, high, a, b) >= m
    decreases high - low
  {
    var mid := (low + high + 1) / 2;
    assert (fits(mid) <==> mid <= a || m <= mid <= b) && fits(low);
    hide FitsUpTo;
    if mid <= a {
      SearchFollowsFirstProbe(fits, m, top, mid, high, a, b);
    } else if mid > b {
      SearchFollowsFirstProbe(fits, m, top, low, mid - 1, a, b);
    } else {
      ProbeInside(fits, m, low, high, mid, a, b);
    }
  }

  /** With a step (budgets up to `a` fit, those up to the shorter length do not, those up to `b` fit again), the search
      finds the largest budget if and only if its first probe between `a` and `b` lands at or above the step. */
  lemma LargestIffFirstProbe(fits: nat -> bool, m: nat, high: nat, a: nat, b: nat)
    requires TwoPlateaus(fits, m, high)
    requires a + 1 < m <= b < high && fits(a) && !fits(a + 1) && fits(b) && !fits(b + 1)
    ensures IsLargest(fits, Search(fits, 0, high), high) <==> FirstProbe(0, high, a, b) >= m
  {
    forall c | 0 <= c <= high ensures fits(c) <==> c <= a || m <= c <= b {
      if c < m { assert c > a ==> a + 1 <= c; } else { assert c > b ==> b + 1 <= c; }
    }
    SearchFollowsFirstProbe(fits, m, high, 0, high, a, b);
    LargestIffPastTheStep(fits, m, high);
  }

  /** The last budget of a range that fits. */
  function LastFit(fits: nat -> bool, from: nat, top: nat): (b: nat)
    requires from <= top && fits(from)
    ensures from <= b <= top && fits(b) && forall c :: b < c <= top ==> !fits(c)
    decreases top
  {
    if fits(top) then top else LastFit(fits, from, top - 1)
  }

  /** When the search finds the largest budget: when there is no step up at the shorter length, or when the first
      budget it probes between the last that fits before the step and the last that fits after it is past the step. */
  predicate SkipsTheStep(fits: nat -> bool, m: nat, high: nat)
    requires TwoPlateaus(fits, m, high)
  {
    || m == 0 || fits(m - 1) || !fits(m)
    || FirstProbe(0, high, LastFit(fits, 0, m - 1), LastFit(fits, m, high)) >= m
  }

  lemma LargestIff(fits: nat -> bool, m: nat, high: nat)
    requires TwoPlateaus(fits, m, high)
    ensures IsLargest(fits, Search(fits, 0, high), high) <==> SkipsTheStep(fits, m, high)
  {
    if m == 0 || fits(m - 1) || !fits(m) {
      LargestWithoutAStep(fits, m, high);
    } else {
      LargestIffFirstProbe(fits, m, high, LastFit(fits, 0, m - 1), LastFit(fits, m, high));
    }
  }

  // ------------------------------------------------------------ the search, on the report

  /** The loop's test: whether the URL built at a budget is within the limit. */
  function Fitting(w: Template, sourceText: Text, translation: Text): nat -> bool {
    (b: nat) => Fits(UrlAt(w, sourceText, translation, b))
  }

  /** The cost of everything but the two texts. */
  function Overhead(w: Template): nat {
    |w.urlStart| + Cost(w.bodyStart) + Cost(w.bodyMiddle) + Cost(w.bodyEnd)
  }

  function TextCost(w: Template, text: Text, budget: nat): nat {
    Cost(TruncatedWithNote(w, text, budget))
  }

  /** The same by cost; see `FittingIsByCost`. */
  predicate FitsAt(w: Template, sourceText: Text, translation: Text, budget: nat) {
    Overhead(w) + TextCost(w, sourceText, budget) + TextCost(w, translation, budget)
      <= GITHUB_NEW_ISSUE_URL_LENGTH_LIMIT
  }

  lemma UrlLength(w: Template, x: Text, y: Text)
    requires Sound(w)
    ensures |BuildReportUrl(w, x, y)| == Overhead(w) + Cost(x) + Cost(y)
  {
    EncodedLength(BuildReportBody(w, x, y));
    CostAppend(w.bodyStart, x);
    CostAppend(w.bodyStart + x, w.bodyMiddle);
    CostAppend(w.bodyStart + x + w.bodyMiddle, y);
    CostAppend(w.bodyStart + x + w.bodyMiddle + y, w.bodyEnd);
  }

  lemma FittingIsByCost(w: Template, sourceText: Text, translation: Text, budget: nat)
    requires Sound(w)
    ensures Fitting(w, sourceText, translation)(budget) <==> FitsAt(w, sourceText, translation, budget)
  {
    UrlLength(w, TruncatedWithNote(w, sourceText, budget), TruncatedWithNote(w, translation, budget));
  }

  /** At the longer text's length nothing is truncated. */
  lemma FullBudget(w: Template, sourceText: Text, translation: Text)
    ensures Fitting(w, sourceText, translation)(Max(|sourceText|, |translation|))
      <==> Fits(BuildReportUrl(w, sourceText, translation))
  {
  }

  lemma TextCostSplit(w: Template, text: Text, budget: nat)
    requires Sound(w)
    requires budget < |text|
    ensures TextCost(w, text, budget) == Cost(text[..budget]) + Cost(w.note)
  {
    CostAppend(text[..budget], w.note);
  }

  /** A text costs no more at a smaller budget as long as both budgets truncate it, or neither does. */
  lemma {:induction false} TextCostMonotone(w: Template, text: Text, b: nat, c: nat)
    requires Sound(w)
    requires b <= c && (c < |text| || |text| <= b)
    ensures TextCost(w, text, b) <= TextCost(w, text, c)
    decreases c - b
  {
    if b < c && c < |text| {
      TextCostSplit(w, text, b);
      TextCostSplit(w, text, b + 1);
      LongerPrefixCostsMore(text, b);
      TextCostMonotone(w, text, b + 1, c);
    }
  }

  /** The fixed parts are short enough that nothing but truncated-away texts always fits. */
  lemma FixedPartsAreShort(w: Template)
    requires Sound(w)
    ensures Overhead(w) + 2 * Cost(w.note) <= GITHUB_NEW_ISSUE_URL_LENGTH_LIMIT
    ensures Overhead(w) <= 4000 && 24 <= Cost(w.note) <= 540
  {
    CostBounds(w.bodyStart);
    CostBounds(w.bodyMiddle);
    CostBounds(w.bodyEnd);
    CostBounds(w.note);
  }

  lemma BudgetZeroFits(w: Template, sourceText: Text, translation: Text)
    requires Sound(w)
    ensures Fitting(w, sourceText, translation)(0)
  {
    FixedPartsAreShort(w);
    FittingIsByCost(w, sourceText, translation, 0);
    if |sourceText| > 0 { TextCostSplit(w, sourceText, 0); }
    if |translation| > 0 { TextCostSplit(w, translation, 0); }
  }

  lemma SmallerBudgetFits(w: Template, sourceText: Text, translation: Text, b: nat, c: nat)
    requires Sound(w)
    requires b <= c && Fitting(w, sourceText, translation)(c)
    requires c < |sourceText| || |sourceText| <= b
    requires c < |translation| || |translation| <= b
    ensures Fitting(w, sourceText, translation)(b)
  {
    FittingIsByCost(w, sourceText, translation, b);
    FittingIsByCost(w, sourceText, translation, c);
    TextCostMonotone(w, sourceText, b, c);
    TextCostMonotone(w, translation, b, c);
  }

  /** "Fits" is downward closed below the shorter text's length, where the note disappears, and again from there on. */
  lemma ReportHasTwoPlateaus(w: Template, sourceText: Text, translation: Text)
    requires Sound(w)
    requires !Fits(BuildReportUrl(w, sourceText, translation))
    ensures TwoPlateaus(Fitting(w, sourceText, translation), Min(|sourceText|, |translation|),
                        Max(|sourceText|, |translation|))
  {
    var m, high := Min(|sourceText|, |translation|), Max(|sourceText|, |translation|);
    var fits := Fitting(w, sourceText, translation);
    BudgetZeroFits(w, sourceText, translation);
    FullBudget(w, sourceText, translation);
    forall b, c | 0 <= b <= c < m && fits(c) ensures fits(b) { SmallerBudgetFits(w, sourceText, translation, b, c); }
    forall b, c | m <= b <= c < high + 1 && fits(c) ensures fits(b) {
      SmallerBudgetFits(w, sourceText, translation, b, c);
    }
  }

  /** The budget that the link is built with. */
  function ChosenBudget(w: Template, sourceText: Text, translation: Text): nat {
    Search(Fitting(w, sourceText, translation), 0, Max(|sourceText|, |translation|))
  }

  /** The chosen budget's URL fits and the next budget's does not, whatever the budgets below and above do. */
  lemma ChosenBudgetBrackets(w: Template, sourceText: Text, translation: Text)
    requires Sound(w)
    ensures var fits, high := Fitting(w, sourceText, translation), Max(|sourceText|, |translation|);
      var r := Search(fits, 0, high);
      r <= high && fits(r) && (r < high ==> !fits(r + 1))
  {
    hide Search, Fitting;
    BudgetZeroFits(w, sourceText, translation);
    SearchBrackets(Fitting(w, sourceText, translation), 0, Max(|sourceText|, |translation|));
  }

  /** `buildTranslationReportUrl` for any fixed texts: the link always fits, carries everything whenever that fits, and
      otherwise is cut at the budget the search ends on. */
  method BuildUrlFor(w: Template, sourceText: Text, translation: Text) returns (url: Text)
    requires Sound(w)
    ensures Fits(url)
    ensures url == if Fits(BuildReportUrl(w, sourceText, translation)) then BuildReportUrl(w, sourceText, translation)
                   else UrlAt(w, sourceText, translation, ChosenBudget(w, sourceText, translation))
  {
    url := BuildReportUrl(w, sourceText, translation);
    if |url| > GITHUB_NEW_ISSUE_URL_LENGTH_LIMIT {
      var low := SearchBudget(Fitting(w, sourceText, translation), Max(|sourceText|, |translation|));
      ChosenBudgetBrackets(w, sourceText, translation);
      url := BuildReportUrl(w, TruncatedWithNote(w, sourceText, low), TruncatedWithNote(w, translation, low));
    }
  }

  // ---------------------------------------------------------------- what the link says

  lemma {:induction false} LinedAppend(x: seq<Text>, y: seq<Text>)
    ensures Lined(x + y) == Lined(x) + Lined(y)
  {
    if x == [] {
      assert x + y == y;
    } else {
      assert (x + y)[1..] == x[1..] + y;
      LinedAppend(x[1..], y);
    }
  }

  lemma LinedOne(a: Text)
    ensures Lined([a]) == a + [0x0A]
  {
    assert [a][1..] == [];
  }

  /** The report for a direction and its two texts, line by line: the box of the direction is checked, and each text is
      under its heading. */
  function ReportLines(d: Direction, x: Text, y: Text): seq<Text> {
    [Units("## Direction"), [],
     if d == EsToCak then Units("- [x] Spanish -> Kaqchikel\n- [ ] Kaqchikel -> Spanish")
     else Units("- [ ] Spanish -> Kaqchikel\n- [x] Kaqchikel -> Spanish"), [],
     Units("## Input text"), [], x, [],
     Units("## Output produced by the translator"), [], y, [],
     Units("## Expected / correct translation"), [], [],
     Units("## Your background (optional, helps us weigh the report)"), [],
     Units("- [ ] Native Kaqchikel speaker"), Units("- [ ] Kaqchikel learner / student"),
     Units("- [ ] Linguist / ALMG-affiliated"), Units("- [ ] Other"), [],
     Units("## Additional context"), []]
  }

  lemma ReportLinesSplit(d: Direction, x: Text, y: Text)
    ensures ReportLines(d, x, y) == LinesAbove(d) + [x] + LinesBetween() + [y] + LinesBelow()
    ensures LinesBelow() != []
  {
    hide Units;
  }

  /** The text around the two texts is the report's, line by line. */
  lemma BodyIsLines(d: Direction, x: Text, y: Text)
    ensures BuildReportBody(TemplateFor(d), x, y) == JoinLines(ReportLines(d, x, y))
  {
    hide ReportLines, LinesAbove, LinesBetween, LinesBelow, Lined, JoinLines;
    ReportLinesSplit(d, x, y);
    JoinIsLined(LinesAbove(d) + [x] + LinesBetween() + [y], LinesBelow());
    LinedAppend(LinesAbove(d) + [x] + LinesBetween(), [y]);
    LinedAppend(LinesAbove(d) + [x], LinesBetween());
    LinedAppend(LinesAbove(d), [x]);
    LinedOne(x);
    LinedOne(y);
  }

  /** A text as the report shows it: whole, or a beginning of it and the note that says so. */
  predicate IsShown(text: Text, shown: Text) {
    || shown == text
    || exists k :: 0 <= k < |text|
                   && shown == text[..k] + (Units("\n\n") + Units("[texto truncado por límite de longitud de la URL]"))
  }

  /** The link opens the new-issue form of the repository with the template, its label and title, and a body that reads
      as the report's lines. */
  predicate Opens(url: Text, d: Direction, x: Text, y: Text) {
    var query := Units("https://github.com/MynorXico/es-kaq-translator-v2/issues/new?")
      + Units("template=translation_quality.md&labels=translation-quality&title=%5BTranslation%5D+&body=");
    && query <= url
    && (forall u :: u in url[|query|..] ==> !IsDelimiter(u))
    && Utf8Decode(PercentDecode(url[|query|..])) == Scalars(JoinLines(ReportLines(d, x, y)))
  }

  lemma LinkOpensReport(d: Direction, x: Text, y: Text)
    ensures Opens(BuildReportUrl(TemplateFor(d), x, y), d, x, y)
  {
    hide Units, ReportLines, JoinLines, Encode, PercentDecode, Utf8Decode, Scalars;
    hide BodyStart, BodyMiddle, BodyEnd, Note, IsDelimiter, BuildReportBody;
    var body := BuildReportBody(TemplateFor(d), x, y);
    BodyIsLines(d, x, y);
    EncodedTextIsReadBack(body);
    EncodedTextIsSafe(body);
    assert (UrlStart() + Encode(body))[|UrlStart()|..] == Encode(body);
  }

  lemma TruncatedIsShown(d: Direction, text: Text, budget: nat)
    ensures IsShown(text, TruncatedWithNote(TemplateFor(d), text, budget))
  {
    hide Units, UrlStart, BodyStart, BodyMiddle, BodyEnd;
  }

  method BuildTranslationReportUrl(d: Direction, sourceText: Text, translation: Text) returns (url: Text)
    ensures |url| <= 8096
    ensures var w := TemplateFor(d);
      url == if Fits(BuildReportUrl(w, sourceText, translation)) then BuildReportUrl(w, sourceText, translation)
             else UrlAt(w, sourceText, translation, ChosenBudget(w, sourceText, translation))
    ensures exists x, y :: IsShown(sourceText, x) && IsShown(translation, y) && Opens(url, d, x, y)
  {
    hide TemplateFor, BuildReportUrl, ChosenBudget, Sound, TruncatedWithNote, Opens;
    TemplatesAreSound(d);
    var w := TemplateFor(d);
    url := BuildUrlFor(w, sourceText, translation);
    if Fits(BuildReportUrl(w, sourceText, translation)) {
      LinkOpensReport(d, sourceText, translation);
    } else {
      var budget := ChosenBudget(w, sourceText, translation);
      TruncatedIsShown(d, sourceText, budget);
      TruncatedIsShown(d, translation, budget);
      LinkOpensReport(d, TruncatedWithNote(w, sourceText, budget), TruncatedWithNote(w, translation, budget));
    }
  }

  /** The chosen budget is the largest that fits if and only if there is no step up at the shorter text's length or the
      first probe that decides the search is past it; equivalently, if it reaches that length or that length does not
      fit. */
  lemma ChosenBudgetIsLargestIff(w: Template, sourceText: Text, translation: Text)
    requires Sound(w)
    requires !Fits(BuildReportUrl(w, sourceText, translation))
    ensures var fits := Fitting(w, sourceText, translation);
      var m, high := Min(|sourceText|, |translation|), Max(|sourceText|, |translation|);
      && TwoPlateaus(fits, m, high)
      && (IsLargest(fits, Search(fits, 0, high), high) <==> SkipsTheStep(fits, m, high))
      && (IsLargest(fits, Search(fits, 0, high), high) <==> Search(fits, 0, high) >= m || !fits(m))
  {
    hide SkipsTheStep, IsLargest, Search, TwoPlateaus, Fitting;
    var m, high := Min(|sourceText|, |translation|), Max(|sourceText|, |translation|);
    ReportHasTwoPlateaus(w, sourceText, translation);
    LargestIff(Fitting(w, sourceText, translation), m, high);
    LargestIffPastTheStep(Fitting(w, sourceText, translation), m, high);
  }

  // ------------------------------------------------- a link that could have kept more

  function Accented(n: nat): Text {
    seq(n, i => 0xE9)
  }

  lemma {:induction false} AccentedCost(n: nat)
    ensures Cost(Accented(n)) == 6 * n
  {
    if n > 0 {
      assert Accented(n)[1..] == Accented(n - 1);
      AccentedCost(n - 1);
    }
  }

  lemma AccentedTextCost(w: Template, n: nat, budget: nat)
    requires Sound(w)
    ensures TextCost(w, Accented(n), budget) == if n <= budget then 6 * n else 6 * budget + Cost(w.note)
  {
    AccentedCost(n);
    if budget < n {
      assert Accented(n)[..budget] == Accented(budget);
      AccentedCost(budget);
      TextCostSplit(w, Accented(n), budget);
    }
  }

  /** The shorter length of the example: as many accented letters as still fit with one note. */
  function ShorterLength(w: Template): nat
    requires Overhead(w) + Cost(w.note) <= GITHUB_NEW_ISSUE_URL_LENGTH_LIMIT
  {
    (GITHUB_NEW_ISSUE_URL_LENGTH_LIMIT - Overhead(w) - Cost(w.note)) / 12
  }

  lemma ExampleNumbers(overhead: nat, note: nat, m: nat)
    requires overhead <= 4000 && 24 <= note <= 540 && m == (GITHUB_NEW_ISSUE_URL_LENGTH_LIMIT - overhead - note) / 12
    ensures 3 <= m <= 2 * m - 2 <= MAX_INPUT_LENGTH
    ensures overhead + 18 * m - 12 > GITHUB_NEW_ISSUE_URL_LENGTH_LIMIT
    ensures overhead + 12 * m + note <= GITHUB_NEW_ISSUE_URL_LENGTH_LIMIT
    ensures overhead + 12 * (m - 1) + 2 * note > GITHUB_NEW_ISSUE_URL_LENGTH_LIMIT
  {
  }

  /** The example: its whole URL does not fit, keeping the shorter text whole does, one letter less does not. */
  lemma ExampleHasAStep(w: Template, m: nat)
    requires Sound(w)
    requires Overhead(w) + Cost(w.note) <= GITHUB_NEW_ISSUE_URL_LENGTH_LIMIT && m == ShorterLength(w)
    ensures 3 <= m <= 2 * m - 2 <= MAX_INPUT_LENGTH
    ensures !Fits(BuildReportUrl(w, Accented(m), Accented(2 * m - 2)))
    ensures var fits := Fitting(w, Accented(m), Accented(2 * m - 2)); fits(m) && !fits(m - 1)
  {
    hide Overhead, TextCost, Fitting, BuildReportUrl, Cost, Sound;
    FixedPartsAreShort(w);
    ExampleNumbers(Overhead(w), Cost(w.note), m);
    UrlLength(w, Accented(m), Accented(2 * m - 2));
    AccentedCost(m);
    AccentedCost(2 * m - 2);
    FittingIsByCost(w, Accented(m), Accented(2 * m - 2), m);
    FittingIsByCost(w, Accented(m), Accented(2 * m - 2), m - 1);
    AccentedTextCost(w, m, m);
    AccentedTextCost(w, 2 * m - 2, m);
    AccentedTextCost(w, m, m - 1);
    AccentedTextCost(w, 2 * m - 2, m - 1);
  }

  /** When the first probe fails, the search stays below it. */
  lemma FirstProbeFails(fits: nat -> bool, m: nat)
    requires m >= 3 && fits(0) && !fits(m - 1)
    ensures Search(fits, 0, 2 * m - 2) < m
  {
    SearchBrackets(fits, 0, m - 2);
    assert (0 + (2 * m - 2) + 1) / 2 == m - 1;
  }

  lemma StepIsMissed(w: Template, s: Text, t: Text, m: nat)
    requires 3 <= m == |s| && |t| == 2 * m - 2
    requires Fitting(w, s, t)(0) && !Fitting(w, s, t)(m - 1)
    ensures ChosenBudget(w, s, t) < m
  {
    FirstProbeFails(Fitting(w, s, t), m);
  }

  /** The search is not always the search for the largest budget: two texts of accented letters, both within the
      page's own input limit, one kept whole by a budget that fits and cut short by the one that is chosen. */
  lemma ChosenBudgetIsNotAlwaysLargest(w: Template)
    requires Sound(w)
    ensures Overhead(w) + Cost(w.note) <= GITHUB_NEW_ISSUE_URL_LENGTH_LIMIT
    ensures var m := ShorterLength(w);
      && 3 <= m <= 2 * m - 2 <= MAX_INPUT_LENGTH
      && !Fits(BuildReportUrl(w, Accented(m), Accented(2 * m - 2)))
      && Fitting(w, Accented(m), Accented(2 * m - 2))(m)
      && ChosenBudget(w, Accented(m), Accented(2 * m - 2)) < m
  {
    FixedPartsAreShort(w);
    var m := ShorterLength(w);
    ExampleHasAStep(w, m);
    BudgetZeroFits(w, Accented(m), Accented(2 * m - 2));
    StepIsMissed(w, Accented(m), Accented(2 * m - 2), m);
  }
}
