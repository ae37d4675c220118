/** The text of a QR frame (packages/transports): six fields between dots, each written in one way
    only, so that a frame has exactly one text and a text at most one frame. */
module Frames {
  import opened Collections
  import opened ProRata
  import opened Base64

  const QR_PREFIX: string := "OGPQR1"
  const MAX_FRAME_COUNT: nat := 128
  const HASH_LENGTH: nat := 32

  datatype Kind = Challenge | CredentialBundle | Receipt

  datatype Frame = Frame(kind: Kind, hash: seq<Byte>, index: nat, count: nat, chunk: seq<Byte>)

  // ----- Fields between dots -----

  predicate Dotless(s: string) { forall i :: 0 <= i < |s| ==> s[i] != '.' }

  function JoinDots(fields: seq<string>): string
    requires fields != []
  {
    if |fields| == 1 then fields[0] else fields[0] + "." + JoinDots(fields[1..])
  }

  function SplitDots(s: string): (fields: seq<string>)
    ensures fields != []
  {
    if s == "" then [""]
    else
      var rest := SplitDots(s[1..]);
      if s[0] == '.' then [""] + rest else [[s[0]] + rest[0]] + rest[1..]
  }

  lemma {:induction false} JoinedBack(s: string)
    ensures JoinDots(SplitDots(s)) == s
  {
    if s != "" {
      JoinedBack(s[1..]);
      var rest := SplitDots(s[1..]);
      assert ([""] + rest)[1..] == rest;
      assert ([[s[0]] + rest[0]] + rest[1..])[1..] == rest[1..];
      assert s == [s[0]] + s[1..];
    }
  }

  lemma {:induction false} SplitBack(fields: seq<string>)
    requires fields != [] && forall i :: 0 <= i < |fields| ==> Dotless(fields[i])
    ensures SplitDots(JoinDots(fields)) == fields
    decreases |fields|, |fields[0]|
  {
    var s := JoinDots(fields);
    if fields[0] == "" {
      if |fields| > 1 {
        SplitBack(fields[1..]);
        assert s == "." + JoinDots(fields[1..]) && s[1..] == JoinDots(fields[1..]);
        assert fields == [""] + fields[1..];
      } else {
        assert fields == [""];
      }
    } else {
      var less := [fields[0][1..]] + fields[1..];
      assert less[1..] == fields[1..];
      assert s[0] == fields[0][0] && s[1..] == JoinDots(less);
      SplitBack(less);
      assert fields[0] == [fields[0][0]] + less[0];
      assert fields == [fields[0]] + less[1..];
    }
  }

  // ----- Decimal numerals -----

  function DigitChar(d: nat): char
    requires d < 10
  {
    '0' + d as char
  }

  function Decimal(n: nat): (s: string)
    ensures s != "" && Dotless(s)
  {
    (if n < 10 then "" else Decimal(n / 10)) + [DigitChar(n % 10)]
  }

  predicate AllDigits(s: string) { forall i :: 0 <= i < |s| ==> '0' <= s[i] <= '9' }

  /** No sign, no leading zero. */
  predicate IsDecimal(s: string) { s != "" && AllDigits(s) && (s[0] == '0' ==> |s| == 1) }

  function DecimalValue(s: string): nat
    requires AllDigits(s)
  {
    if s == "" then 0
    else 10 * DecimalValue(s[..|s| - 1]) + (s[|s| - 1] - '0') as nat
  }

  lemma {:induction false} DecimalBack(n: nat)
    ensures IsDecimal(Decimal(n)) && DecimalValue(Decimal(n)) == n && (Decimal(n)[0] == '0' <==> n == 0)
  {
    var s := Decimal(n);
    if n >= 10 {
      DecimalBack(n / 10);
      assert s[..|s| - 1] == Decimal(n / 10);
    } else {
      assert s == [DigitChar(n)] && s[..0] == "";
    }
  }

  lemma {:induction false} NumeralBack(s: string)
    requires IsDecimal(s)
    ensures Decimal(DecimalValue(s)) == s && (0 < DecimalValue(s) <==> s[0] != '0')
    decreases |s|
  {
    var before, d := s[..|s| - 1], (s[|s| - 1] - '0') as nat;
    assert s == before + [DigitChar(d)];
    if |s| == 1 {
      assert before == "";
    } else {
      NumeralBack(before);
      Quotient(DecimalValue(s), 10, DecimalValue(before), d);
    }
  }

  // ----- Hexadecimal -----

  function HexDigit(d: nat): char
    requires d < 16
  {
    if d < 10 then '0' + d as char else 'a' + (d - 10) as char
  }

  predicate IsHexDigit(c: char) { '0' <= c <= '9' || 'a' <= c <= 'f' }

  function HexValue(c: char): (d: nat)
    requires IsHexDigit(c)
    ensures d < 16 && HexDigit(d) == c
  {
    if c <= '9' then (c - '0') as nat else (c - 'a') as nat + 10
  }

  /** Two lower-case digits for each byte. */
  function Hex(bytes: seq<Byte>): (s: string)
    ensures |s| == 2 * |bytes| && Dotless(s)
  {
    if bytes == [] then "" else [HexDigit(bytes[0] / 16), HexDigit(bytes[0] % 16)] + Hex(bytes[1..])
  }

  predicate IsHex(s: string) { s != "" && |s| % 2 == 0 && forall i :: 0 <= i < |s| ==> IsHexDigit(s[i]) }

  function HexBytes(s: string): (bytes: seq<Byte>)
    requires |s| % 2 == 0 && forall i :: 0 <= i < |s| ==> IsHexDigit(s[i])
    ensures 2 * |bytes| == |s|
  {
    if s == "" then [] else [HexValue(s[0]) * 16 + HexValue(s[1])] + HexBytes(s[2..])
  }

  lemma {:induction false} HexBack(bytes: seq<Byte>)
    ensures forall i :: 0 <= i < |Hex(bytes)| ==> IsHexDigit(Hex(bytes)[i])
    ensures HexBytes(Hex(bytes)) == bytes
  {
    if bytes != [] {
      HexBack(bytes[1..]);
      var s := Hex(bytes);
      assert s[2..] == Hex(bytes[1..]);
      HexDigitBack(bytes[0] / 16);
      HexDigitBack(bytes[0] % 16);
      assert bytes == [bytes[0]] + bytes[1..];
    }
  }

  lemma HexDigitBack(d: nat)
    requires d < 16
    ensures IsHexDigit(HexDigit(d)) && HexValue(HexDigit(d)) == d
  {
  }

  lemma {:induction false} BytesBack(s: string)
    requires |s| % 2 == 0 && forall i :: 0 <= i < |s| ==> IsHexDigit(s[i])
    ensures Hex(HexBytes(s)) == s
    decreases |s|
  {
    if s != "" {
      BytesBack(s[2..]);
      Quotient(HexValue(s[0]) * 16 + HexValue(s[1]), 16, HexValue(s[0]), HexValue(s[1]));
      assert s == [s[0], s[1]] + s[2..];
    }
  }

  // ----- Frames -----

  function KindText(kind: Kind): string { if kind.Challenge? then "1" else if kind.CredentialBundle? then "2" else "3" }

  function KindOf(s: string): Option<Kind>
  {
    if s == "1" then Some(Challenge) else if s == "2" then Some(CredentialBundle) else if s == "3" then Some(Receipt) else None
  }

  predicate Legal(f: Frame) { |f.hash| == HASH_LENGTH && f.index < f.count <= MAX_FRAME_COUNT }

  function Fields(f: Frame): seq<string>
  {
    [QR_PREFIX, KindText(f.kind), Hex(f.hash), Decimal(f.index), Decimal(f.count), Encoded(f.chunk)]
  }

  function Written(f: Frame): string { JoinDots(Fields(f)) }

  /** The checks of parseFrame on the six fields. */
  predicate FieldsOk(fields: seq<string>)
  {
    && |fields| == 6 && fields[0] == QR_PREFIX && KindOf(fields[1]).Some?
    && IsDecimal(fields[3]) && IsDecimal(fields[4]) && fields[4][0] != '0'
    && DecimalValue(fields[3]) < DecimalValue(fields[4]) <= MAX_FRAME_COUNT
    && IsHex(fields[2]) && |HexBytes(fields[2])| == HASH_LENGTH
    && Canonical(fields[5])
  }

  function Read(fields: seq<string>): Frame
    requires FieldsOk(fields)
  {
    Frame(KindOf(fields[1]).value, HexBytes(fields[2]), DecimalValue(fields[3]), DecimalValue(fields[4]),
          Unpacked(Digits(fields[5])))
  }

  lemma FieldsRead(fields: seq<string>)
    requires FieldsOk(fields)
    ensures Legal(Read(fields)) && Fields(Read(fields)) == fields
  {
    var k, h, i, n, c := fields[1], fields[2], fields[3], fields[4], fields[5];
    assert fields == [QR_PREFIX, k, h, i, n, c];
    KindBack(k);
    NumeralBack(i);
    NumeralBack(n);
    BytesBack(h);
    CanonicalEncoded(c);
    hide KindOf, Hex, HexBytes, Decimal, DecimalValue, Encoded, Canonical, Unpacked, Digits, IsHexDigit, IsDecimal, IsHex;
    FieldsOf(KindOf(k).value, HexBytes(h), DecimalValue(i), DecimalValue(n), Unpacked(Digits(c)), k, h, i, n, c);
  }

  lemma FieldsOf(kind: Kind, hash: seq<Byte>, index: nat, count: nat, chunk: seq<Byte>,
                 k: string, h: string, i: string, n: string, c: string)
    requires KindText(kind) == k && Hex(hash) == h && Decimal(index) == i && Decimal(count) == n && Encoded(chunk) == c
    ensures Fields(Frame(kind, hash, index, count, chunk)) == [QR_PREFIX, k, h, i, n, c]
  {
    hide KindText, Hex, Decimal, Encoded;
  }

  lemma KindBack(s: string)
    ensures KindOf(s).Some? ==> KindText(KindOf(s).value) == s
  {
  }

  lemma FieldsWritten(f: Frame)
    requires Legal(f)
    ensures FieldsOk(Fields(f)) && Read(Fields(f)) == f && SplitDots(Written(f)) == Fields(f)
  {
    DecimalBack(f.index);
    DecimalBack(f.count);
    HexBack(f.hash);
    EncodedCanonical(f.chunk);
    EncodedDotless(f.chunk);
    hide Hex, HexBytes, Decimal, DecimalValue, Encoded, Canonical, Unpacked, Digits, IsHexDigit, JoinDots, SplitDots;
    SplitBack(Fields(f));
  }

  lemma EncodedDotless(b: seq<Byte>)
    ensures Dotless(Encoded(b))
  {
    hide Packed;
  }

  /** parseFrame: it accepts exactly the texts of legal frames, and reads the frame written. */
  method ParseFrame(text: string) returns (r: Option<Frame>)
    ensures r.Some? ==> Legal(r.value) && Written(r.value) == text
    ensures r.None? ==> forall f :: Legal(f) ==> Written(f) != text
  {
    var fields := SplitDots(text);
    JoinedBack(text);
    forall f | Legal(f) && Written(f) == text ensures FieldsOk(fields) { FieldsWritten(f); }
    hide Hex, HexBytes, Decimal, DecimalValue, Encoded, Unpacked, JoinDots, SplitDots, IsHexDigit, Written, Legal,
         InAlphabet, TrailingBitsZero;
    if |fields| != 6 || fields[0] != QR_PREFIX { return None; }
    var kind := KindOf(fields[1]);
    if kind.None? || !IsDecimal(fields[3]) || !IsDecimal(fields[4]) || fields[4][0] == '0' { return None; }
    var index, count := DecimalValue(fields[3]), DecimalValue(fields[4]);
    if MAX_FRAME_COUNT < count || count <= index { return None; }
    if !IsHex(fields[2]) { return None; }
    var hash := HexBytes(fields[2]);
    if |hash| != HASH_LENGTH { return None; }
    var chunk := Base64UrlDecode(fields[5]);
    if chunk.None? { return None; }
    CanonicalEncoded(fields[5]);
    EncodingInjective(chunk.value, Unpacked(Digits(fields[5])));
    FieldsRead(fields);
    WrittenIs(Read(fields), fields);
    r := Some(Frame(kind.value, hash, index, count, chunk.value));
  }

  lemma WrittenIs(f: Frame, fields: seq<string>)
    requires Fields(f) == fields
    ensures fields != [] && Written(f) == JoinDots(fields)
  {
  }

  /** Two legal frames never share a text. */
  lemma WrittenInjective(f: Frame, g: Frame)
    requires Legal(f) && Legal(g) && Written(f) == Written(g)
    ensures f == g
  {
    FieldsWritten(f);
    FieldsWritten(g);
  }
}
