/** Unpadded base64url with canonical trailing bits (packages/transports; RFC 4648 sections 3.5 and 5). */
module Base64 {
  import opened Collections
  import opened ProRata

  type Byte = b: nat | b < 256

  /** The alphabet: A to Z, a to z, 0 to 9, minus and underscore. */
  function Letter(d: nat): char
    requires d < 64
  {
    if d < 26 then 'A' + d as char
    else if d < 52 then 'a' + (d - 26) as char
    else if d < 62 then '0' + (d - 52) as char
    else if d == 62 then '-' else '_'
  }

  /** The position of a character in the alphabet. */
  function Digit(c: char): (r: Option<nat>)
    ensures r.Some? ==> r.value < 64 && Letter(r.value) == c
  {
    if 'A' <= c <= 'Z' then Some((c - 'A') as nat)
    else if 'a' <= c <= 'z' then Some((c - 'a') as nat + 26)
    else if '0' <= c <= '9' then Some((c - '0') as nat + 52)
    else if c == '-' then Some(62)
    else if c == '_' then Some(63)
    else None
  }

  lemma LetterDigit(d: nat)
    requires d < 64
    ensures Digit(Letter(d)) == Some(d)
  {
  }

  // ----- Three octets as four sextets -----

  type Sextet = d: nat | d < 64

  function S0(x: Byte): Sextet { x / 4 }

  function S1(x: Byte, y: Byte): Sextet { x % 4 * 16 + y / 16 }

  function S2(y: Byte, z: Byte): Sextet { y % 16 * 4 + z / 64 }

  function S3(z: Byte): Sextet { z % 64 }

  function O0(a: Sextet, b: Sextet): Byte { a * 4 + b / 16 }

  function O1(b: Sextet, c: Sextet): Byte { b % 16 * 16 + c / 4 }

  function O2(c: Sextet, d: Sextet): Byte { c % 4 * 64 + d }

  lemma Quotient(p: nat, m: nat, q: nat, r: nat)
    requires p == q * m + r && r < m
    ensures p / m == q && p % m == r
  {
    DivisionBounds(p, m);
    TimesDistributes(q, 1, m);
    hide *;
    TimesOrder(q, p / m + 1, m);
    TimesOrder(p / m, q + 1, m);
    assert p == p / m * m + p % m;
  }

  /** Sextets give back the octets. */
  lemma OctetsBack(x: Byte, y: Byte, z: Byte)
    ensures O0(S0(x), S1(x, y)) == x && O1(S1(x, y), S2(y, z)) == y && O2(S2(y, z), S3(z)) == z
    ensures S1(x, 0) % 16 == 0 && S2(y, 0) % 4 == 0
  {
    Quotient(x % 4 * 16 + y / 16, 16, x % 4, y / 16);
    Quotient(y % 16 * 4 + z / 64, 4, y % 16, z / 64);
    Quotient(x % 4 * 16, 16, x % 4, 0);
    Quotient(y % 16 * 4, 4, y % 16, 0);
  }

  /** Octets give back the sextets. */
  lemma SextetsBack(a: Sextet, b: Sextet, c: Sextet, d: Sextet)
    ensures S0(O0(a, b)) == a && S1(O0(a, b), O1(b, c)) == b && S2(O1(b, c), O2(c, d)) == c && S3(O2(c, d)) == d
    ensures (b % 16 == 0 ==> O1(b, 0) == 0) && (c % 4 == 0 ==> O2(c, 0) == 0)
  {
    Quotient(a * 4 + b / 16, 4, a, b / 16);
    Quotient(b % 16 * 16 + c / 4, 16, b % 16, c / 4);
    Quotient(c % 4 * 64 + d, 64, c % 4, d);
  }

  function Two(a: nat, b: nat): nat { a * 64 + b }

  /** Three octets packed into 24 bits, and a sextet or an octet of what is packed. */
  function Pack(x: nat, y: nat, z: nat): nat { x * 0x1_0000 + y * 0x100 + z }

  function SextetAt(packed: nat, unit: nat): Sextet
    requires 0 < unit
  {
    packed / unit % 64
  }

  function OctetAt(packed: nat, unit: nat): Byte
    requires 0 < unit
  {
    packed / unit % 256
  }

  /** Packing 24 bits and taking sextets out. */
  lemma Sextets(x: Byte, y: Byte, z: Byte)
    ensures var packed := Pack(x, y, z);
      && SextetAt(packed, 0x4_0000) == S0(x) && SextetAt(packed, 0x1000) == S1(x, y)
      && SextetAt(packed, 0x40) == S2(y, z) && SextetAt(packed, 1) == S3(z)
  {
    hide *;
    SextetSum(x, y, z);
    TakeSextets(S0(x), S1(x, y), S2(y, z), S3(z));
  }

  lemma TakeSextets(a: Sextet, b: Sextet, c: Sextet, d: Sextet)
    ensures var packed := Two(Two(Two(a, b), c), d);
      && SextetAt(packed, 0x4_0000) == a && SextetAt(packed, 0x1000) == b && SextetAt(packed, 0x40) == c
      && SextetAt(packed, 1) == d
  {
    var p := Two(Two(Two(a, b), c), d);
    Quotient(p, 64, Two(Two(a, b), c), d);
    Quotient(Two(Two(a, b), c), 64, Two(a, b), c);
    Quotient(Two(a, b), 64, a, b);
    Quotient(p, 0x1000, Two(a, b), c * 64 + d);
    Quotient(p, 0x4_0000, a, (b * 64 + c) * 64 + d);
    Quotient(a, 64, 0, a);
  }

  lemma SextetSum(x: Byte, y: Byte, z: Byte)
    ensures Pack(x, y, z) == Two(Two(Two(S0(x), S1(x, y)), S2(y, z)), S3(z))
  {
    SplitSum(x, y, z, x / 4, x % 4, y / 16, y % 16, z / 64, z % 64);
  }

  lemma SplitSum(x: nat, y: nat, z: nat, xq: nat, xr: nat, yq: nat, yr: nat, zq: nat, zr: nat)
    requires x == xq * 4 + xr && y == yq * 16 + yr && z == zq * 64 + zr
    ensures Pack(x, y, z) == Two(Two(Two(xq, xr * 16 + yq), yr * 4 + zq), zr)
  {
  }

  /** Packing four sextets and taking octets out. */
  lemma Octets(a: Sextet, b: Sextet, c: Sextet, d: Sextet)
    ensures var packed := Two(Two(Two(a, b), c), d);
      && OctetAt(packed, 0x1_0000) == O0(a, b) && OctetAt(packed, 0x100) == O1(b, c) && OctetAt(packed, 1) == O2(c, d)
  {
    hide *;
    OctetSum(a, b, c, d);
    TakeOctets(O0(a, b), O1(b, c), O2(c, d));
  }

  lemma TakeOctets(x: Byte, y: Byte, z: Byte)
    ensures var packed := Pack(x, y, z);
      && OctetAt(packed, 0x1_0000) == x && OctetAt(packed, 0x100) == y && OctetAt(packed, 1) == z
  {
    var p := Pack(x, y, z);
    Quotient(p, 256, x * 256 + y, z);
    Quotient(x * 256 + y, 256, x, y);
    Quotient(p, 0x1_0000, x, y * 256 + z);
    Quotient(x, 256, 0, x);
  }

  lemma OctetSum(a: Sextet, b: Sextet, c: Sextet, d: Sextet)
    ensures Two(Two(Two(a, b), c), d) == Pack(O0(a, b), O1(b, c), O2(c, d))
  {
    JoinSum(a, b, c, d, b / 16, b % 16, c / 4, c % 4);
  }

  lemma JoinSum(a: nat, b: nat, c: nat, d: nat, bq: nat, br: nat, cq: nat, cr: nat)
    requires b == bq * 16 + br && c == cq * 4 + cr
    ensures Two(Two(Two(a, b), c), d) == Pack(a * 4 + bq, br * 16 + cq, cr * 64 + d)
  {
  }

  // ----- The encoding -----

  function Text(d: seq<Sextet>): string { seq(|d|, i requires 0 <= i < |d| => Letter(d[i])) }

  /** Bytes in groups of three, each as four sextets; a tail of one or two bytes as two or three. */
  function Packed(b: seq<Byte>): seq<Sextet>
  {
    if b == [] then []
    else if |b| == 1 then [S0(b[0]), S1(b[0], 0)]
    else if |b| == 2 then [S0(b[0]), S1(b[0], b[1]), S2(b[1], 0)]
    else [S0(b[0]), S1(b[0], b[1]), S2(b[1], b[2]), S3(b[2])] + Packed(b[3..])
  }

  /** The encoding as text. */
  function Encoded(b: seq<Byte>): string { Text(Packed(b)) }

  ghost predicate EncodedSoFar(input: seq<Byte>, index: nat, sextets: seq<Sextet>)
  {
    if index <= |input| then sextets + Packed(input[index..]) == Packed(input) else sextets == Packed(input)
  }

  function At(input: seq<Byte>, i: nat): Byte { if i < |input| then input[i] else 0 }

  /** The letters written for the group at an index. */
  function GroupSize(input: seq<Byte>, index: nat): nat
  {
    if index + 2 < |input| then 4 else if index + 1 < |input| then 3 else 2
  }

  function Group(input: seq<Byte>, index: nat): (g: seq<Sextet>)
    ensures |g| == GroupSize(input, index)
  {
    var x, y, z := At(input, index), At(input, index + 1), At(input, index + 2);
    [S0(x), S1(x, y), S2(y, z), S3(z)][..GroupSize(input, index)]
  }

  lemma EncodeStep(input: seq<Byte>, index: nat, sextets: seq<Sextet>)
    requires index < |input| && EncodedSoFar(input, index, sextets)
    ensures EncodedSoFar(input, index + 3, sextets + Group(input, index))
  {
    hide S0, S1, S2, S3;
    var rest, group := input[index..], Group(input, index);
    assert |rest| >= 3 ==> rest[3..] == input[index + 3..];
    assert |rest| == 1 ==> group == [S0(rest[0]), S1(rest[0], 0)];
    assert |rest| == 2 ==> group == [S0(rest[0]), S1(rest[0], rest[1]), S2(rest[1], 0)];
    assert |rest| > 2 ==> group == [S0(rest[0]), S1(rest[0], rest[1]), S2(rest[1], rest[2]), S3(rest[2])];
    assert Packed(rest) == if |rest| >= 3 then group + Packed(rest[3..]) else group;
  }

  lemma EncodedWhole(input: seq<Byte>, index: nat, sextets: seq<Sextet>)
    ensures EncodedSoFar(input, 0, [])
    ensures |input| <= index && EncodedSoFar(input, index, sextets) ==> sextets == Packed(input)
  {
    assert input[0..] == input;
    assert index == |input| ==> input[index..] == [];
  }

  lemma TextAppend(a: seq<Sextet>, b: seq<Sextet>)
    ensures Text(a + b) == Text(a) + Text(b)
  {
    hide Letter;
  }

  /** base64UrlEncode: packs three bytes at a time, reading zero past the end, and writes as many
      letters as the group has bytes plus one. */
  method Base64UrlEncode(input: seq<Byte>) returns (output: string)
    ensures output == Encoded(input)
  {
    output := [];
    ghost var sextets: seq<Sextet> := [];
    var index := 0;
    assert Text([]) == [];
    EncodedWhole(input, 0, []);
    hide EncodedSoFar, Packed, Text, Group;
    while index < |input|
      invariant 0 <= index && output == Text(sextets) && EncodedSoFar(input, index, sextets)
    {
      EncodeStep(input, index, sextets);
      TextAppend(sextets, Group(input, index));
      var letters := EncodeGroup(input, index);
      output, sextets := output + letters, sextets + Group(input, index);
      index := index + 3;
    }
    EncodedWhole(input, index, sextets);
  }

  method EncodeGroup(input: seq<Byte>, index: nat) returns (letters: string)
    requires index < |input|
    ensures letters == Text(Group(input, index))
  {
    var first, second, third := At(input, index), At(input, index + 1), At(input, index + 2);
    var packed := Pack(first, second, third);
    Sextets(first, second, third);
    hide S0, S1, S2, S3, Letter, SextetAt, Pack, At;
    letters := [Letter(SextetAt(packed, 0x4_0000)), Letter(SextetAt(packed, 0x1000))];
    if index + 1 < |input| { letters := letters + [Letter(SextetAt(packed, 0x40))]; }
    if index + 2 < |input| { letters := letters + [Letter(SextetAt(packed, 1))]; }
  }

  // ----- The decoding -----

  /** The bytes that groups of digits pack into, whatever their trailing bits. */
  function Unpacked(d: seq<Sextet>): seq<Byte>
    requires |d| % 4 != 1
  {
    if |d| < 2 then []
    else if |d| == 2 then [O0(d[0], d[1])]
    else if |d| == 3 then [O0(d[0], d[1]), O1(d[1], d[2])]
    else [O0(d[0], d[1]), O1(d[1], d[2]), O2(d[2], d[3])] + Unpacked(d[4..])
  }

  predicate InAlphabet(s: string) { forall i :: 0 <= i < |s| ==> Digit(s[i]).Some? }

  function Digits(s: string): (d: seq<Sextet>)
    requires InAlphabet(s)
    ensures |d| == |s|
  {
    seq(|s|, i requires 0 <= i < |s| => Digit(s[i]).value)
  }

  /** No bit set beyond the last whole byte. */
  predicate TrailingBitsZero(d: seq<Sextet>)
  {
    (|d| % 4 == 2 ==> d[|d| - 1] % 16 == 0) && (|d| % 4 == 3 ==> d[|d| - 1] % 4 == 0)
  }

  /** The texts that encode something: right alphabet, possible length, canonical trailing bits. */
  predicate Canonical(s: string) { |s| % 4 != 1 && InAlphabet(s) && TrailingBitsZero(Digits(s)) }

  lemma TextDigits(d: seq<Sextet>)
    ensures InAlphabet(Text(d)) && Digits(Text(d)) == d
  {
    forall i | 0 <= i < |d| ensures Digit(Text(d)[i]) == Some(d[i]) { LetterDigit(d[i]); }
  }

  lemma DigitsText(s: string)
    requires InAlphabet(s)
    ensures Text(Digits(s)) == s
  {
    hide Letter;
  }

  lemma {:induction false} UnpackPacked(b: seq<Byte>)
    ensures |Packed(b)| % 4 != 1 && TrailingBitsZero(Packed(b)) && Unpacked(Packed(b)) == b
    decreases |b|
  {
    hide *;
    if |b| < 3 {
      UnpackTail(b);
    } else {
      var q, rest := [S0(b[0]), S1(b[0], b[1]), S2(b[1], b[2]), S3(b[2])], Packed(b[3..]);
      UnpackPacked(b[3..]);
      Regroup(q, rest);
      OctetsBack(b[0], b[1], b[2]);
      PackedGroup(b);
      assert b == [b[0], b[1], b[2]] + b[3..];
    }
  }

  lemma PackedGroup(b: seq<Byte>)
    requires 3 <= |b|
    ensures Packed(b) == [S0(b[0]), S1(b[0], b[1]), S2(b[1], b[2]), S3(b[2])] + Packed(b[3..])
  {
  }

  lemma UnpackTail(b: seq<Byte>)
    requires |b| < 3
    ensures |Packed(b)| % 4 != 1 && TrailingBitsZero(Packed(b)) && Unpacked(Packed(b)) == b
  {
    hide S0, S1, S2, S3, O0, O1, O2;
    if |b| == 1 {
      OctetsBack(b[0], 0, 0);
      assert Packed(b) == [S0(b[0]), S1(b[0], 0)];
    } else if |b| == 2 {
      OctetsBack(b[0], b[1], 0);
      assert Packed(b) == [S0(b[0]), S1(b[0], b[1]), S2(b[1], 0)];
    }
  }

  /** A whole group in front changes nothing about the tail. */
  lemma Regroup(q: seq<Sextet>, rest: seq<Sextet>)
    requires |q| == 4 && |rest| % 4 != 1 && TrailingBitsZero(rest)
    ensures |q + rest| % 4 != 1 && TrailingBitsZero(q + rest)
    ensures Unpacked(q + rest) == [O0(q[0], q[1]), O1(q[1], q[2]), O2(q[2], q[3])] + Unpacked(rest)
  {
    hide O0, O1, O2;
    assert (q + rest)[4..] == rest;
    assert rest != [] ==> (q + rest)[|q + rest| - 1] == rest[|rest| - 1];
  }

  lemma Degroup(d: seq<Sextet>)
    requires 4 <= |d| && |d| % 4 != 1 && TrailingBitsZero(d)
    ensures |d[4..]| % 4 != 1 && TrailingBitsZero(d[4..])
    ensures Unpacked(d) == [O0(d[0], d[1]), O1(d[1], d[2]), O2(d[2], d[3])] + Unpacked(d[4..])
    ensures d == [d[0], d[1], d[2], d[3]] + d[4..]
  {
    hide O0, O1, O2;
    assert |d| > 4 ==> d[4..][|d| - 5] == d[|d| - 1];
  }

  lemma {:induction false} PackUnpacked(d: seq<Sextet>)
    requires |d| % 4 != 1 && TrailingBitsZero(d)
    ensures Packed(Unpacked(d)) == d
    decreases |d|
  {
    hide *;
    if |d| < 4 {
      PackTail(d);
    } else {
      Degroup(d);
      PackUnpacked(d[4..]);
      SextetsBack(d[0], d[1], d[2], d[3]);
      var b, rest := [O0(d[0], d[1]), O1(d[1], d[2]), O2(d[2], d[3])], Unpacked(d[4..]);
      assert (b + rest)[3..] == rest;
      PackedGroup(b + rest);
    }
  }

  lemma PackTail(d: seq<Sextet>)
    requires |d| < 4 && |d| % 4 != 1 && TrailingBitsZero(d)
    ensures Packed(Unpacked(d)) == d
  {
    hide S0, S1, S2, S3, O0, O1, O2;
    if |d| == 2 {
      SextetsBack(d[0], d[1], 0, 0);
      assert Unpacked(d) == [O0(d[0], d[1])];
    } else if |d| == 3 {
      SextetsBack(d[0], d[1], d[2], 0);
      assert Unpacked(d) == [O0(d[0], d[1]), O1(d[1], d[2])];
    }
  }

  /** An encoding is canonical and decodes to what it encodes. */
  lemma EncodedCanonical(b: seq<Byte>)
    ensures Canonical(Encoded(b)) && Unpacked(Digits(Encoded(b))) == b
  {
    UnpackPacked(b);
    TextDigits(Packed(b));
  }

  /** A canonical text is the encoding of what it decodes to. */
  lemma CanonicalEncoded(s: string)
    requires Canonical(s)
    ensures Encoded(Unpacked(Digits(s))) == s
  {
    PackUnpacked(Digits(s));
    DigitsText(s);
  }

  /** Two byte sequences never share an encoding. */
  lemma EncodingInjective(a: seq<Byte>, b: seq<Byte>)
    requires Encoded(a) == Encoded(b)
    ensures a == b
  {
    EncodedCanonical(a);
    EncodedCanonical(b);
  }

  /** base64UrlDecode. It succeeds exactly on canonical texts, and the result is the one byte sequence
      that encodes to its input. */
  method Base64UrlDecode(input: string) returns (r: Option<seq<Byte>>)
    ensures r.Some? <==> Canonical(input)
    ensures r.Some? ==> Encoded(r.value) == input && forall b :: Encoded(b) == input ==> b == r.value
    ensures r.None? ==> forall b :: Encoded(b) != input
  {
    forall b | Encoded(b) == input ensures Canonical(input) { EncodedCanonical(b); }
    if !InAlphabet(input) || |input| % 4 == 1 { return None; }
    var output := DecodeGroups(input);
    hide Encoded, Unpacked, TrailingBitsZero;
    var again := Base64UrlEncode(output);
    if Canonical(input) { CanonicalEncoded(input); }
    if again != input { return None; }
    EncodedCanonical(output);
    forall b | Encoded(b) == input ensures b == output { EncodingInjective(b, output); }
    r := Some(output);
  }

  /** The decoding loop, before the check that encoding again gives the same text. */
  method DecodeGroups(input: string) returns (output: seq<Byte>)
    requires InAlphabet(input) && |input| % 4 != 1
    ensures output == Unpacked(Digits(input))
  {
    ghost var all := Digits(input);
    output := [];
    var index := 0;
    DecodedWhole(all, 0, []);
    hide *;
    while index < |input|
      invariant 0 <= index <= |input| && DecodedSoFar(all, index, output)
    {
      var size := if index + 4 <= |input| then 4 else |input| - index;
      DecodeStep(all, index, size, output);
      var group := input[index..index + size];
      DigitsSlice(input, index, size);
      var bytes := DecodeGroup(group);
      output := output + bytes;
      index := index + size;
    }
    DecodedWhole(all, index, output);
  }

  lemma DigitsSlice(input: string, index: nat, size: nat)
    requires InAlphabet(input) && index + size <= |input|
    ensures InAlphabet(input[index..index + size]) && Digits(input[index..index + size]) == Digits(input)[index..][..size]
  {
    hide Digit;
  }

  /** What is left is whole groups and a legal tail, and decodes to the rest of the bytes. */
  ghost predicate DecodedSoFar(all: seq<Sextet>, index: nat, output: seq<Byte>)
    requires index <= |all| && |all| % 4 != 1
  {
    var rest := all[index..];
    |rest| % 4 != 1 && output + Unpacked(rest) == Unpacked(all)
  }

  lemma DecodedWhole(all: seq<Sextet>, index: nat, output: seq<Byte>)
    requires |all| % 4 != 1
    ensures DecodedSoFar(all, 0, [])
    ensures index == |all| && DecodedSoFar(all, index, output) ==> output == Unpacked(all)
  {
    hide O0, O1, O2;
    assert all[0..] == all;
    assert index == |all| ==> all[index..] == [];
  }

  lemma DecodeStep(all: seq<Sextet>, index: nat, size: nat, output: seq<Byte>)
    requires index < |all| && |all| % 4 != 1 && size == (if index + 4 <= |all| then 4 else |all| - index)
    requires DecodedSoFar(all, index, output)
    ensures 2 <= size <= 4 && DecodedSoFar(all, index + size, output + Unpacked(all[index..][..size]))
  {
    var d := all[index..];
    GroupThenRest(d, size);
    assert d[size..] == all[index + size..];
    hide Unpacked;
    assert output + (Unpacked(d[..size]) + Unpacked(d[size..])) == output + Unpacked(d[..size]) + Unpacked(d[size..]);
  }

  lemma FourLess(n: nat)
    requires n % 4 != 1 && 0 < n
    ensures 2 <= n && (4 <= n ==> (n - 4) % 4 != 1)
  {
  }

  lemma GroupThenRest(d: seq<Sextet>, size: nat)
    requires |d| % 4 != 1 && 0 < |d| && size == if 4 <= |d| then 4 else |d|
    ensures 2 <= size && |d[size..]| % 4 != 1 && Unpacked(d) == Unpacked(d[..size]) + Unpacked(d[size..])
  {
    FourLess(|d|);
    hide O0, O1, O2;
    if size == 4 {
      assert d[..4][4..] == [];
    } else {
      assert d[..size] == d && d[size..] == [];
    }
  }

  /** The bytes of one group of two to four letters. */
  method DecodeGroup(chars: string) returns (bytes: seq<Byte>)
    requires 2 <= |chars| <= 4 && InAlphabet(chars)
    ensures bytes == Unpacked(Digits(chars))
  {
    ghost var d := Digits(chars);
    ghost var y: Sextet, z: Sextet := if |d| > 2 then d[2] else 0, if |d| > 3 then d[3] else 0;
    var packed := ShiftIn(chars);
    packed := if |chars| == 2 then packed * 4096 else if |chars| == 3 then packed * 64 else packed;
    ShiftedIs(d);
    Octets(d[0], d[1], y, z);
    hide O0, O1, O2, Shifted, Two, OctetAt, Digit;
    bytes := [OctetAt(packed, 0x1_0000)];
    if 3 <= |chars| { bytes := bytes + [OctetAt(packed, 0x100)]; }
    if |chars| == 4 { bytes := bytes + [OctetAt(packed, 1)]; }
    assert |d| == 4 ==> d[4..] == [];
  }

  method ShiftIn(chars: string) returns (packed: nat)
    requires InAlphabet(chars)
    ensures packed == Shifted(Digits(chars))
  {
    ghost var d := Digits(chars);
    hide Digit;
    packed := 0;
    var i := 0;
    while i < |chars|
      invariant 0 <= i <= |chars|
      invariant packed == Shifted(d[..i])
    {
      assert d[..i + 1][..i] == d[..i];
      packed := packed * 64 + Digit(chars[i]).value;
      i := i + 1;
    }
    assert d[..i] == d;
  }

  /** Digits shifted in from the right, six bits each. */
  function Shifted(d: seq<Sextet>): nat
  {
    if d == [] then 0 else Two(Shifted(d[..|d| - 1]), d[|d| - 1])
  }

  lemma ShiftedIs(d: seq<Sextet>)
    requires 2 <= |d| <= 4
    ensures |d| == 2 ==> Shifted(d) == Two(d[0], d[1])
    ensures |d| == 3 ==> Shifted(d) == Two(Two(d[0], d[1]), d[2])
    ensures |d| == 4 ==> Shifted(d) == Two(Two(Two(d[0], d[1]), d[2]), d[3])
  {
    assert d[..1][..0] == [];
    assert Shifted(d[..1]) == d[0];
    assert d[..2][..1] == d[..1];
    assert Shifted(d[..2]) == Two(d[0], d[1]);
    if |d| == 2 { assert d[..2] == d; }
    if |d| >= 3 {
      assert d[..3][..2] == d[..2];
      assert Shifted(d[..3]) == Two(Two(d[0], d[1]), d[2]);
      if |d| == 3 { assert d[..3] == d; }
    }
  }
}
