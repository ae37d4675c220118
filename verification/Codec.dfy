/** Fixed-width records (packages/canonical-codec) and the credential bundle built from them: every
    record has one encoding, of a length its schema fixes, and decoding inverts encoding. */
module Codec {
  import opened Collections
  import opened ProRata
  import opened Base64
  import Protocol

  /** Little-endian integers of a given width in bytes, two's complement when signed, and byte arrays. */
  datatype Field = Unsigned(width: nat) | Signed(width: nat) | Bytes(length: nat)

  datatype Value = Number(n: int) | Raw(bytes: seq<Byte>)

  type Schema = seq<Field>

  function Size(f: Field): nat { if f.Bytes? then f.length else f.width }

  function TotalSize(schema: Schema): nat
  {
    if schema == [] then 0 else Size(schema[0]) + TotalSize(schema[1..])
  }

  function Pow256(n: nat): nat { if n == 0 then 1 else 256 * Pow256(n - 1) }

  predicate Fits(f: Field, v: Value)
  {
    match f
    case Unsigned(w) => v.Number? && 0 <= v.n < Pow256(w)
    case Signed(w) => v.Number? && -(Pow256(w) / 2) <= v.n < Pow256(w) - Pow256(w) / 2
    case Bytes(l) => v.Raw? && |v.bytes| == l
  }

  predicate FitsAll(schema: Schema, values: seq<Value>)
  {
    |values| == |schema| && forall i :: 0 <= i < |schema| ==> Fits(schema[i], values[i])
  }

  // ----- Integers -----

  function LittleEndian(n: nat, width: nat): (b: seq<Byte>)
    ensures |b| == width
  {
    if width == 0 then [] else [n % 256] + LittleEndian(n / 256, width - 1)
  }

  function FromLittleEndian(b: seq<Byte>): nat
  {
    if b == [] then 0 else b[0] + 256 * FromLittleEndian(b[1..])
  }

  lemma {:induction false} IntegerBack(n: nat, width: nat)
    requires n < Pow256(width)
    ensures FromLittleEndian(LittleEndian(n, width)) == n
    decreases width
  {
    if width != 0 {
      IntegerBack(n / 256, width - 1);
      var b := LittleEndian(n, width);
      assert b[1..] == LittleEndian(n / 256, width - 1);
    }
  }

  lemma {:induction false} BytesBack(b: seq<Byte>)
    ensures FromLittleEndian(b) < Pow256(|b|) && LittleEndian(FromLittleEndian(b), |b|) == b
  {
    if b != [] {
      BytesBack(b[1..]);
      Quotient(FromLittleEndian(b), 256, FromLittleEndian(b[1..]), b[0]);
      assert b == [b[0]] + b[1..];
    }
  }

  // ----- Fields and records -----

  function EncodeField(f: Field, v: Value): (b: seq<Byte>)
    requires Fits(f, v)
    ensures |b| == Size(f)
  {
    match f
    case Unsigned(w) => LittleEndian(v.n, w)
    case Signed(w) => LittleEndian(if v.n < 0 then v.n + Pow256(w) else v.n, w)
    case Bytes(_) => v.bytes
  }

  function DecodeField(f: Field, b: seq<Byte>): Value
    requires |b| == Size(f)
  {
    match f
    case Unsigned(w) => Number(FromLittleEndian(b))
    case Signed(w) =>
      var n := FromLittleEndian(b);
      Number(if n < Pow256(w) - Pow256(w) / 2 then n else n - Pow256(w))
    case Bytes(_) => Raw(b)
  }

  lemma FieldBack(f: Field, v: Value)
    requires Fits(f, v)
    ensures DecodeField(f, EncodeField(f, v)) == v
  {
    match f
    case Unsigned(w) => IntegerBack(v.n, w);
    case Signed(w) => IntegerBack(if v.n < 0 then v.n + Pow256(w) else v.n, w);
    case Bytes(_) =>
  }

  lemma FieldForth(f: Field, b: seq<Byte>)
    requires |b| == Size(f)
    ensures Fits(f, DecodeField(f, b)) && EncodeField(f, DecodeField(f, b)) == b
  {
    BytesBack(b);
  }

  function Encode(schema: Schema, values: seq<Value>): (b: seq<Byte>)
    requires FitsAll(schema, values)
    ensures |b| == TotalSize(schema)
    decreases |schema|
  {
    if schema == [] then [] else EncodeField(schema[0], values[0]) + Encode(schema[1..], values[1..])
  }

  function Decode(schema: Schema, b: seq<Byte>): (values: seq<Value>)
    requires |b| == TotalSize(schema)
    ensures |values| == |schema|
    decreases |schema|
  {
    if schema == [] then []
    else [DecodeField(schema[0], b[..Size(schema[0])])] + Decode(schema[1..], b[Size(schema[0])..])
  }

  lemma {:induction false} DecodeEncode(schema: Schema, values: seq<Value>)
    requires FitsAll(schema, values)
    ensures Decode(schema, Encode(schema, values)) == values
    decreases |schema|
  {
    if schema != [] {
      var first, rest := EncodeField(schema[0], values[0]), Encode(schema[1..], values[1..]);
      FieldBack(schema[0], values[0]);
      DecodeEncode(schema[1..], values[1..]);
      assert (first + rest)[..|first|] == first && (first + rest)[|first|..] == rest;
      hide DecodeField, EncodeField;
      assert values == [values[0]] + values[1..];
    }
  }

  lemma {:induction false} EncodeDecode(schema: Schema, b: seq<Byte>)
    requires |b| == TotalSize(schema)
    ensures FitsAll(schema, Decode(schema, b)) && Encode(schema, Decode(schema, b)) == b
    decreases |schema|
  {
    if schema != [] {
      var n := Size(schema[0]);
      FieldForth(schema[0], b[..n]);
      EncodeDecode(schema[1..], b[n..]);
      var values := Decode(schema, b);
      hide DecodeField, EncodeField, Fits;
      assert values[1..] == Decode(schema[1..], b[n..]);
      assert b == b[..n] + b[n..];
    }
  }

  /** strictDecode: exact length, then decoding, then the check that encoding again gives the same
      bytes. For fixed-width records that last check never fails: length alone decides. */
  function StrictDecode(schema: Schema, input: seq<Byte>): (r: Option<seq<Value>>)
    ensures r.Some? <==> |input| == TotalSize(schema)
    ensures r.Some? ==> FitsAll(schema, r.value) && Encode(schema, r.value) == input
  {
    if |input| != TotalSize(schema) then None
    else
      EncodeDecode(schema, input);
      var decoded := Decode(schema, input);
      if Encode(schema, decoded) != input then None else Some(decoded)
  }

  // ----- The records of a bundle -----

  const DOMAIN: Schema := [Bytes(8), Unsigned(2), Unsigned(2), Unsigned(1), Unsigned(1), Bytes(32), Bytes(32), Bytes(32)]

  /** The payload session, owner, device, vault and mint of a certificate, and its amounts, depth and
      times; then its hashes, issuer, slot, nonce and signature. */
  const CERTIFICATE_TERMS: Schema :=
    [Bytes(32), Bytes(32), Bytes(32), Bytes(32), Bytes(32), Unsigned(8), Unsigned(8), Unsigned(8), Unsigned(4)]
  const CERTIFICATE_PROOF: Schema :=
    [Signed(8), Signed(8), Signed(8), Bytes(32), Bytes(32), Bytes(32), Bytes(32), Unsigned(8), Bytes(32), Bytes(64)]

  const AUTHORIZATION_TERMS: Schema := [Bytes(32), Bytes(32), Bytes(32), Bytes(32), Unsigned(8), Unsigned(8), Unsigned(4)]
  const AUTHORIZATION_PROOF: Schema := [Signed(8), Signed(8), Bytes(32), Bytes(64)]

  const PAYMENT_PARTIES: Schema := [Bytes(32), Unsigned(4), Bytes(32), Bytes(32), Bytes(32), Bytes(32), Unsigned(8)]
  const PAYMENT_STATE: Schema :=
    [Bytes(32), Bytes(32), Unsigned(8), Unsigned(8), Bytes(32), Signed(8), Signed(8), Bytes(64)]

  const SESSION_CERTIFICATE: Schema := DOMAIN + (CERTIFICATE_TERMS + CERTIFICATE_PROOF)
  const DEVICE_AUTHORIZATION: Schema := DOMAIN + (AUTHORIZATION_TERMS + AUTHORIZATION_PROOF)
  const PAYMENT_CREDENTIAL: Schema := DOMAIN + (PAYMENT_PARTIES + PAYMENT_STATE)

  const CERTIFICATE_LENGTH: nat := 554
  const AUTHORIZATION_LENGTH: nat := 370
  const CREDENTIAL_LENGTH: nat := 474
  const HEADER_LENGTH: nat := 928
  const MAX_TRANSFER_BYTES: nat := 65536

  lemma {:induction false} TotalAppend(a: Schema, b: Schema)
    ensures TotalSize(a + b) == TotalSize(a) + TotalSize(b)
  {
    if a == [] {
      assert a + b == b;
    } else {
      assert (a + b)[1..] == a[1..] + b;
      TotalAppend(a[1..], b);
    }
  }

  /** The widths of the records are the encoded lengths the codec declares. */
  lemma Widths()
    ensures TotalSize(SESSION_CERTIFICATE) == CERTIFICATE_LENGTH && TotalSize(DEVICE_AUTHORIZATION) == AUTHORIZATION_LENGTH
    ensures TotalSize(PAYMENT_CREDENTIAL) == CREDENTIAL_LENGTH
  {
    hide TotalSize;
    DomainWidth();
    CertificateWidth();
    AuthorizationWidth();
    CredentialWidth();
    TotalAppend(CERTIFICATE_TERMS, CERTIFICATE_PROOF);
    TotalAppend(AUTHORIZATION_TERMS, AUTHORIZATION_PROOF);
    TotalAppend(PAYMENT_PARTIES, PAYMENT_STATE);
    TotalAppend(DOMAIN, CERTIFICATE_TERMS + CERTIFICATE_PROOF);
    TotalAppend(DOMAIN, AUTHORIZATION_TERMS + AUTHORIZATION_PROOF);
    TotalAppend(DOMAIN, PAYMENT_PARTIES + PAYMENT_STATE);
  }

  lemma DomainWidth()
    ensures TotalSize(DOMAIN) == 110
  {
  }

  lemma CertificateWidth()
    ensures TotalSize(CERTIFICATE_TERMS) == 188 && TotalSize(CERTIFICATE_PROOF) == 256
  {
  }

  lemma AuthorizationWidth()
    ensures TotalSize(AUTHORIZATION_TERMS) == 148 && TotalSize(AUTHORIZATION_PROOF) == 112
  {
  }

  lemma CredentialWidth()
    ensures TotalSize(PAYMENT_PARTIES) == 172 && TotalSize(PAYMENT_STATE) == 192
  {
  }

  // ----- Domains -----

  /** The name OGP, zero-padded. */
  const PROTOCOL_NAME: seq<Byte> := [0x4f, 0x47, 0x50, 0, 0, 0, 0, 0]
  const PROTOCOL_VERSION: nat := 1
  const SCHEMA_VERSION: nat := 1
  const MAINNET_BETA: nat := 2

  /** assertDomain: the header of a record of the given type, on a known network. */
  predicate DomainOk(objectType: nat, values: seq<Value>)
  {
    && 5 <= |values| && values[..4] == [Raw(PROTOCOL_NAME), Number(PROTOCOL_VERSION), Number(SCHEMA_VERSION), Number(objectType)]
    && values[4].Number? && values[4].n <= MAINNET_BETA
  }

  predicate RecordOk(schema: Schema, objectType: nat, values: seq<Value>)
  {
    FitsAll(schema, values) && DomainOk(objectType, values)
  }

  /** The decoders of the three records: strict decoding, then the assertions on the domain. They succeed
      exactly on encodings of proper records, and return the record encoded. */
  method DecodeRecord(schema: Schema, objectType: nat, input: seq<Byte>) returns (r: Option<seq<Value>>)
    ensures r.Some? ==> RecordOk(schema, objectType, r.value) && Encode(schema, r.value) == input
    ensures r.None? ==> forall v :: RecordOk(schema, objectType, v) ==> Encode(schema, v) != input
  {
    r := StrictDecode(schema, input);
    forall v | RecordOk(schema, objectType, v) && Encode(schema, v) == input ensures r == Some(v) {
      DecodeEncode(schema, v);
    }
    if r.Some? && !DomainOk(objectType, r.value) { r := None; }
  }

  // ----- Bundles -----

  datatype BundleRecord = BundleRecord(certificate: seq<Value>, authorization: seq<Value>, credentials: seq<seq<Value>>)

  /** Every record is proper, and the payments are at most the branch depth. */
  predicate BundleFits(b: BundleRecord)
  {
    && RecordOk(SESSION_CERTIFICATE, Protocol.SESSION_CERTIFICATE_OBJECT_TYPE, b.certificate)
    && RecordOk(DEVICE_AUTHORIZATION, Protocol.DEVICE_AUTHORIZATION_OBJECT_TYPE, b.authorization)
    && |b.credentials| <= Protocol.MAX_BRANCH_DEPTH && CredentialsFit(b.credentials)
  }

  predicate CredentialsFit(credentials: seq<seq<Value>>)
  {
    forall i :: 0 <= i < |credentials| ==>
      RecordOk(PAYMENT_CREDENTIAL, Protocol.PAYMENT_CREDENTIAL_OBJECT_TYPE, credentials[i])
  }

  function EncodeCredentials(credentials: seq<seq<Value>>): seq<Byte>
    requires CredentialsFit(credentials)
  {
    if credentials == [] then []
    else EncodeCredentials(credentials[..|credentials| - 1]) + Encode(PAYMENT_CREDENTIAL, credentials[|credentials| - 1])
  }

  /** encodeCredentialProofBundle: the two records, the number of payments as a u32, the payments. */
  function EncodeBundle(b: BundleRecord): seq<Byte>
    requires BundleFits(b)
  {
    Encode(SESSION_CERTIFICATE, b.certificate) + Encode(DEVICE_AUTHORIZATION, b.authorization)
      + LittleEndian(|b.credentials|, 4) + EncodeCredentials(b.credentials)
  }

  lemma {:induction false} CredentialsLength(credentials: seq<seq<Value>>)
    requires CredentialsFit(credentials)
    ensures |EncodeCredentials(credentials)| == CREDENTIAL_LENGTH * |credentials|
  {
    if credentials != [] {
      CredentialsLength(credentials[..|credentials| - 1]);
      Widths();
      hide TotalSize;
    }
  }

  /** credentialProofBundleEncodedLength. */
  lemma BundleLength(b: BundleRecord)
    requires BundleFits(b)
    ensures |EncodeBundle(b)| == HEADER_LENGTH + CREDENTIAL_LENGTH * |b.credentials| <= MAX_TRANSFER_BYTES
    ensures |EncodeBundle(b)| == 554 + 370 + 4 + 474 * |b.credentials| <= 65_536 && |b.credentials| <= 32
  {
    Widths();
    CredentialsLength(b.credentials);
    hide Encode, TotalSize, LittleEndian, EncodeCredentials;
  }

  /** decodeBundle: the count decides the expected length, and then each record is decoded strictly. It
      succeeds exactly on encodings of bundles that fit, and returns the bundle encoded. */
  method DecodeBundle(input: seq<Byte>) returns (r: Option<BundleRecord>)
    ensures r.Some? ==> BundleFits(r.value) && EncodeBundle(r.value) == input
    ensures r.None? ==> forall b :: BundleFits(b) ==> EncodeBundle(b) != input
  {
    forall b | BundleFits(b) && EncodeBundle(b) == input ensures PartsOf(input, b) {
      BundleShape(b);
      Parts(b);
    }
    hide BundleFits, EncodeBundle, TotalSize, Encode, RecordOk, LittleEndian, FromLittleEndian, EncodeCredentials, CredentialsFit;
    if |input| < HEADER_LENGTH || MAX_TRANSFER_BYTES < |input| { return None; }
    var count := CountOf(input);
    if Protocol.MAX_BRANCH_DEPTH < count { return None; }
    if |input| != HEADER_LENGTH + count * CREDENTIAL_LENGTH { return None; }
    var certificate := DecodeRecord(SESSION_CERTIFICATE, Protocol.SESSION_CERTIFICATE_OBJECT_TYPE, input[..CERTIFICATE_LENGTH]);
    if certificate.None? { return None; }
    var authorization := DecodeRecord(DEVICE_AUTHORIZATION, Protocol.DEVICE_AUTHORIZATION_OBJECT_TYPE,
                                      input[CERTIFICATE_LENGTH..CERTIFICATE_LENGTH + AUTHORIZATION_LENGTH]);
    if authorization.None? { return None; }
    var credentials := DecodeCredentials(input[HEADER_LENGTH..], count);
    if credentials.None? { return None; }
    r := Some(BundleRecord(certificate.value, authorization.value, credentials.value));
    Fitting(r.value);
    Reassembled(input, r.value);
  }

  /** Where the parts of a bundle lie in its encoding. */
  predicate PartsOf(input: seq<Byte>, b: BundleRecord)
  {
    && HEADER_LENGTH <= |input| <= MAX_TRANSFER_BYTES && CountOf(input) == |b.credentials| <= Protocol.MAX_BRANCH_DEPTH
    && |input| == HEADER_LENGTH + CREDENTIAL_LENGTH * |b.credentials|
    && RecordOk(SESSION_CERTIFICATE, Protocol.SESSION_CERTIFICATE_OBJECT_TYPE, b.certificate)
    && RecordOk(DEVICE_AUTHORIZATION, Protocol.DEVICE_AUTHORIZATION_OBJECT_TYPE, b.authorization)
    && CredentialsFit(b.credentials)
    && input[..CERTIFICATE_LENGTH] == Encode(SESSION_CERTIFICATE, b.certificate)
    && input[CERTIFICATE_LENGTH..CERTIFICATE_LENGTH + AUTHORIZATION_LENGTH] == Encode(DEVICE_AUTHORIZATION, b.authorization)
    && input[HEADER_LENGTH..] == EncodeCredentials(b.credentials)
  }

  lemma Fitting(b: BundleRecord)
    requires RecordOk(SESSION_CERTIFICATE, Protocol.SESSION_CERTIFICATE_OBJECT_TYPE, b.certificate)
    requires RecordOk(DEVICE_AUTHORIZATION, Protocol.DEVICE_AUTHORIZATION_OBJECT_TYPE, b.authorization)
    requires CredentialsFit(b.credentials) && |b.credentials| <= Protocol.MAX_BRANCH_DEPTH
    ensures BundleFits(b)
  {
    hide RecordOk, CredentialsFit;
  }

  function CountOf(input: seq<Byte>): nat
    requires HEADER_LENGTH <= |input|
  {
    FromLittleEndian(input[CERTIFICATE_LENGTH + AUTHORIZATION_LENGTH..HEADER_LENGTH])
  }

  /** The payments, one record length at a time. */
  method DecodeCredentials(input: seq<Byte>, count: nat) returns (r: Option<seq<seq<Value>>>)
    requires |input| == count * CREDENTIAL_LENGTH
    ensures r.Some? ==> |r.value| == count && CredentialsFit(r.value) && EncodeCredentials(r.value) == input
    ensures r.None? ==> forall cs :: CredentialsFit(cs) && |cs| == count ==> EncodeCredentials(cs) != input
  {
    Widths();
    hide TotalSize, Encode, RecordOk;
    var credentials: seq<seq<Value>> := [];
    var offset, index := 0, 0;
    while index < count
      invariant 0 <= index <= count && offset == index * CREDENTIAL_LENGTH && |credentials| == index
      invariant offset <= |input| && CredentialsFit(credentials) && EncodeCredentials(credentials) == input[..offset]
    {
      assert offset + CREDENTIAL_LENGTH <= |input| by { TimesMonotone(index + 1, count, CREDENTIAL_LENGTH); }
      var one := DecodeRecord(PAYMENT_CREDENTIAL, Protocol.PAYMENT_CREDENTIAL_OBJECT_TYPE, input[offset..offset + CREDENTIAL_LENGTH]);
      if one.None? {
        forall cs | CredentialsFit(cs) && |cs| == count ensures EncodeCredentials(cs) != input {
          CredentialAt(cs, index);
        }
        return None;
      }
      var more := credentials + [one.value];
      assert more[..|more| - 1] == credentials;
      assert input[..offset + CREDENTIAL_LENGTH] == input[..offset] + input[offset..offset + CREDENTIAL_LENGTH];
      credentials := more;
      offset := offset + CREDENTIAL_LENGTH;
      index := index + 1;
    }
    assert input[..offset] == input;
    r := Some(credentials);
  }

  /** The encoding of one payment among many. */
  lemma {:induction false} CredentialAt(credentials: seq<seq<Value>>, i: nat)
    requires CredentialsFit(credentials) && i < |credentials|
    ensures var from := i * CREDENTIAL_LENGTH;
      && from + CREDENTIAL_LENGTH <= |EncodeCredentials(credentials)|
      && EncodeCredentials(credentials)[from..from + CREDENTIAL_LENGTH] == Encode(PAYMENT_CREDENTIAL, credentials[i])
    decreases |credentials|
  {
    var n := |credentials| - 1;
    var before, last := EncodeCredentials(credentials[..n]), Encode(PAYMENT_CREDENTIAL, credentials[n]);
    Widths();
    CredentialsLength(credentials[..n]);
    if i < n { CredentialAt(credentials[..n], i); }
    assert EncodeCredentials(credentials) == before + last;
    hide *;
    var from := i * CREDENTIAL_LENGTH;
    assert i < n ==> (before + last)[from..from + CREDENTIAL_LENGTH] == before[from..from + CREDENTIAL_LENGTH];
    assert i == n ==> (before + last)[from..from + CREDENTIAL_LENGTH] == last;
  }

  lemma BundleShape(b: BundleRecord)
    requires BundleFits(b)
    ensures var input := EncodeBundle(b);
      && HEADER_LENGTH <= |input| <= MAX_TRANSFER_BYTES && CountOf(input) == |b.credentials|
      && |input| == HEADER_LENGTH + CREDENTIAL_LENGTH * |b.credentials|
  {
    BundleLength(b);
    Widths();
    assert Pow256(4) == 0x1_0000_0000;
    IntegerBack(|b.credentials|, 4);
    var input := EncodeBundle(b);
    assert input[CERTIFICATE_LENGTH + AUTHORIZATION_LENGTH..HEADER_LENGTH] == LittleEndian(|b.credentials|, 4);
  }

  lemma Reassembled(input: seq<Byte>, b: BundleRecord)
    requires HEADER_LENGTH <= |input| && BundleFits(b) && CountOf(input) == |b.credentials|
    requires Encode(SESSION_CERTIFICATE, b.certificate) == input[..CERTIFICATE_LENGTH]
    requires Encode(DEVICE_AUTHORIZATION, b.authorization) == input[CERTIFICATE_LENGTH..CERTIFICATE_LENGTH + AUTHORIZATION_LENGTH]
    requires EncodeCredentials(b.credentials) == input[HEADER_LENGTH..]
    ensures EncodeBundle(b) == input
  {
    var c, n := CERTIFICATE_LENGTH, CERTIFICATE_LENGTH + AUTHORIZATION_LENGTH;
    BytesBack(input[n..HEADER_LENGTH]);
    assert EncodeBundle(b) == Encode(SESSION_CERTIFICATE, b.certificate) + Encode(DEVICE_AUTHORIZATION, b.authorization)
                              + LittleEndian(|b.credentials|, 4) + EncodeCredentials(b.credentials);
    assert LittleEndian(|b.credentials|, 4) == input[n..HEADER_LENGTH];
    hide *;
    FourParts(input, c, n, HEADER_LENGTH);
  }

  lemma FourParts(input: seq<Byte>, i: nat, j: nat, k: nat)
    requires i <= j <= k <= |input|
    ensures input[..i] + input[i..j] + input[j..k] + input[k..] == input
  {
  }

  lemma SplitEqual(p: seq<Byte>, x: seq<Byte>, q: seq<Byte>, y: seq<Byte>)
    requires |p| == |q| && p + x == q + y
    ensures p == q && x == y
  {
    assert (p + x)[..|p|] == p && (q + y)[..|q|] == q && (p + x)[|p|..] == x && (q + y)[|q|..] == y;
  }

  lemma {:induction false} CredentialsInjective(a: seq<seq<Value>>, b: seq<seq<Value>>)
    requires CredentialsFit(a) && CredentialsFit(b) && |a| == |b| && EncodeCredentials(a) == EncodeCredentials(b)
    ensures a == b
    decreases |a|
  {
    if a != [] {
      var n := |a| - 1;
      var x, y := Encode(PAYMENT_CREDENTIAL, a[n]), Encode(PAYMENT_CREDENTIAL, b[n]);
      var p, q := EncodeCredentials(a[..n]), EncodeCredentials(b[..n]);
      assert CredentialsFit(a[..n]) && CredentialsFit(b[..n]);
      assert EncodeCredentials(a) == p + x && EncodeCredentials(b) == q + y;
      assert FitsAll(PAYMENT_CREDENTIAL, a[n]) && FitsAll(PAYMENT_CREDENTIAL, b[n]);
      hide *;
      CredentialsLength(a[..n]);
      CredentialsLength(b[..n]);
      SplitEqual(p, x, q, y);
      CredentialsInjective(a[..n], b[..n]);
      DecodeEncode(PAYMENT_CREDENTIAL, a[n]);
      DecodeEncode(PAYMENT_CREDENTIAL, b[n]);
      assert a == a[..n] + [a[n]] && b == b[..n] + [b[n]];
    }
  }

  /** Two bundles never share an encoding, so decoding what was encoded gives it back. */
  lemma BundlesInjective(a: BundleRecord, b: BundleRecord)
    requires BundleFits(a) && BundleFits(b) && EncodeBundle(a) == EncodeBundle(b)
    ensures a == b
  {
    BundleShape(a);
    BundleShape(b);
    Widths();
    var input := EncodeBundle(a);
    var c, n := CERTIFICATE_LENGTH, CERTIFICATE_LENGTH + AUTHORIZATION_LENGTH;
    hide TotalSize;
    Parts(a);
    Parts(b);
    hide EncodeBundle, Encode, EncodeCredentials;
    DecodeEncode(SESSION_CERTIFICATE, a.certificate);
    DecodeEncode(SESSION_CERTIFICATE, b.certificate);
    DecodeEncode(DEVICE_AUTHORIZATION, a.authorization);
    DecodeEncode(DEVICE_AUTHORIZATION, b.authorization);
    CredentialsInjective(a.credentials, b.credentials);
  }

  lemma Parts(b: BundleRecord)
    requires BundleFits(b)
    ensures var input := EncodeBundle(b);
      && HEADER_LENGTH <= |input|
      && input[..CERTIFICATE_LENGTH] == Encode(SESSION_CERTIFICATE, b.certificate)
      && input[CERTIFICATE_LENGTH..CERTIFICATE_LENGTH + AUTHORIZATION_LENGTH] == Encode(DEVICE_AUTHORIZATION, b.authorization)
      && input[HEADER_LENGTH..] == EncodeCredentials(b.credentials)
  {
    Widths();
    hide Encode, TotalSize, LittleEndian, EncodeCredentials, FitsAll;
  }
}
