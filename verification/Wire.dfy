/** The bytes and characters on the wire, position by position: where each field of a record lies, what
    the program's signature check therefore covers, and which letters stand for which bits. */
module Wire {
  import opened Collections
  import opened ProRata
  import opened Base64
  import opened Codec
  import opened Frames
  import opened Messages
  import MerchantStorage

  // ----- Fields within a record -----

  /** Where field i of a record begins. */
  function Offset(schema: Schema, i: nat): nat
    requires i <= |schema|
  {
    TotalSize(schema[..i])
  }

  lemma OffsetRest(schema: Schema, i: nat)
    requires 0 < i <= |schema|
    ensures Offset(schema, i) == Size(schema[0]) + Offset(schema[1..], i - 1)
  {
    assert schema[..i][0] == schema[0] && schema[..i][1..] == schema[1..][..i - 1];
  }

  lemma OffsetNext(schema: Schema, i: nat)
    requires i < |schema|
    ensures Offset(schema, i + 1) == Offset(schema, i) + Size(schema[i])
  {
    assert schema[..i + 1] == schema[..i] + [schema[i]];
    TotalAppend(schema[..i], [schema[i]]);
    assert TotalSize([schema[i]]) == Size(schema[i]);
  }

  /** Every field lies whole at its offset, wherever the record is read. */
  lemma {:induction false} FieldAt(schema: Schema, values: seq<Value>, i: nat)
    requires FitsAll(schema, values) && i < |schema|
    ensures Offset(schema, i) + Size(schema[i]) <= |Encode(schema, values)|
    ensures Encode(schema, values)[Offset(schema, i)..Offset(schema, i) + Size(schema[i])] == EncodeField(schema[i], values[i])
    decreases |schema|
  {
    hide *;
    EncodeFirst(schema, values);
    var first, rest := EncodeField(schema[0], values[0]), Encode(schema[1..], values[1..]);
    if i == 0 {
      OffsetStart(schema);
      assert (first + rest)[..|first|] == first;
    } else {
      FieldAt(schema[1..], values[1..], i - 1);
      OffsetRest(schema, i);
      SliceAfter(first, rest, Offset(schema[1..], i - 1), Size(schema[i]));
    }
  }

  lemma OffsetStart(schema: Schema)
    ensures Offset(schema, 0) == 0
  {
    assert schema[..0] == [];
  }

  lemma EncodeFirst(schema: Schema, values: seq<Value>)
    requires FitsAll(schema, values) && schema != []
    ensures |values| == |schema| && Fits(schema[0], values[0]) && FitsAll(schema[1..], values[1..])
    ensures Encode(schema, values) == EncodeField(schema[0], values[0]) + Encode(schema[1..], values[1..])
  {
    hide EncodeField, Fits;
  }

  lemma SliceAfter(first: seq<Byte>, rest: seq<Byte>, from: nat, length: nat)
    requires from + length <= |rest|
    ensures (first + rest)[|first| + from..|first| + from + length] == rest[from..from + length]
  {
  }

  /** A byte of an integer is a digit of it in base 256, the least first. */
  lemma {:induction false} LittleEndianAt(n: nat, width: nat, i: nat)
    requires i < width
    ensures 0 < Pow256(i) && LittleEndian(n, width)[i] == n / Pow256(i) % 256
    decreases width
  {
    if i == 0 {
      assert Pow256(0) == 1;
    } else {
      LittleEndianAt(n / 256, width - 1, i - 1);
      DividedTwice(n, Pow256(i - 1));
    }
  }

  lemma DividedTwice(n: nat, m: nat)
    requires 0 < m
    ensures n / 256 / m == n / (256 * m)
  {
    var q, r := n / 256, n % 256;
    var p, s := q / m, q % m;
    assert q == p * m + s by { DivisionBounds(q, m); }
    Quotient(n, 256 * m, p, s * 256 + r);
  }

  // ----- The records -----

  lemma HeaderOffsets(schema: Schema)
    requires DOMAIN <= schema
    ensures Offset(schema, 0) == 0 && Offset(schema, 1) == 8 && Offset(schema, 2) == 10 && Offset(schema, 3) == 12
    ensures Offset(schema, 4) == 13 && Offset(schema, 5) == 14 && Offset(schema, 6) == 46 && Offset(schema, 7) == 78
    ensures Offset(schema, 8) == 110
  {
    assert schema[..0] == [];
    assert forall i :: 0 <= i < 8 ==> schema[i] == DOMAIN[i];
    forall i | 0 <= i < 8 ensures Offset(schema, i + 1) == Offset(schema, i) + Size(DOMAIN[i]) { OffsetNext(schema, i); }
    hide TotalSize, Offset;
    Eight(schema);
  }

  lemma Eight(schema: Schema)
    requires DOMAIN <= schema && Offset(schema, 0) == 0
    requires forall i :: 0 <= i < 8 ==> Offset(schema, i + 1) == Offset(schema, i) + Size(DOMAIN[i])
    ensures Offset(schema, 1) == 8 && Offset(schema, 2) == 10 && Offset(schema, 3) == 12 && Offset(schema, 4) == 13
    ensures Offset(schema, 5) == 14 && Offset(schema, 6) == 46 && Offset(schema, 7) == 78 && Offset(schema, 8) == 110
  {
    hide Offset;
    assert Offset(schema, 0 + 1) == 8;
    assert Offset(schema, 1 + 1) == 10;
    assert Offset(schema, 2 + 1) == 12;
    assert Offset(schema, 3 + 1) == 13;
    assert Offset(schema, 4 + 1) == 14;
    assert Offset(schema, 5 + 1) == 46;
    assert Offset(schema, 6 + 1) == 78;
    assert Offset(schema, 7 + 1) == 110;
  }

  /** A value of a field, written at a position. */
  ghost predicate Lies(b: seq<Byte>, from: nat, f: Field, v: Value)
  {
    Fits(f, v) && from + Size(f) <= |b| && b[from..from + Size(f)] == EncodeField(f, v)
  }

  lemma LiesAt(schema: Schema, values: seq<Value>, i: nat, from: nat, f: Field)
    requires FitsAll(schema, values) && i < |schema| && schema[i] == f && Offset(schema, i) == from
    ensures Lies(Encode(schema, values), from, f, values[i])
  {
    FieldAt(schema, values, i);
    hide Encode, EncodeField, Offset;
  }

  lemma BytesLie(b: seq<Byte>, from: nat, length: nat, v: Value)
    requires Lies(b, from, Bytes(length), v)
    ensures v.Raw? && from + length <= |b| && b[from..from + length] == v.bytes
  {
  }

  lemma ByteLies(b: seq<Byte>, from: nat, v: Value)
    requires Lies(b, from, Unsigned(1), v)
    ensures v.Number? && 0 <= v.n < 256 && from < |b| && b[from] == v.n
  {
    assert Pow256(1) == 256;
    assert LittleEndian(v.n, 1) == [v.n % 256] + LittleEndian(v.n / 256, 0);
    assert b[from] == b[from..from + 1][0];
  }

  lemma WordLies(b: seq<Byte>, from: nat, v: Value)
    requires Lies(b, from, Unsigned(2), v) && v == Number(1)
    ensures from + 2 <= |b| && b[from..from + 2] == [1, 0]
  {
    assert LittleEndian(1, 2) == [1] + LittleEndian(0, 1);
    assert LittleEndian(0, 1) == [0] + LittleEndian(0, 0);
  }

  lemma DomainValues(schema: Schema, objectType: nat, values: seq<Value>)
    requires DOMAIN <= schema && RecordOk(schema, objectType, values)
    ensures FitsAll(schema, values) && 8 <= |values| && values[4].Number? && values[4].n <= 2
    ensures values[0] == Raw([0x4f, 0x47, 0x50, 0, 0, 0, 0, 0]) && values[1] == values[2] == Number(1) && values[3] == Number(objectType)
  {
    assert values[..4][0] == values[0] && values[..4][1] == values[1] && values[..4][2] == values[2] && values[..4][3] == values[3];
    hide FitsAll;
  }

  /** The header every signed record starts with: the protocol's name and versions, the type of the record,
      a known network, and then the cluster, the program and the session. */
  lemma HeaderBytes(schema: Schema, objectType: nat, values: seq<Value>)
    requires DOMAIN <= schema && RecordOk(schema, objectType, values)
    ensures FitsAll(schema, values) && 8 <= |values| && 110 <= |Encode(schema, values)|
    ensures var b := Encode(schema, values);
      && b[..8] == [0x4f, 0x47, 0x50, 0, 0, 0, 0, 0] && b[8..10] == [1, 0] && b[10..12] == [1, 0]
      && b[12] == objectType && b[13] <= 2 && values[4] == Number(b[13])
      && values[5] == Raw(b[14..46]) && values[6] == Raw(b[46..78]) && values[7] == Raw(b[78..110])
  {
    HeaderOffsets(schema);
    DomainValues(schema, objectType, values);
    var b := Encode(schema, values);
    hide Offset, Encode, RecordOk, EncodeField, Lies, FitsAll;
    LiesAt(schema, values, 0, 0, Bytes(8));
    LiesAt(schema, values, 1, 8, Unsigned(2));
    LiesAt(schema, values, 2, 10, Unsigned(2));
    LiesAt(schema, values, 3, 12, Unsigned(1));
    LiesAt(schema, values, 4, 13, Unsigned(1));
    LiesAt(schema, values, 5, 14, Bytes(32));
    LiesAt(schema, values, 6, 46, Bytes(32));
    LiesAt(schema, values, 7, 78, Bytes(32));
    BytesLie(b, 0, 8, values[0]);
    WordLies(b, 8, values[1]);
    WordLies(b, 10, values[2]);
    ByteLies(b, 12, values[3]);
    ByteLies(b, 13, values[4]);
    BytesLie(b, 14, 32, values[5]);
    BytesLie(b, 46, 32, values[6]);
    BytesLie(b, 78, 32, values[7]);
  }

  // ----- The three records -----

  lemma NumberLies(b: seq<Byte>, from: nat, width: nat, v: Value)
    requires Lies(b, from, Unsigned(width), v)
    ensures v.Number? && from + width <= |b| && v.n == FromLittleEndian(b[from..from + width])
  {
    FieldBack(Unsigned(width), v);
    hide LittleEndian, FromLittleEndian, Pow256;
  }

  lemma SignedLies(b: seq<Byte>, from: nat, width: nat, v: Value)
    requires Lies(b, from, Signed(width), v)
    ensures from + width <= |b| && v == DecodeField(Signed(width), b[from..from + width])
  {
    FieldBack(Signed(width), v);
    hide LittleEndian, FromLittleEndian, Pow256, DecodeField;
  }

  lemma RecordLength(schema: Schema, values: seq<Value>)
    requires FitsAll(schema, values)
    ensures |values| == |schema| && |Encode(schema, values)| == TotalSize(schema)
  {
    hide Encode, TotalSize, Fits;
  }

  lemma CredentialOffsets()
    ensures var s := PAYMENT_CREDENTIAL;
      && DOMAIN <= s && |s| == 23
      && Offset(s, 8) == 110 && Offset(s, 9) == 142 && Offset(s, 10) == 146 && Offset(s, 11) == 178
      && Offset(s, 12) == 210 && Offset(s, 13) == 242 && Offset(s, 14) == 274 && Offset(s, 15) == 282
  {
    var s := PAYMENT_CREDENTIAL;
    HeaderOffsets(s);
    hide Offset;
    OffsetNext(s, 8);
    OffsetNext(s, 9);
    OffsetNext(s, 10);
    OffsetNext(s, 11);
    OffsetNext(s, 12);
    OffsetNext(s, 13);
    OffsetNext(s, 14);
  }

  lemma CredentialOffsetsAfter()
    ensures var s := PAYMENT_CREDENTIAL;
      && DOMAIN <= s && |s| == 23
      && Offset(s, 15) == 282 && Offset(s, 16) == 314 && Offset(s, 17) == 346 && Offset(s, 18) == 354
      && Offset(s, 19) == 362 && Offset(s, 20) == 394 && Offset(s, 21) == 402 && Offset(s, 22) == 410
  {
    var s := PAYMENT_CREDENTIAL;
    CredentialOffsets();
    hide Offset;
    OffsetNext(s, 15);
    OffsetNext(s, 16);
    OffsetNext(s, 17);
    OffsetNext(s, 18);
    OffsetNext(s, 19);
    OffsetNext(s, 20);
    OffsetNext(s, 21);
  }

  /** The parties of a payment credential on the wire: session, sequence, payer, the payer's device key,
      which the program reads at byte 178, the merchant and its device key, and the amount. */
  lemma CredentialParties(values: seq<Value>)
    requires FitsAll(PAYMENT_CREDENTIAL, values)
    ensures |values| == 23 && |Encode(PAYMENT_CREDENTIAL, values)| == 474
    ensures var b := Encode(PAYMENT_CREDENTIAL, values);
      && values[8] == Raw(b[110..142]) && values[9] == Number(FromLittleEndian(b[142..146]))
      && values[10] == Raw(b[146..178]) && values[11] == Raw(b[178..210]) && values[12] == Raw(b[210..242])
      && values[13] == Raw(b[242..274]) && values[14] == Number(FromLittleEndian(b[274..282]))
  {
    Widths();
    CredentialOffsets();
    var b := Encode(PAYMENT_CREDENTIAL, values);
    hide *;
    RecordLength(PAYMENT_CREDENTIAL, values);
    LiesAt(PAYMENT_CREDENTIAL, values, 8, 110, Bytes(32));
    LiesAt(PAYMENT_CREDENTIAL, values, 9, 142, Unsigned(4));
    LiesAt(PAYMENT_CREDENTIAL, values, 10, 146, Bytes(32));
    LiesAt(PAYMENT_CREDENTIAL, values, 11, 178, Bytes(32));
    LiesAt(PAYMENT_CREDENTIAL, values, 12, 210, Bytes(32));
    LiesAt(PAYMENT_CREDENTIAL, values, 13, 242, Bytes(32));
    LiesAt(PAYMENT_CREDENTIAL, values, 14, 274, Unsigned(8));
    BytesLie(b, 110, 32, values[8]);
    NumberLies(b, 142, 4, values[9]);
    BytesLie(b, 146, 32, values[10]);
    BytesLie(b, 178, 32, values[11]);
    BytesLie(b, 210, 32, values[12]);
    BytesLie(b, 242, 32, values[13]);
    NumberLies(b, 274, 8, values[14]);
  }

  /** Its transition: previous and new state, what remains before and after, challenge and times; and after
      these 410 bytes the payer's signature of them. */
  lemma CredentialTransition(values: seq<Value>)
    requires FitsAll(PAYMENT_CREDENTIAL, values)
    ensures |values| == 23 && |Encode(PAYMENT_CREDENTIAL, values)| == 474
    ensures var b := Encode(PAYMENT_CREDENTIAL, values);
      && values[15] == Raw(b[282..314]) && values[16] == Raw(b[314..346])
      && values[17] == Number(FromLittleEndian(b[346..354]))
      && values[18] == Number(FromLittleEndian(b[354..362])) && values[19] == Raw(b[362..394])
      && values[20] == DecodeField(Signed(8), b[394..402])
      && values[21] == DecodeField(Signed(8), b[402..410]) && values[22] == Raw(b[410..474])
  {
    Widths();
    CredentialOffsetsAfter();
    var b := Encode(PAYMENT_CREDENTIAL, values);
    hide *;
    RecordLength(PAYMENT_CREDENTIAL, values);
    LiesAt(PAYMENT_CREDENTIAL, values, 15, 282, Bytes(32));
    LiesAt(PAYMENT_CREDENTIAL, values, 16, 314, Bytes(32));
    LiesAt(PAYMENT_CREDENTIAL, values, 17, 346, Unsigned(8));
    LiesAt(PAYMENT_CREDENTIAL, values, 18, 354, Unsigned(8));
    LiesAt(PAYMENT_CREDENTIAL, values, 19, 362, Bytes(32));
    LiesAt(PAYMENT_CREDENTIAL, values, 20, 394, Signed(8));
    LiesAt(PAYMENT_CREDENTIAL, values, 21, 402, Signed(8));
    LiesAt(PAYMENT_CREDENTIAL, values, 22, 410, Bytes(64));
    BytesLie(b, 282, 32, values[15]);
    BytesLie(b, 314, 32, values[16]);
    NumberLies(b, 346, 8, values[17]);
    NumberLies(b, 354, 8, values[18]);
    BytesLie(b, 362, 32, values[19]);
    SignedLies(b, 394, 8, values[20]);
    SignedLies(b, 402, 8, values[21]);
    BytesLie(b, 410, 64, values[22]);
  }

  lemma AuthorizationOffsets()
    ensures var s := DEVICE_AUTHORIZATION;
      && DOMAIN <= s && |s| == 19
      && Offset(s, 8) == 110 && Offset(s, 9) == 142 && Offset(s, 10) == 174 && Offset(s, 11) == 206
      && Offset(s, 12) == 238 && Offset(s, 13) == 246 && Offset(s, 14) == 254 && Offset(s, 15) == 258
      && Offset(s, 16) == 266 && Offset(s, 17) == 274 && Offset(s, 18) == 306
  {
    var s := DEVICE_AUTHORIZATION;
    HeaderOffsets(s);
    hide Offset;
    OffsetNext(s, 8);
    OffsetNext(s, 9);
    OffsetNext(s, 10);
    OffsetNext(s, 11);
    OffsetNext(s, 12);
    OffsetNext(s, 13);
    OffsetNext(s, 14);
    OffsetNext(s, 15);
    OffsetNext(s, 16);
    OffsetNext(s, 17);
  }

  /** A device authorization on the wire: owner, device key, session, vault, limit, cap, depth, times, nonce
      and the owner's signature of all before it. */
  lemma AuthorizationBytes(values: seq<Value>)
    requires FitsAll(DEVICE_AUTHORIZATION, values)
    ensures |values| == 19 && |Encode(DEVICE_AUTHORIZATION, values)| == 370
    ensures var b := Encode(DEVICE_AUTHORIZATION, values);
      && values[8] == Raw(b[110..142]) && values[9] == Raw(b[142..174]) && values[10] == Raw(b[174..206])
      && values[11] == Raw(b[206..238]) && values[12] == Number(FromLittleEndian(b[238..246]))
      && values[13] == Number(FromLittleEndian(b[246..254]))
      && values[14] == Number(FromLittleEndian(b[254..258]))
      && values[15] == DecodeField(Signed(8), b[258..266])
      && values[16] == DecodeField(Signed(8), b[266..274]) && values[17] == Raw(b[274..306])
      && values[18] == Raw(b[306..370])
  {
    Widths();
    AuthorizationOffsets();
    var b := Encode(DEVICE_AUTHORIZATION, values);
    hide *;
    RecordLength(DEVICE_AUTHORIZATION, values);
    LiesAt(DEVICE_AUTHORIZATION, values, 8, 110, Bytes(32));
    LiesAt(DEVICE_AUTHORIZATION, values, 9, 142, Bytes(32));
    LiesAt(DEVICE_AUTHORIZATION, values, 10, 174, Bytes(32));
    LiesAt(DEVICE_AUTHORIZATION, values, 11, 206, Bytes(32));
    LiesAt(DEVICE_AUTHORIZATION, values, 12, 238, Unsigned(8));
    LiesAt(DEVICE_AUTHORIZATION, values, 13, 246, Unsigned(8));
    LiesAt(DEVICE_AUTHORIZATION, values, 14, 254, Unsigned(4));
    LiesAt(DEVICE_AUTHORIZATION, values, 15, 258, Signed(8));
    LiesAt(DEVICE_AUTHORIZATION, values, 16, 266, Signed(8));
    LiesAt(DEVICE_AUTHORIZATION, values, 17, 274, Bytes(32));
    LiesAt(DEVICE_AUTHORIZATION, values, 18, 306, Bytes(64));
    BytesLie(b, 110, 32, values[8]);
    BytesLie(b, 142, 32, values[9]);
    BytesLie(b, 174, 32, values[10]);
    BytesLie(b, 206, 32, values[11]);
    NumberLies(b, 238, 8, values[12]);
    NumberLies(b, 246, 8, values[13]);
    NumberLies(b, 254, 4, values[14]);
    SignedLies(b, 258, 8, values[15]);
    SignedLies(b, 266, 8, values[16]);
    BytesLie(b, 274, 32, values[17]);
    BytesLie(b, 306, 64, values[18]);
  }

  lemma CertificateOffsets()
    ensures var s := SESSION_CERTIFICATE;
      && DOMAIN <= s && |s| == 27
      && Offset(s, 8) == 110 && Offset(s, 9) == 142 && Offset(s, 10) == 174 && Offset(s, 11) == 206
      && Offset(s, 12) == 238 && Offset(s, 13) == 270 && Offset(s, 14) == 278 && Offset(s, 15) == 286
      && Offset(s, 16) == 294 && Offset(s, 17) == 298
  {
    var s := SESSION_CERTIFICATE;
    HeaderOffsets(s);
    hide Offset;
    OffsetNext(s, 8);
    OffsetNext(s, 9);
    OffsetNext(s, 10);
    OffsetNext(s, 11);
    OffsetNext(s, 12);
    OffsetNext(s, 13);
    OffsetNext(s, 14);
    OffsetNext(s, 15);
    OffsetNext(s, 16);
  }

  lemma CertificateOffsetsAfter()
    ensures var s := SESSION_CERTIFICATE;
      && DOMAIN <= s && |s| == 27
      && Offset(s, 17) == 298 && Offset(s, 18) == 306 && Offset(s, 19) == 314 && Offset(s, 20) == 322
      && Offset(s, 21) == 354 && Offset(s, 22) == 386 && Offset(s, 23) == 418 && Offset(s, 24) == 450
      && Offset(s, 25) == 458 && Offset(s, 26) == 490
  {
    var s := SESSION_CERTIFICATE;
    CertificateOffsets();
    hide Offset;
    OffsetNext(s, 17);
    OffsetNext(s, 18);
    OffsetNext(s, 19);
    OffsetNext(s, 20);
    OffsetNext(s, 21);
    OffsetNext(s, 22);
    OffsetNext(s, 23);
    OffsetNext(s, 24);
    OffsetNext(s, 25);
  }

  /** The terms of a session certificate on the wire: session, owner, device key, vault, mint, limit,
      collateral, cap and depth. */
  lemma CertificateTerms(values: seq<Value>)
    requires FitsAll(SESSION_CERTIFICATE, values)
    ensures |values| == 27 && |Encode(SESSION_CERTIFICATE, values)| == 554
    ensures var b := Encode(SESSION_CERTIFICATE, values);
      && values[8] == Raw(b[110..142]) && values[9] == Raw(b[142..174]) && values[10] == Raw(b[174..206])
      && values[11] == Raw(b[206..238]) && values[12] == Raw(b[238..270])
      && values[13] == Number(FromLittleEndian(b[270..278]))
      && values[14] == Number(FromLittleEndian(b[278..286]))
      && values[15] == Number(FromLittleEndian(b[286..294]))
      && values[16] == Number(FromLittleEndian(b[294..298]))
  {
    Widths();
    CertificateOffsets();
    var b := Encode(SESSION_CERTIFICATE, values);
    hide *;
    RecordLength(SESSION_CERTIFICATE, values);
    LiesAt(SESSION_CERTIFICATE, values, 8, 110, Bytes(32));
    LiesAt(SESSION_CERTIFICATE, values, 9, 142, Bytes(32));
    LiesAt(SESSION_CERTIFICATE, values, 10, 174, Bytes(32));
    LiesAt(SESSION_CERTIFICATE, values, 11, 206, Bytes(32));
    LiesAt(SESSION_CERTIFICATE, values, 12, 238, Bytes(32));
    LiesAt(SESSION_CERTIFICATE, values, 13, 270, Unsigned(8));
    LiesAt(SESSION_CERTIFICATE, values, 14, 278, Unsigned(8));
    LiesAt(SESSION_CERTIFICATE, values, 15, 286, Unsigned(8));
    LiesAt(SESSION_CERTIFICATE, values, 16, 294, Unsigned(4));
    BytesLie(b, 110, 32, values[8]);
    BytesLie(b, 142, 32, values[9]);
    BytesLie(b, 174, 32, values[10]);
    BytesLie(b, 206, 32, values[11]);
    BytesLie(b, 238, 32, values[12]);
    NumberLies(b, 270, 8, values[13]);
    NumberLies(b, 278, 8, values[14]);
    NumberLies(b, 286, 8, values[15]);
    NumberLies(b, 294, 4, values[16]);
  }

  /** Its times, hashes, issuer, slot, nonce and the issuer's signature of all before it. */
  lemma CertificateProof(values: seq<Value>)
    requires FitsAll(SESSION_CERTIFICATE, values)
    ensures |values| == 27 && |Encode(SESSION_CERTIFICATE, values)| == 554
    ensures var b := Encode(SESSION_CERTIFICATE, values);
      && values[17] == DecodeField(Signed(8), b[298..306])
      && values[18] == DecodeField(Signed(8), b[306..314])
      && values[19] == DecodeField(Signed(8), b[314..322]) && values[20] == Raw(b[322..354])
      && values[21] == Raw(b[354..386]) && values[22] == Raw(b[386..418]) && values[23] == Raw(b[418..450])
      && values[24] == Number(FromLittleEndian(b[450..458])) && values[25] == Raw(b[458..490])
      && values[26] == Raw(b[490..554])
  {
    Widths();
    CertificateOffsetsAfter();
    var b := Encode(SESSION_CERTIFICATE, values);
    hide *;
    RecordLength(SESSION_CERTIFICATE, values);
    LiesAt(SESSION_CERTIFICATE, values, 17, 298, Signed(8));
    LiesAt(SESSION_CERTIFICATE, values, 18, 306, Signed(8));
    LiesAt(SESSION_CERTIFICATE, values, 19, 314, Signed(8));
    LiesAt(SESSION_CERTIFICATE, values, 20, 322, Bytes(32));
    LiesAt(SESSION_CERTIFICATE, values, 21, 354, Bytes(32));
    LiesAt(SESSION_CERTIFICATE, values, 22, 386, Bytes(32));
    LiesAt(SESSION_CERTIFICATE, values, 23, 418, Bytes(32));
    LiesAt(SESSION_CERTIFICATE, values, 24, 450, Unsigned(8));
    LiesAt(SESSION_CERTIFICATE, values, 25, 458, Bytes(32));
    LiesAt(SESSION_CERTIFICATE, values, 26, 490, Bytes(64));
    SignedLies(b, 298, 8, values[17]);
    SignedLies(b, 306, 8, values[18]);
    SignedLies(b, 314, 8, values[19]);
    BytesLie(b, 322, 32, values[20]);
    BytesLie(b, 354, 32, values[21]);
    BytesLie(b, 386, 32, values[22]);
    BytesLie(b, 418, 32, values[23]);
    NumberLies(b, 450, 8, values[24]);
    BytesLie(b, 458, 32, values[25]);
    BytesLie(b, 490, 64, values[26]);
  }

  // ----- What state hashes are taken of -----

  const GENESIS_RECORD: Schema := DOMAIN + [Bytes(32), Bytes(32), Unsigned(8), Unsigned(4), Unsigned(8), Signed(8), Signed(8)]
  const STATE_RECORD: Schema :=
    DOMAIN + [Bytes(32), Unsigned(4), Bytes(32), Unsigned(8), Bytes(32), Unsigned(8), Unsigned(8)]

  lemma StateWidths()
    ensures TotalSize(GENESIS_RECORD) == 210 && TotalSize(STATE_RECORD) == 234
  {
    DomainWidth();
    var g, p := [Bytes(32), Bytes(32), Unsigned(8), Unsigned(4), Unsigned(8), Signed(8), Signed(8)],
                [Bytes(32), Unsigned(4), Bytes(32), Unsigned(8), Bytes(32), Unsigned(8), Unsigned(8)];
    assert TotalSize(g) == 100 && TotalSize(p) == 124;
    hide TotalSize;
    TotalAppend(DOMAIN, g);
    TotalAppend(DOMAIN, p);
  }

  /** The bytes hashed for a state determine its fields, and a genesis state and a payment state are never
      hashed over the same bytes; so a hash without collisions makes states as free as their fields. */
  lemma StatesDetermined(u: seq<Value>, v: seq<Value>)
    ensures RecordOk(GENESIS_RECORD, 3, u) && RecordOk(GENESIS_RECORD, 3, v) && u != v ==>
      Encode(GENESIS_RECORD, u) != Encode(GENESIS_RECORD, v)
    ensures RecordOk(STATE_RECORD, 4, u) && RecordOk(STATE_RECORD, 4, v) && u != v ==> Encode(STATE_RECORD, u) != Encode(STATE_RECORD, v)
    ensures RecordOk(GENESIS_RECORD, 3, u) && RecordOk(STATE_RECORD, 4, v) ==> Encode(GENESIS_RECORD, u) != Encode(STATE_RECORD, v)
  {
    hide Encode, TotalSize, FitsAll, DomainOk;
    StateWidths();
    if FitsAll(GENESIS_RECORD, u) { DecodeEncode(GENESIS_RECORD, u); }
    if FitsAll(GENESIS_RECORD, v) { DecodeEncode(GENESIS_RECORD, v); }
    if FitsAll(STATE_RECORD, u) { DecodeEncode(STATE_RECORD, u); }
    if FitsAll(STATE_RECORD, v) { DecodeEncode(STATE_RECORD, v); }
  }

  // ----- Letters and bits -----

  const CAPITALS: string := "ABCDEFGHIJKLMNOPQRSTUVWXYZ"
  const SMALL: string := "abcdefghijklmnopqrstuvwxyz"
  const NUMERALS: string := "0123456789"

  /** The 64 letters of base64url. */
  lemma AlphabetLetters(d: nat)
    requires d < 64
    ensures |CAPITALS| == |SMALL| == 26 && |NUMERALS| == 10
    ensures Letter(d) == if d < 26 then CAPITALS[d] else if d < 52 then SMALL[d - 26] else if d < 62 then NUMERALS[d - 52]
                         else if d == 62 then '-' else '_'
  {
  }

  function Shifted(n: nat, unit: nat, m: nat): nat { n * unit + m }

  /** Each three bytes, read as one 24-bit number, are the four letters they become read the same way; a tail
      of one or two bytes is padded with zero bits. */
  lemma {:induction false} LettersCarryBits(b: seq<Byte>, g: nat)
    requires 3 * g < |b|
    ensures var d := Packed(b);
      if 3 * g + 3 <= |b| then
        && 4 * g + 4 <= |d|
        && Shifted(Shifted(Shifted(d[4 * g], 64, d[4 * g + 1]), 64, d[4 * g + 2]), 64, d[4 * g + 3])
           == Shifted(Shifted(b[3 * g], 256, b[3 * g + 1]), 256, b[3 * g + 2])
      else if 3 * g + 2 == |b| then
        && 4 * g + 3 == |d|
        && Shifted(Shifted(d[4 * g], 64, d[4 * g + 1]), 64, d[4 * g + 2]) == Shifted(Shifted(b[3 * g], 256, b[3 * g + 1]), 4, 0)
      else 4 * g + 2 == |d| && Shifted(d[4 * g], 64, d[4 * g + 1]) == Shifted(b[3 * g], 16, 0)
    decreases g
  {
    if g == 0 {
      var y, z: Byte := if |b| < 2 then 0 else b[1], if |b| < 3 then 0 else b[2];
      GroupBits(b[0], y, z);
      hide S0, S1, S2, S3, Shifted;
    } else {
      LettersCarryBits(b[3..], g - 1);
      assert Packed(b)[4..] == Packed(b[3..]);
      hide Packed, S0, S1, S2, S3, Shifted;
    }
  }

  lemma GroupBits(x: Byte, y: Byte, z: Byte)
    ensures Shifted(Shifted(Shifted(S0(x), 64, S1(x, y)), 64, S2(y, z)), 64, S3(z)) == Shifted(Shifted(x, 256, y), 256, z)
    ensures Shifted(Shifted(S0(x), 64, S1(x, y)), 64, S2(y, 0)) == Shifted(Shifted(x, 256, y), 4, 0)
    ensures Shifted(S0(x), 64, S1(x, 0)) == Shifted(x, 16, 0)
  {
  }

  const HEX_DIGITS: string := "0123456789abcdef"

  /** Two hexadecimal digits for each byte, the greater first. */
  lemma {:induction false} HexAt(b: seq<Byte>, i: nat)
    requires i < |b|
    ensures |HEX_DIGITS| == 16 && Hex(b)[2 * i] == HEX_DIGITS[b[i] / 16] && Hex(b)[2 * i + 1] == HEX_DIGITS[b[i] % 16]
    decreases i
  {
    if 0 < i {
      HexAt(b[1..], i - 1);
      assert Hex(b)[2..] == Hex(b[1..]);
    }
  }

  /** The secrets a merchant's store accepts are exactly the hexadecimal texts of 32 bytes. */
  lemma SecretsAreBytes(s: string)
    ensures MerchantStorage.ValidSecret(s) <==> exists b: seq<Byte> :: |b| == 32 && Hex(b) == s
  {
    if MerchantStorage.ValidSecret(s) {
      assert forall i :: 0 <= i < |s| ==> IsHexDigit(s[i]);
      hide Hex, HexBytes;
      Frames.BytesBack(s);
      assert |HexBytes(s)| == 32 && Hex(HexBytes(s)) == s;
    }
    if b: seq<Byte> :| |b| == 32 && Hex(b) == s {
      HexBack(b);
      hide Hex, HexBytes;
      assert forall i :: 0 <= i < |s| ==> IsHexDigit(s[i]);
    }
  }

  /** A receipt on the wire: version, credential hash, challenge. */
  lemma ReceiptBytes(r: TransportReceipt)
    requires |r.credentialHash| == |r.merchantChallenge| == 32
    ensures EncodeReceipt(r).Some? && |EncodeReceipt(r).value| == 65
    ensures var b := EncodeReceipt(r).value; b[0] == 1 && b[1..33] == r.credentialHash && b[33..65] == r.merchantChallenge
  {
  }

  /** A merchant's snapshot lies in three components under these names. */
  lemma StoredUnder(s: MerchantStorage.MerchantSnapshot)
    ensures MerchantStorage.Encode(s)
         == map["device-secret" := s.secret, "claims" := s.claims,
                "outstanding-challenge" := if s.outstanding.None? then "null" else s.outstanding.value]
  {
  }

  /** The text of a frame. */
  lemma FrameText(f: Frame)
    ensures Written(f)
         == "OGPQR1" + "." + ((if f.kind.Challenge? then "1" else if f.kind.CredentialBundle? then "2" else "3")
            + "." + (Hex(f.hash) + "." + (Decimal(f.index) + "." + (Decimal(f.count) + "." + Encoded(f.chunk)))))
  {
    var k, h, i, n, c := KindText(f.kind), Hex(f.hash), Decimal(f.index), Decimal(f.count), Encoded(f.chunk);
    assert JoinDots([c]) == c;
    assert Written(f) == JoinDots([QR_PREFIX] + [k, h, i, n, c]);
    assert k == if f.kind.Challenge? then "1" else if f.kind.CredentialBundle? then "2" else "3";
    hide *;
    assert [n] + [c] == [n, c] && [i] + [n, c] == [i, n, c] && [h] + [i, n, c] == [h, i, n, c];
    assert [k] + [h, i, n, c] == [k, h, i, n, c];
    JoinMore(n, [c]);
    JoinMore(i, [n, c]);
    JoinMore(h, [i, n, c]);
    JoinMore(k, [h, i, n, c]);
    JoinMore(QR_PREFIX, [k, h, i, n, c]);
  }

  lemma JoinMore(field: string, rest: seq<string>)
    requires rest != []
    ensures JoinDots([field] + rest) == field + "." + JoinDots(rest)
  {
    assert ([field] + rest)[1..] == rest;
  }

  // ----- A challenge on the wire -----

  lemma ChallengeOffsets()
    ensures var s := CHALLENGE;
      && Offset(s, 0) == 0 && Offset(s, 1) == 1 && Offset(s, 2) == 2 && Offset(s, 3) == 34 && Offset(s, 4) == 66
      && Offset(s, 5) == 98 && Offset(s, 6) == 130 && Offset(s, 7) == 138
  {
    var s := CHALLENGE;
    assert s[..0] == [];
    assert Offset(s, 0) == 0;
    hide Offset;
    OffsetNext(s, 0);
    OffsetNext(s, 1);
    OffsetNext(s, 2);
    OffsetNext(s, 3);
    OffsetNext(s, 4);
    OffsetNext(s, 5);
    OffsetNext(s, 6);
  }

  /** A merchant's challenge on the wire: version, network, cluster, program, merchant, its device key, the
      amount and the challenge. */
  lemma ChallengeBytes(c: ChallengeMessage)
    requires ChallengeOk(c)
    ensures EncodeChallenge(c).Some? && |EncodeChallenge(c).value| == 170
    ensures var b := EncodeChallenge(c).value;
      && b[0] == 1 && b[1] == c.networkId && b[2..34] == c.clusterGenesisHash && b[34..66] == c.programId
      && b[66..98] == c.merchant && b[98..130] == c.merchantDeviceKey && FromLittleEndian(b[130..138]) == c.amount
      && b[138..170] == c.challenge
  {
    ChallengeFits(c);
    ChallengeOffsets();
    ChallengeWidth();
    var v := ChallengeValues(c);
    var b := EncodeChallenge(c).value;
    assert b == Encode(CHALLENGE, v);
    hide Offset, Encode, EncodeField, Lies, FitsAll, TotalSize, FromLittleEndian, ChallengeOk, EncodeChallenge;
    LiesAt(CHALLENGE, v, 0, 0, Unsigned(1));
    LiesAt(CHALLENGE, v, 1, 1, Unsigned(1));
    LiesAt(CHALLENGE, v, 2, 2, Bytes(32));
    LiesAt(CHALLENGE, v, 3, 34, Bytes(32));
    LiesAt(CHALLENGE, v, 4, 66, Bytes(32));
    LiesAt(CHALLENGE, v, 5, 98, Bytes(32));
    LiesAt(CHALLENGE, v, 6, 130, Unsigned(8));
    LiesAt(CHALLENGE, v, 7, 138, Bytes(32));
    ByteLies(b, 0, v[0]);
    ByteLies(b, 1, v[1]);
    BytesLie(b, 2, 32, v[2]);
    BytesLie(b, 34, 32, v[3]);
    BytesLie(b, 66, 32, v[4]);
    BytesLie(b, 98, 32, v[5]);
    NumberLies(b, 130, 8, v[6]);
    BytesLie(b, 138, 32, v[7]);
    RecordLength(CHALLENGE, v);
  }
}
