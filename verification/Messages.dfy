/** The two short messages of packages/transports, merchant challenges and receipts, over the same
    fixed-width records, and their way through the frames. */
module Messages {
  import opened Collections
  import opened Base64
  import opened Codec
  import opened Frames
  import opened Transport

  const CHALLENGE: Schema :=
    [Unsigned(1), Unsigned(1), Bytes(32), Bytes(32), Bytes(32), Bytes(32), Unsigned(8), Bytes(32)]
  const RECEIPT: Schema := [Unsigned(1), Bytes(32), Bytes(32)]

  const PAYLOAD_VERSION: nat := 1
  const LOCALNET: nat := 0

  datatype ChallengeMessage = ChallengeMessage(networkId: int, clusterGenesisHash: seq<Byte>, programId: seq<Byte>,
                                                 merchant: seq<Byte>, merchantDeviceKey: seq<Byte>, amount: int,
                                                 challenge: seq<Byte>)

  datatype TransportReceipt = TransportReceipt(credentialHash: seq<Byte>, merchantChallenge: seq<Byte>)

  predicate AllZero(bytes: seq<Byte>) { forall i :: 0 <= i < |bytes| ==> bytes[i] == 0 }

  predicate ChallengeOk(c: ChallengeMessage)
  {
    && LOCALNET <= c.networkId <= MAINNET_BETA
    && |c.clusterGenesisHash| == |c.programId| == |c.merchant| == |c.merchantDeviceKey| == |c.challenge| == 32
    && !AllZero(c.challenge) && 0 < c.amount < Pow256(8)
  }

  function ChallengeValues(c: ChallengeMessage): seq<Value>
  {
    [Number(PAYLOAD_VERSION), Number(c.networkId), Raw(c.clusterGenesisHash), Raw(c.programId), Raw(c.merchant),
     Raw(c.merchantDeviceKey), Number(c.amount), Raw(c.challenge)]
  }

  function ChallengeOf(v: seq<Value>): ChallengeMessage
    requires FitsAll(CHALLENGE, v)
  {
    ChallengeMessage(v[1].n, v[2].bytes, v[3].bytes, v[4].bytes, v[5].bytes, v[6].n, v[7].bytes)
  }

  lemma ChallengeFits(c: ChallengeMessage)
    requires ChallengeOk(c)
    ensures FitsAll(CHALLENGE, ChallengeValues(c)) && ChallengeOf(ChallengeValues(c)) == c
  {
    assert Pow256(1) == 256;
    hide Pow256;
  }

  function EncodeChallenge(c: ChallengeMessage): Option<seq<Byte>>
  {
    if !ChallengeOk(c) then None
    else
      ChallengeFits(c);
      Some(Encode(CHALLENGE, ChallengeValues(c)))
  }

  function DecodeChallenge(input: seq<Byte>): Option<ChallengeMessage>
  {
    var v := StrictDecode(CHALLENGE, input);
    if v.None? || v.value[0] != Number(PAYLOAD_VERSION) then None
    else
      var c := ChallengeOf(v.value);
      if MAINNET_BETA < c.networkId || c.amount == 0 || AllZero(c.challenge) then None else Some(c)
  }

  /** Decoding accepts exactly the encodings of legal challenges and gives the challenge back. */
  lemma ChallengeBack(c: ChallengeMessage, input: seq<Byte>)
    ensures DecodeChallenge(input) == Some(c) <==> EncodeChallenge(c) == Some(input)
  {
    if EncodeChallenge(c) == Some(input) {
      ChallengeFits(c);
      DecodeEncode(CHALLENGE, ChallengeValues(c));
    }
    if DecodeChallenge(input) == Some(c) {
      var v := StrictDecode(CHALLENGE, input).value;
      ValuesBack(v);
    }
  }

  /** What is decoded is a challenge that asks for something of someone: 170 bytes, version one, a known
      network, a challenge that is not all zero and a positive 64-bit amount. */
  lemma DecodedChallenge(c: ChallengeMessage, input: seq<Byte>)
    requires DecodeChallenge(input) == Some(c)
    ensures |input| == 170 && input[0] == 1
    ensures 0 <= c.networkId <= 2 && 0 < c.amount <= 0xFFFF_FFFF_FFFF_FFFF
    ensures |c.challenge| == 32 && c.challenge != seq(32, i => 0)
    ensures |c.clusterGenesisHash| == |c.programId| == |c.merchant| == |c.merchantDeviceKey| == 32
  {
    hide *;
    ChallengeBack(c, input);
    EncodedChallenge(c, input);
    AmountBound();
  }

  lemma AmountBound()
    ensures Pow256(8) == 0x1_0000_0000_0000_0000
  {
  }

  lemma EncodedChallenge(c: ChallengeMessage, input: seq<Byte>)
    requires EncodeChallenge(c) == Some(input)
    ensures |input| == 170 && input[0] == 1
    ensures 0 <= c.networkId <= 2 && 0 < c.amount < Pow256(8)
    ensures |c.challenge| == 32 && c.challenge != seq(32, i => 0)
    ensures |c.clusterGenesisHash| == |c.programId| == |c.merchant| == |c.merchantDeviceKey| == 32
  {
    ChallengeFits(c);
    ChallengeWidth();
    FirstByte(ChallengeValues(c));
    hide Pow256, Encode, TotalSize, FitsAll;
  }

  lemma FirstByte(v: seq<Value>)
    requires FitsAll(CHALLENGE, v) && v[0] == Number(PAYLOAD_VERSION)
    ensures 0 < |Encode(CHALLENGE, v)| && Encode(CHALLENGE, v)[0] == 1
  {
    assert EncodeField(CHALLENGE[0], v[0]) == [1];
    hide EncodeField;
  }

  lemma ValuesBack(v: seq<Value>)
    requires FitsAll(CHALLENGE, v) && v[0] == Number(PAYLOAD_VERSION)
    requires v[1].n <= MAINNET_BETA && v[6].n != 0 && !AllZero(v[7].bytes)
    ensures ChallengeOk(ChallengeOf(v)) && ChallengeValues(ChallengeOf(v)) == v
  {
    assert forall i :: 0 <= i < 8 ==> Fits(CHALLENGE[i], v[i]);
    hide Pow256, AllZero;
  }

  predicate ReceiptOk(r: TransportReceipt) { |r.credentialHash| == |r.merchantChallenge| == 32 }

  function EncodeReceipt(r: TransportReceipt): Option<seq<Byte>>
  {
    if !ReceiptOk(r) then None else Some([PAYLOAD_VERSION] + r.credentialHash + r.merchantChallenge)
  }

  function DecodeReceipt(input: seq<Byte>): Option<TransportReceipt>
  {
    if |input| != TotalSize(RECEIPT) || input[0] != PAYLOAD_VERSION then None
    else Some(TransportReceipt(input[1..33], input[33..]))
  }

  lemma ReceiptBack(r: TransportReceipt, input: seq<Byte>)
    ensures DecodeReceipt(input) == Some(r) <==> EncodeReceipt(r) == Some(input)
  {
    if DecodeReceipt(input) == Some(r) {
      assert input == [input[0]] + input[1..33] + input[33..];
    }
  }

  /** sendChallenge then receiveChallenge: a legal challenge always fits in frames, and scanning them
      in any order and with any repeats gives it back unless one is missing. */
  method ReceiveChallenge(sha: Sha, c: ChallengeMessage, chunkBytes: nat, frames: seq<string>) returns (r: TransferResult<ChallengeMessage>)
    requires ChallengeOk(c) && 64 <= chunkBytes <= 1024
    requires FramesOf(sha, Challenge, EncodeChallenge(c).value, chunkBytes, frames)
    ensures r == if AllScanned(frames, FrameCount(|EncodeChallenge(c).value|, chunkBytes)) then Ok(c) else Err(IncompleteTransfer)
  {
    var payload := EncodeChallenge(c).value;
    ChallengeWidth();
    FrameCountIs(|payload|, chunkBytes, MAX_FRAME_COUNT);
    ChallengeBack(c, payload);
    hide EncodeChallenge, FrameCount, FramesOf, AllScanned, Assembled, TotalSize, DecodeChallenge;
    AssembleFramed(sha, Challenge, payload, chunkBytes, frames);
    var assembled := Assemble(sha, Challenge, frames);
    if assembled.Err? { return Err(assembled.error); }
    var decoded := DecodeChallenge(assembled.value);
    if decoded.None? { return Err(InvalidPayload); }
    r := Ok(decoded.value);
  }

  lemma ChallengeWidth()
    ensures TotalSize(CHALLENGE) == 170
  {
  }
}
