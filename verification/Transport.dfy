/** QR transfers (packages/transports): a payload is cut into numbered frames, and any collection of
    frames is put together again in whatever order and however often they were scanned. */
module Transport {
  import opened Collections
  import opened ProRata
  import opened Base64
  import opened Codec
  import opened Frames

  /** SHA-256: some function to 32 bytes. Nothing else is assumed of it. */
  type Sha = f: seq<Byte> -> seq<Byte> | forall b :: |f(b)| == HASH_LENGTH witness (b => ZEROS)

  const ZEROS: seq<Byte> := seq(HASH_LENGTH, i => 0)

  datatype TransportError =
    | InvalidPayload | InvalidFrame | MixedTransfer | ConflictingFrame | IncompleteTransfer | IntegrityFailure

  datatype TransferResult<+T> = Ok(value: T) | Err(error: TransportError)

  /** The text is that of a legal frame, of which there can be only one. */
  ghost predicate Parseable(t: string) { exists f :: Legal(f) && Written(f) == t }

  ghost function ParsedOf(t: string): Frame
    requires Parseable(t)
  {
    var f :| Legal(f) && Written(f) == t; f
  }

  lemma ParsesTo(f: Frame)
    requires Legal(f)
    ensures Parseable(Written(f)) && ParsedOf(Written(f)) == f
  {
    WrittenInjective(f, ParsedOf(Written(f)));
  }

  // ----- Framing -----

  function FrameCount(length: nat, chunkBytes: nat): nat
    requires 0 < chunkBytes
  {
    (length + chunkBytes - 1) / chunkBytes
  }

  lemma FrameCountIs(length: nat, chunkBytes: nat, n: nat)
    requires 0 < chunkBytes
    ensures FrameCount(length, chunkBytes) <= n <==> length <= n * chunkBytes
    ensures 0 < length ==> 0 < FrameCount(length, chunkBytes)
  {
    var count := FrameCount(length, chunkBytes);
    DivisionBounds(length + chunkBytes - 1, chunkBytes);
    TimesDistributes(count, 1, chunkBytes);
    TimesDistributes(n, 1, chunkBytes);
    hide *;
    if count <= n { TimesMonotone(count, n, chunkBytes); } else { TimesMonotone(n + 1, count, chunkBytes); }
    if count == 0 { TimesDistributes(0, 1, chunkBytes); }
  }

  function Slice(payload: seq<Byte>, chunkBytes: nat, i: nat): seq<Byte>
  {
    var from, to := i * chunkBytes, (i + 1) * chunkBytes;
    if |payload| <= from then [] else if |payload| <= to || to < from then payload[from..] else payload[from..to]
  }

  predicate Framable(payload: seq<Byte>, chunkBytes: nat)
    requires 0 < chunkBytes
  {
    0 < |payload| <= MAX_TRANSFER_BYTES && FrameCount(|payload|, chunkBytes) <= MAX_FRAME_COUNT
  }

  /** Any payload up to 64 KiB that fits in 128 chunks. */
  lemma FramableIs(payload: seq<Byte>, chunkBytes: nat)
    requires 0 < chunkBytes
    ensures Framable(payload, chunkBytes) <==> 0 < |payload| <= 65_536 && |payload| <= 128 * chunkBytes
  {
    FrameCountIs(|payload|, chunkBytes, MAX_FRAME_COUNT);
    hide FrameCount;
  }

  function FrameAt(sha: Sha, kind: Kind, payload: seq<Byte>, chunkBytes: nat, i: nat): Frame
    requires 0 < chunkBytes
  {
    Frame(kind, sha(payload), i, FrameCount(|payload|, chunkBytes), Slice(payload, chunkBytes, i))
  }

  /** frame. */
  method FramePayload(sha: Sha, kind: Kind, payload: seq<Byte>, chunkBytes: nat) returns (r: TransferResult<seq<string>>)
    requires 64 <= chunkBytes <= 1024
    ensures r.Ok? <==> Framable(payload, chunkBytes)
    ensures r.Ok? ==> |r.value| == FrameCount(|payload|, chunkBytes)
                      && forall i :: 0 <= i < |r.value| ==> r.value[i] == Written(FrameAt(sha, kind, payload, chunkBytes, i))
  {
    if |payload| == 0 || MAX_TRANSFER_BYTES < |payload| { return Err(InvalidPayload); }
    var count := FrameCount(|payload|, chunkBytes);
    if MAX_FRAME_COUNT < count { return Err(InvalidPayload); }
    hide Encoded, FrameCount, Slice, JoinDots, Hex, Decimal;
    var hashHex := Hex(sha(payload));
    var frames: seq<string> := [];
    var index := 0;
    while index < count
      invariant 0 <= index <= count && |frames| == index
      invariant forall i :: 0 <= i < index ==> frames[i] == Written(FrameAt(sha, kind, payload, chunkBytes, i))
    {
      var chunk := Base64UrlEncode(Slice(payload, chunkBytes, index));
      frames := frames + [JoinDots([QR_PREFIX, KindText(kind), hashHex, Decimal(index), Decimal(count), chunk])];
      index := index + 1;
    }
    r := Ok(frames);
  }

  // ----- Assembling -----

  datatype Transfer = Transfer(hash: seq<Byte>, count: nat)

  datatype Gathered = Gathered(transfer: Option<Transfer>, chunks: map<nat, seq<Byte>>)

  /** One more frame. */
  ghost function Add(expected: Kind, g: Gathered, t: string): TransferResult<Gathered>
  {
    if !Parseable(t) then Err(InvalidFrame)
    else
      var frame := ParsedOf(t);
      if frame.kind != expected then Err(InvalidFrame)
      else if g.transfer.Some? && g.transfer.value != Transfer(frame.hash, frame.count) then Err(MixedTransfer)
      else if frame.index in g.chunks && g.chunks[frame.index] != frame.chunk then Err(ConflictingFrame)
      else Ok(Gathered(Some(Transfer(frame.hash, frame.count)), g.chunks[frame.index := frame.chunk]))
  }

  ghost function Gather(expected: Kind, frames: seq<string>): TransferResult<Gathered>
  {
    if frames == [] then Ok(Gathered(None, map[]))
    else
      var before := Gather(expected, frames[..|frames| - 1]);
      if before.Err? then before else Add(expected, before.value, frames[|frames| - 1])
  }

  predicate Whole(chunks: map<nat, seq<Byte>>, count: nat) { forall i :: 0 <= i < count ==> i in chunks }

  function Join(chunks: map<nat, seq<Byte>>, count: nat): seq<Byte>
    requires Whole(chunks, count)
  {
    if count == 0 then [] else Join(chunks, count - 1) + chunks[count - 1]
  }

  ghost function Assembled(sha: Sha, expected: Kind, frames: seq<string>): TransferResult<seq<Byte>>
  {
    var g := Gather(expected, frames);
    if g.Err? then Err(g.error)
    else if g.value.transfer.None? || |g.value.chunks| != g.value.transfer.value.count then Err(IncompleteTransfer)
    else if !Whole(g.value.chunks, g.value.transfer.value.count) then Err(IncompleteTransfer)
    else
      var payload := Join(g.value.chunks, g.value.transfer.value.count);
      if MAX_TRANSFER_BYTES < |payload| then Err(InvalidPayload)
      else if g.value.transfer.value.hash != sha(payload) then Err(IntegrityFailure)
      else Ok(payload)
  }

  function Upto(n: nat): (r: set<nat>)
    ensures forall i: nat :: i in r <==> i < n
  {
    if n == 0 then {} else Upto(n - 1) + {n - 1}
  }

  lemma {:induction false} UptoSize(n: nat)
    ensures |Upto(n)| == n
  {
    if n > 0 { UptoSize(n - 1); }
  }

  /** Gathered chunks are below the count, so as many as the count are all of them. */
  lemma {:induction false} GatheredBelow(expected: Kind, frames: seq<string>)
    ensures var g := Gather(expected, frames);
      g.Ok? ==> && (g.value.transfer.None? ==> frames == [])
                && (g.value.transfer.Some? ==> forall k :: k in g.value.chunks ==> k < g.value.transfer.value.count)
                && (g.value.transfer.None? ==> g.value.chunks == map[])
  {
    if frames != [] {
      GatheredBelow(expected, frames[..|frames| - 1]);
      hide Parseable, ParsedOf;
    }
  }

  lemma CountMeansWhole(chunks: map<nat, seq<Byte>>, count: nat)
    requires forall k :: k in chunks ==> k < count
    ensures |chunks| == count <==> Whole(chunks, count)
  {
    UptoSize(count);
    assert |chunks.Keys| == |chunks|;
    assert chunks.Keys <= Upto(count);
    EqualSize(chunks.Keys, Upto(count));
    if Whole(chunks, count) { assert Upto(count) <= chunks.Keys; }
  }

  /** assemble: gathers the frames, then joins the chunks in index order and checks the digest. */
  method Assemble(sha: Sha, expected: Kind, frames: seq<string>) returns (r: TransferResult<seq<Byte>>)
    ensures r == Assembled(sha, expected, frames)
  {
    var g := GatherAll(expected, frames);
    if g.Err? { return Err(g.error); }
    var chunks := g.value.chunks;
    if g.value.transfer.None? || |chunks| != g.value.transfer.value.count { return Err(IncompleteTransfer); }
    var transfer := g.value.transfer.value;
    GatheredBelow(expected, frames);
    CountMeansWhole(chunks, transfer.count);
    hide Gather, Whole, Join;
    var payload := JoinAll(chunks, transfer.count);
    if MAX_TRANSFER_BYTES < |payload| { return Err(InvalidPayload); }
    if sha(payload) != transfer.hash { return Err(IntegrityFailure); }
    r := Ok(payload);
  }

  /** Joining the chunks; no index can be missing, because as many chunks as the count were gathered. */
  method JoinAll(chunks: map<nat, seq<Byte>>, count: nat) returns (payload: seq<Byte>)
    requires Whole(chunks, count)
    ensures payload == Join(chunks, count)
  {
    payload := [];
    var index := 0;
    while index < count
      invariant 0 <= index <= count && payload == Join(chunks, index)
    {
      payload := payload + chunks[index];
      index := index + 1;
    }
  }

  method GatherAll(expected: Kind, frames: seq<string>) returns (r: TransferResult<Gathered>)
    ensures r == Gather(expected, frames)
  {
    var g := Gathered(None, map[]);
    var i := 0;
    GatherNone(expected, frames);
    hide Gather, Add;
    while i < |frames|
      invariant 0 <= i <= |frames| && Gather(expected, frames[..i]) == Ok(g)
    {
      GatherStep(expected, frames, i);
      r := AddFrame(expected, g, frames[i]);
      if r.Err? { return; }
      g := r.value;
      i := i + 1;
    }
    r := Ok(g);
  }

  lemma GatherNone(expected: Kind, frames: seq<string>)
    ensures Gather(expected, frames[..0]) == Ok(Gathered(None, map[])) && frames[..|frames|] == frames
  {
  }

  method AddFrame(expected: Kind, g: Gathered, t: string) returns (r: TransferResult<Gathered>)
    ensures r == Add(expected, g, t)
  {
    var frame := ParseFrame(t);
    if frame.None? { return Err(InvalidFrame); }
    var f := frame.value;
    ParsesTo(f);
    hide Parseable, ParsedOf, Legal, Written;
    if f.kind != expected { return Err(InvalidFrame); }
    if g.transfer.Some? && g.transfer.value != Transfer(f.hash, f.count) { return Err(MixedTransfer); }
    if f.index in g.chunks && g.chunks[f.index] != f.chunk { return Err(ConflictingFrame); }
    r := Ok(Gathered(Some(Transfer(f.hash, f.count)), g.chunks[f.index := f.chunk]));
  }

  /** The next frame extends what was gathered, or its error is the whole transfer's. */
  lemma GatherStep(expected: Kind, frames: seq<string>, i: nat)
    requires i < |frames| && Gather(expected, frames[..i]).Ok?
    ensures Gather(expected, frames[..i + 1]) == Add(expected, Gather(expected, frames[..i]).value, frames[i])
    ensures Gather(expected, frames[..i + 1]).Err? ==> Gather(expected, frames) == Gather(expected, frames[..i + 1])
  {
    assert frames[..i + 1][..i] == frames[..i];
    if Gather(expected, frames[..i + 1]).Err? { ErrorStays(expected, frames, i + 1); }
  }

  lemma {:induction false} ErrorStays(expected: Kind, frames: seq<string>, n: nat)
    requires n <= |frames| && Gather(expected, frames[..n]).Err?
    ensures Gather(expected, frames) == Gather(expected, frames[..n])
    decreases |frames|
  {
    if n < |frames| {
      assert frames[..|frames| - 1][..n] == frames[..n];
      ErrorStays(expected, frames[..|frames| - 1], n);
    } else {
      assert frames[..n] == frames;
    }
  }

  // ----- Round trips -----

  /** The texts are frames of one payload. */
  ghost predicate FramesOf(sha: Sha, kind: Kind, payload: seq<Byte>, chunkBytes: nat, frames: seq<string>)
    requires 0 < chunkBytes
  {
    forall i :: 0 <= i < |frames| ==>
      exists k :: 0 <= k < FrameCount(|payload|, chunkBytes) && frames[i] == Written(FrameAt(sha, kind, payload, chunkBytes, k))
  }

  ghost function IndexOf(t: string): nat
    requires Parseable(t)
  {
    ParsedOf(t).index
  }

  ghost function Indices(frames: seq<string>): set<nat>
  {
    set i | 0 <= i < |frames| && Parseable(frames[i]) :: IndexOf(frames[i])
  }

  lemma FrameParses(sha: Sha, kind: Kind, payload: seq<Byte>, chunkBytes: nat, k: nat)
    requires 0 < chunkBytes && Framable(payload, chunkBytes) && k < FrameCount(|payload|, chunkBytes)
    ensures var f := FrameAt(sha, kind, payload, chunkBytes, k);
      Legal(f) && Parseable(Written(f)) && ParsedOf(Written(f)) == f && IndexOf(Written(f)) == k
  {
    hide Slice, FrameCount, Written;
    ParsesTo(FrameAt(sha, kind, payload, chunkBytes, k));
  }

  /** What frames of one payload leave behind: the slice for each index among them. */
  ghost function Slices(payload: seq<Byte>, chunkBytes: nat, indices: set<nat>): map<nat, seq<Byte>>
  {
    map k | k in indices :: Slice(payload, chunkBytes, k)
  }

  lemma OneMore(payload: seq<Byte>, chunkBytes: nat, indices: set<nat>, k: nat)
    ensures var was, now := Slices(payload, chunkBytes, indices), Slices(payload, chunkBytes, indices + {k});
      && now == was[k := Slice(payload, chunkBytes, k)]
      && (k in was ==> was[k] == Slice(payload, chunkBytes, k))
  {
    hide Slice;
  }

  lemma {:induction false} GatherFramed(sha: Sha, kind: Kind, payload: seq<Byte>, chunkBytes: nat, frames: seq<string>)
    requires 0 < chunkBytes && Framable(payload, chunkBytes) && FramesOf(sha, kind, payload, chunkBytes, frames)
    ensures Gather(kind, frames)
         == Ok(Gathered(if frames == [] then None else Some(Transfer(sha(payload), FrameCount(|payload|, chunkBytes))),
                        Slices(payload, chunkBytes, Indices(frames))))
    decreases |frames|
  {
    hide *;
    if frames == [] {
      NoFrames(kind, payload, chunkBytes, frames);
    } else {
      var before, last := frames[..|frames| - 1], frames[|frames| - 1];
      assert frames == before + [last];
      var k := LastFrame(sha, kind, payload, chunkBytes, frames);
      GatherFramed(sha, kind, payload, chunkBytes, before);
      FrameParses(sha, kind, payload, chunkBytes, k);
      LastIndex(before, last);
      AddFramed(sha, kind, payload, chunkBytes, frames, k);
    }
  }

  lemma NoFrames(kind: Kind, payload: seq<Byte>, chunkBytes: nat, frames: seq<string>)
    requires frames == []
    ensures Gather(kind, frames) == Ok(Gathered(None, Slices(payload, chunkBytes, Indices(frames))))
  {
    NoIndices(frames);
    hide Indices, Slice;
  }

  lemma LastFrame(sha: Sha, kind: Kind, payload: seq<Byte>, chunkBytes: nat, frames: seq<string>) returns (k: nat)
    requires 0 < chunkBytes && frames != [] && FramesOf(sha, kind, payload, chunkBytes, frames)
    ensures k < FrameCount(|payload|, chunkBytes)
    ensures frames[|frames| - 1] == Written(FrameAt(sha, kind, payload, chunkBytes, k))
    ensures FramesOf(sha, kind, payload, chunkBytes, frames[..|frames| - 1])
  {
    hide FrameCount, FrameAt, Written;
    var last := frames[|frames| - 1];
    k :| 0 <= k < FrameCount(|payload|, chunkBytes) && last == Written(FrameAt(sha, kind, payload, chunkBytes, k));
  }

  /** One more frame of the payload adds its slice. */
  lemma AddFramed(sha: Sha, kind: Kind, payload: seq<Byte>, chunkBytes: nat, frames: seq<string>, k: nat)
    requires 0 < chunkBytes && frames != []
    requires var before, last := frames[..|frames| - 1], frames[|frames| - 1];
      && Parseable(last) && ParsedOf(last) == FrameAt(sha, kind, payload, chunkBytes, k)
      && Indices(frames) == Indices(before) + {k}
      && Gather(kind, before)
         == Ok(Gathered(if before == [] then None else Some(Transfer(sha(payload), FrameCount(|payload|, chunkBytes))),
                        Slices(payload, chunkBytes, Indices(before))))
    ensures Gather(kind, frames)
         == Ok(Gathered(Some(Transfer(sha(payload), FrameCount(|payload|, chunkBytes))), Slices(payload, chunkBytes, Indices(frames))))
  {
    OneMore(payload, chunkBytes, Indices(frames[..|frames| - 1]), k);
    hide FrameCount, Slice, Parseable, ParsedOf, Slices, Indices;
  }

  lemma NoIndices(frames: seq<string>)
    requires frames == []
    ensures Indices(frames) == {}
  {
  }

  lemma LastIndex(before: seq<string>, last: string)
    requires Parseable(last)
    ensures Indices(before + [last]) == Indices(before) + {IndexOf(last)}
  {
    var frames := before + [last];
    hide Parseable, IndexOf;
    forall k ensures k in Indices(frames) <==> k in Indices(before) || k == IndexOf(last) {
      if k in Indices(before) {
        var i :| 0 <= i < |before| && Parseable(before[i]) && IndexOf(before[i]) == k;
        assert Parseable(frames[i]) && IndexOf(frames[i]) == k;
      }
      if k == IndexOf(last) { assert Parseable(frames[|before|]) && IndexOf(frames[|before|]) == k; }
      if k in Indices(frames) {
        var i :| 0 <= i < |frames| && Parseable(frames[i]) && IndexOf(frames[i]) == k;
        assert i < |before| ==> Parseable(before[i]) && IndexOf(before[i]) == k;
      }
    }
  }

  function FirstBytes(payload: seq<Byte>, n: int): seq<Byte>
  {
    if |payload| <= n then payload else if n <= 0 then [] else payload[..n]
  }

  lemma {:induction false} JoinSlices(payload: seq<Byte>, chunkBytes: nat, chunks: map<nat, seq<Byte>>, n: nat)
    requires 0 < chunkBytes && Whole(chunks, n) && AreSlices(payload, chunkBytes, chunks, n)
    ensures Join(chunks, n) == FirstBytes(payload, n * chunkBytes)
    decreases n
  {
    if n > 0 {
      JoinSlices(payload, chunkBytes, chunks, n - 1);
      OneMoreSlice(payload, chunkBytes, n - 1);
      hide Slice, FirstBytes;
    } else {
      assert |payload| <= 0 ==> payload == [];
    }
  }

  predicate AreSlices(payload: seq<Byte>, chunkBytes: nat, chunks: map<nat, seq<Byte>>, n: nat)
    requires Whole(chunks, n)
  {
    forall k :: 0 <= k < n ==> chunks[k] == Slice(payload, chunkBytes, k)
  }

  lemma OneMoreSlice(payload: seq<Byte>, chunkBytes: nat, i: nat)
    requires 0 < chunkBytes
    ensures FirstBytes(payload, i * chunkBytes) + Slice(payload, chunkBytes, i) == FirstBytes(payload, (i + 1) * chunkBytes)
  {
    TimesDistributes(i, 1, chunkBytes);
    var from, to := i * chunkBytes, (i + 1) * chunkBytes;
    assert from < |payload| <= to ==> payload[..from] + payload[from..] == payload;
    assert to < |payload| ==> payload[..from] + payload[from..to] == payload[..to];
  }

  /** Every index of a transfer of so many frames is among the frames. */
  ghost predicate AllScanned(frames: seq<string>, count: nat) { forall k :: 0 <= k < count ==> k in Indices(frames) }

  lemma SlicesWhole(payload: seq<Byte>, chunkBytes: nat, frames: seq<string>, count: nat)
    ensures var chunks := Slices(payload, chunkBytes, Indices(frames));
      && (Whole(chunks, count) <==> AllScanned(frames, count))
      && (Whole(chunks, count) ==> AreSlices(payload, chunkBytes, chunks, count))
  {
    var chunks := Slices(payload, chunkBytes, Indices(frames));
    assert chunks.Keys == Indices(frames);
    hide Indices, Slice;
  }

  /** Frames of one payload, in any order and with any repeats, assemble to the payload if every index
      is among them, and are reported incomplete if one is missing. */
  lemma AssembleFramed(sha: Sha, kind: Kind, payload: seq<Byte>, chunkBytes: nat, frames: seq<string>)
    requires 0 < chunkBytes && Framable(payload, chunkBytes) && FramesOf(sha, kind, payload, chunkBytes, frames)
    ensures Assembled(sha, kind, frames)
         == if AllScanned(frames, FrameCount(|payload|, chunkBytes)) then Ok(payload) else Err(IncompleteTransfer)
  {
    var count := FrameCount(|payload|, chunkBytes);
    var chunks := Slices(payload, chunkBytes, Indices(frames));
    assert 0 < |payload| <= MAX_TRANSFER_BYTES;
    hide *;
    FrameCountIs(|payload|, chunkBytes, count);
    GatherFramed(sha, kind, payload, chunkBytes, frames);
    GatheredBelow(kind, frames);
    SlicesWhole(payload, chunkBytes, frames, count);
    if frames == [] {
      NoneScanned(frames, count);
      AssembledIs(sha, kind, frames, None, chunks);
    } else {
      AssembledIs(sha, kind, frames, Some(Transfer(sha(payload), count)), chunks);
      CountMeansWhole(chunks, count);
      if Whole(chunks, count) {
        JoinSlices(payload, chunkBytes, chunks, count);
        AllBytes(payload, count * chunkBytes);
      }
    }
  }

  lemma AllBytes(payload: seq<Byte>, n: int)
    requires |payload| <= n
    ensures FirstBytes(payload, n) == payload
  {
  }

  /** What is assembled of what was gathered. */
  lemma AssembledIs(sha: Sha, kind: Kind, frames: seq<string>, transfer: Option<Transfer>, chunks: map<nat, seq<Byte>>)
    requires Gather(kind, frames) == Ok(Gathered(transfer, chunks))
    ensures transfer.None? || |chunks| != transfer.value.count ==> Assembled(sha, kind, frames) == Err(IncompleteTransfer)
    ensures transfer.Some? && |chunks| == transfer.value.count && Whole(chunks, transfer.value.count) ==>
      var payload := Join(chunks, transfer.value.count);
      |payload| <= MAX_TRANSFER_BYTES && transfer.value.hash == sha(payload) ==> Assembled(sha, kind, frames) == Ok(payload)
    ensures Assembled(sha, kind, frames).Ok? ==>
      && transfer.Some? && Whole(chunks, transfer.value.count)
      && transfer.value.hash == sha(Assembled(sha, kind, frames).value)
  {
    hide Gather, Whole, Join;
  }

  lemma NoneScanned(frames: seq<string>, count: nat)
    requires frames == [] && 0 < count
    ensures !AllScanned(frames, count)
  {
    NoIndices(frames);
    assert 0 !in Indices(frames);
  }

  /** Whatever is assembled matches the digest every frame declares. */
  lemma {:induction false} GatheredHash(expected: Kind, frames: seq<string>, i: nat)
    requires Gather(expected, frames).Ok? && i < |frames|
    ensures Parseable(frames[i]) && ParsedOf(frames[i]).kind == expected
    ensures Gather(expected, frames).value.transfer == Some(Transfer(ParsedOf(frames[i]).hash, ParsedOf(frames[i]).count))
    decreases |frames|
  {
    if i < |frames| - 1 { GatheredHash(expected, frames[..|frames| - 1], i); }
    hide Parseable, ParsedOf;
  }

  lemma {:induction false} GatheredKeys(expected: Kind, frames: seq<string>)
    requires Gather(expected, frames).Ok?
    ensures Gather(expected, frames).value.chunks.Keys == Indices(frames)
    decreases |frames|
  {
    hide Parseable, ParsedOf;
    if frames == [] {
      NoIndices(frames);
    } else {
      var before, last := frames[..|frames| - 1], frames[|frames| - 1];
      assert frames == before + [last];
      hide Indices;
      AddedKey(expected, frames);
      GatheredKeys(expected, before);
      LastIndex(before, last);
    }
  }

  lemma AddedKey(expected: Kind, frames: seq<string>)
    requires Gather(expected, frames).Ok? && frames != []
    ensures var before, last := frames[..|frames| - 1], frames[|frames| - 1];
      && Gather(expected, before).Ok? && Parseable(last)
      && Gather(expected, frames).value.chunks.Keys == Gather(expected, before).value.chunks.Keys + {IndexOf(last)}
  {
    hide Parseable, ParsedOf;
  }

  /** Every gathered frame's chunk is kept under its index. */
  lemma {:induction false} GatheredChunk(expected: Kind, frames: seq<string>, i: nat)
    requires Gather(expected, frames).Ok? && i < |frames|
    ensures Parseable(frames[i])
    ensures var f, g := ParsedOf(frames[i]), Gather(expected, frames).value; f.index in g.chunks && g.chunks[f.index] == f.chunk
    decreases |frames|
  {
    if i < |frames| - 1 { GatheredChunk(expected, frames[..|frames| - 1], i); }
    hide Parseable, ParsedOf;
  }

  /** The first frame that does not go with those before it ends the transfer, with the code of its fault:
      no frame of this kind, of another transfer, or another chunk under an index scanned before. */
  lemma NextFrameFaults(sha: Sha, expected: Kind, frames: seq<string>, t: string, i: nat)
    requires Gather(expected, frames).Ok? && i < |frames|
    ensures Parseable(frames[i])
    ensures !Parseable(t) || ParsedOf(t).kind != expected ==> Assembled(sha, expected, frames + [t]) == Err(InvalidFrame)
    ensures Parseable(t) && ParsedOf(t).kind == expected ==>
      var f, g := ParsedOf(frames[i]), ParsedOf(t);
      && (g.hash != f.hash || g.count != f.count ==> Assembled(sha, expected, frames + [t]) == Err(MixedTransfer))
      && (g.hash == f.hash && g.count == f.count && g.index == f.index && g.chunk != f.chunk ==>
            Assembled(sha, expected, frames + [t]) == Err(ConflictingFrame))
  {
    GatheredHash(expected, frames, i);
    GatheredChunk(expected, frames, i);
    var all := frames + [t];
    assert all[..|all| - 1] == frames && all[|all| - 1] == t;
    hide Parseable, ParsedOf, Whole, Join;
  }

  /** Whatever frames are assembled: all agree on kind, digest and count, every index below the count
      was scanned, and the bytes returned match the digest. */
  lemma AssembledMatches(sha: Sha, expected: Kind, frames: seq<string>, i: nat)
    requires Assembled(sha, expected, frames).Ok? && i < |frames|
    ensures Parseable(frames[i]) && ParsedOf(frames[i]).kind == expected && AllScanned(frames, ParsedOf(frames[i]).count)
    ensures ParsedOf(frames[i]).hash == sha(Assembled(sha, expected, frames).value)
    ensures forall j :: 0 <= j < |frames| && Parseable(frames[j]) && ParsedOf(frames[j]).index == ParsedOf(frames[i]).index ==>
              ParsedOf(frames[j]).chunk == ParsedOf(frames[i]).chunk
  {
    var g := Gather(expected, frames);
    assert g.Ok?;
    hide *;
    AssembledIs(sha, expected, frames, g.value.transfer, g.value.chunks);
    GatheredHash(expected, frames, i);
    GatheredKeys(expected, frames);
    WholeMeansScanned(frames, g.value.chunks, ParsedOf(frames[i]).count);
    GatheredChunk(expected, frames, i);
    forall j | 0 <= j < |frames| && Parseable(frames[j]) && ParsedOf(frames[j]).index == ParsedOf(frames[i]).index
      ensures ParsedOf(frames[j]).chunk == ParsedOf(frames[i]).chunk
    {
      GatheredChunk(expected, frames, j);
    }
  }

  lemma WholeMeansScanned(frames: seq<string>, chunks: map<nat, seq<Byte>>, count: nat)
    requires chunks.Keys == Indices(frames) && Whole(chunks, count)
    ensures AllScanned(frames, count)
  {
    hide Indices;
  }

  /** A legal bundle can be framed exactly when its length is at most 128 chunks, and at the default
      chunk size of 480 bytes every one can. */
  lemma BundleFrames(b: BundleRecord, chunkBytes: nat)
    requires BundleFits(b) && 64 <= chunkBytes <= 1024
    ensures Framable(EncodeBundle(b), chunkBytes)
       <==> HEADER_LENGTH + CREDENTIAL_LENGTH * |b.credentials| <= MAX_FRAME_COUNT * chunkBytes
    ensures Framable(EncodeBundle(b), 480) && Framable(EncodeBundle(b), 1024)
  {
    BundleLength(b);
    FrameCountIs(|EncodeBundle(b)|, chunkBytes, MAX_FRAME_COUNT);
    FrameCountIs(|EncodeBundle(b)|, 480, MAX_FRAME_COUNT);
    FrameCountIs(|EncodeBundle(b)|, 1024, MAX_FRAME_COUNT);
    hide EncodeBundle, FrameCount;
  }

  /** sendCredential then receiveCredential: scanning at least one of each frame, in any order, gives
      the bundle back. */
  method ReceiveCredential(sha: Sha, b: BundleRecord, chunkBytes: nat, frames: seq<string>) returns (r: TransferResult<BundleRecord>)
    requires BundleFits(b) && 64 <= chunkBytes <= 1024 && Framable(EncodeBundle(b), chunkBytes)
    requires FramesOf(sha, CredentialBundle, EncodeBundle(b), chunkBytes, frames)
    ensures r == if AllScanned(frames, FrameCount(|EncodeBundle(b)|, chunkBytes)) then Ok(b) else Err(IncompleteTransfer)
  {
    ghost var payload := EncodeBundle(b);
    AssembleFramed(sha, CredentialBundle, payload, chunkBytes, frames);
    hide EncodeBundle, FrameCount, FramesOf, Framable, Indices, Assembled, BundleFits, AllScanned;
    var assembled := Assemble(sha, CredentialBundle, frames);
    if assembled.Err? { return Err(assembled.error); }
    var bundle := DecodeBundle(assembled.value);
    if bundle.None? { return Err(InvalidPayload); }
    BundlesInjective(b, bundle.value);
    r := Ok(bundle.value);
  }
}
