/** The bulk channel's binary frames: packages/core/src/framing.ts. */
module Framing {
  import opened Basics

  newtype Byte = x: int | 0 <= x < 256

  type Bytes = seq<Byte>

  const MAX_UINT32: nat := 0xff_ff_ff_ff

  const CHUNK_HEADER_BYTES: nat := 8

  const DEFAULT_CHUNK_BYTES: nat := 64 * 1024

  datatype ChunkFrame = ChunkFrame(transferSeq: nat, chunkIndex: nat, payload: Bytes)

  /** Big-endian. */
  function Uint32Bytes(n: nat): (b: Bytes)
    requires n <= MAX_UINT32
    ensures |b| == 4
  {
    [(n / 0x100_0000) as Byte, (n / 0x1_0000 % 0x100) as Byte, (n / 0x100 % 0x100) as Byte, (n % 0x100) as Byte]
  }

  function Uint32At(b: Bytes, offset: nat): (n: nat)
    requires offset + 4 <= |b|
    ensures n <= MAX_UINT32
  {
    b[offset] as nat * 0x100_0000 + b[offset + 1] as nat * 0x1_0000 + b[offset + 2] as nat * 0x100 + b[offset + 3] as nat
  }

  /** The wire layout: four bytes of transfer, four of index, then the payload. */
  function WireFrame(f: ChunkFrame): Bytes
    requires f.transferSeq <= MAX_UINT32 && f.chunkIndex <= MAX_UINT32
  {
    Uint32Bytes(f.transferSeq) + Uint32Bytes(f.chunkIndex) + f.payload
  }

  /** Writes `b` into the buffer from `offset` on. */
  method Blit(buffer: array<Byte>, offset: nat, b: Bytes)
    requires offset + |b| <= buffer.Length
    modifies buffer
    ensures buffer[..] == old(buffer[..offset]) + b + old(buffer[offset + |b|..])
  {
    for i := 0 to |b|
      invariant buffer[..offset] == old(buffer[..offset])
      invariant buffer[offset..offset + i] == b[..i]
      invariant buffer[offset + i..] == old(buffer[offset + i..])
    {
      buffer[offset + i] := b[i];
      assert buffer[offset..offset + i + 1] == buffer[offset..offset + i] + [b[i]];
      assert buffer[offset + i + 1..] == old(buffer[offset + i..])[1..];
    }
    assert buffer[..] == buffer[..offset] + buffer[offset..offset + |b|] + buffer[offset + |b|..];
  }

  /** Fails exactly when a header field does not fit in 32 bits. */
  method EncodeChunkFrame(f: ChunkFrame) returns (frame: Option<Bytes>)
    ensures frame.Some? <==> f.transferSeq <= MAX_UINT32 && f.chunkIndex <= MAX_UINT32
    ensures frame.Some? ==> frame.value == WireFrame(f)
  {
    if f.transferSeq > MAX_UINT32 || f.chunkIndex > MAX_UINT32 {
      return None;
    }
    var buffer := new Byte[CHUNK_HEADER_BYTES + |f.payload|];
    Blit(buffer, 0, Uint32Bytes(f.transferSeq));
    Blit(buffer, 4, Uint32Bytes(f.chunkIndex));
    Blit(buffer, CHUNK_HEADER_BYTES, f.payload);
    frame := Some(buffer[..]);
  }

  function DecodeChunkFrame(frame: Bytes): Option<ChunkFrame> {
    if |frame| < CHUNK_HEADER_BYTES then None
    else Some(ChunkFrame(Uint32At(frame, 0), Uint32At(frame, 4), frame[CHUNK_HEADER_BYTES..]))
  }

  lemma Uint32RoundTrip(n: nat)
    requires n <= MAX_UINT32
    ensures Uint32At(Uint32Bytes(n), 0) == n
  {
    var b3, b2, b1 := n / 0x100_0000, n / 0x1_0000, n / 0x100;
    assert b1 / 0x100 == b2 && b2 / 0x100 == b3;
  }

  lemma Uint32Unique(a: nat, b: Bytes, offset: nat)
    requires offset + 4 <= |b| && a == Uint32At(b, offset)
    ensures Uint32Bytes(a) == b[offset..offset + 4]
  {
    var w, x, y, z := b[offset] as nat, b[offset + 1] as nat, b[offset + 2] as nat, b[offset + 3] as nat;
    assert a / 0x100 == w * 0x1_0000 + x * 0x100 + y && a % 0x100 == z;
    assert a / 0x1_0000 == w * 0x100 + x;
    assert a / 0x100_0000 == w;
  }

  /** Every frame with 32-bit header fields comes back from the wire unchanged. */
  lemma FrameRoundTrip(f: ChunkFrame)
    requires f.transferSeq <= MAX_UINT32 && f.chunkIndex <= MAX_UINT32
    ensures DecodeChunkFrame(WireFrame(f)) == Some(f)
  {
    var wire := WireFrame(f);
    Uint32RoundTrip(f.transferSeq);
    Uint32RoundTrip(f.chunkIndex);
    assert wire[0..4] == Uint32Bytes(f.transferSeq);
    assert wire[4..8] == Uint32Bytes(f.chunkIndex);
    assert Uint32At(wire, 4) == Uint32At(Uint32Bytes(f.chunkIndex), 0);
    assert Uint32At(wire, 0) == Uint32At(Uint32Bytes(f.transferSeq), 0);
  }

  /** Whatever decodes was the wire form of what it decodes to; only short frames are refused. */
  lemma WireRoundTrip(b: Bytes)
    ensures DecodeChunkFrame(b).Some? <==> |b| >= CHUNK_HEADER_BYTES
    ensures DecodeChunkFrame(b).Some? ==>
      var f := DecodeChunkFrame(b).value;
      f.transferSeq <= MAX_UINT32 && f.chunkIndex <= MAX_UINT32 && WireFrame(f) == b
  {
    if |b| >= CHUNK_HEADER_BYTES {
      Uint32Unique(Uint32At(b, 0), b, 0);
      Uint32Unique(Uint32At(b, 4), b, 4);
      assert b == b[0..4] + b[4..8] + b[8..];
    }
  }
}
