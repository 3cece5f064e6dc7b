/** The parts of Node's `Buffer` the audio code uses: unsigned little-endian
    field writes and reads, and ASCII tags. A buffer is an array of bytes. */
module Bytes {
  type byte = x: int | 0 <= x < 256

  const Two16: int := 0x1_0000
  const Two32: int := 0x1_0000_0000

  /** The two bytes `writeUInt16LE(v)` stores. */
  function LE16(v: int): (r: seq<byte>)
    requires 0 <= v < Two16
    ensures |r| == 2
  {
    [v % 256, v / 256]
  }

  /** The four bytes `writeUInt32LE(v)` stores. */
  function LE32(v: int): (r: seq<byte>)
    requires 0 <= v < Two32
    ensures |r| == 4
  {
    [v % 256, v / 256 % 256, v / 0x1_0000 % 256, v / 0x100_0000]
  }

  /** `readUInt16LE(offset)`. */
  function ReadUInt16LE(s: seq<byte>, offset: nat): (r: int)
    requires offset + 2 <= |s|
    ensures 0 <= r < Two16
  {
    s[offset] as int + 256 * s[offset + 1] as int
  }

  /** `readUInt32LE(offset)`. */
  function ReadUInt32LE(s: seq<byte>, offset: nat): (r: int)
    requires offset + 4 <= |s|
    ensures 0 <= r < Two32
  {
    s[offset] as int + 256 * s[offset + 1] as int + 0x1_0000 * s[offset + 2] as int + 0x100_0000 * s[offset + 3] as int
  }

  /** Reading a 16-bit field gives back the value written. */
  lemma ReadLE16(v: int)
    requires 0 <= v < Two16
    ensures ReadUInt16LE(LE16(v), 0) == v
  {
  }

  /** Reading a 32-bit field gives back the value written. */
  lemma ReadLE32(v: int)
    requires 0 <= v < Two32
    ensures ReadUInt32LE(LE32(v), 0) == v
  {
    var a, b, c, d := v % 256, v / 256 % 256, v / 0x1_0000 % 256, v / 0x100_0000;
    assert v / 0x1_0000 == (v / 256) / 256;
    assert v / 0x100_0000 == (v / 0x1_0000) / 256;
    assert v == a + 256 * (v / 256);
    assert v / 256 == b + 256 * (v / 0x1_0000);
    assert v / 0x1_0000 == c + 256 * d;
  }

  /** A read at `offset` sees only the bytes at that offset. */
  lemma ReadAt(s: seq<byte>, t: seq<byte>, offset: nat)
    requires offset + |t| <= |s| && s[offset..offset + |t|] == t
    ensures |t| == 2 ==> ReadUInt16LE(s, offset) == ReadUInt16LE(t, 0)
    ensures |t| == 4 ==> ReadUInt32LE(s, offset) == ReadUInt32LE(t, 0)
  {
    assert forall k :: 0 <= k < |t| ==> s[offset + k] == t[k];
  }

  predicate IsAscii(s: string) {
    forall i :: 0 <= i < |s| ==> s[i] as int < 128
  }

  /** The bytes `write(s)` stores for an ASCII string. */
  function Ascii(s: string): (r: seq<byte>)
    requires IsAscii(s)
    ensures |r| == |s| && forall i :: 0 <= i < |s| ==> r[i] == s[i] as int
  {
    seq(|s|, i requires 0 <= i < |s| => s[i] as int)
  }

  /** Stores `s` at `offset`, leaving the other bytes as they were. */
  method Write(buf: array<byte>, s: seq<byte>, offset: nat)
    requires offset + |s| <= buf.Length
    modifies buf
    ensures buf[..offset + |s|] == old(buf[..offset]) + s
    ensures buf[offset + |s|..] == old(buf[offset + |s|..])
  {
    ghost var before := buf[..];
    for k := 0 to |s|
      invariant buf[..] == before[..offset] + s[..k] + before[offset + k..]
    {
      buf[offset + k] := s[k];
      assert buf[..] == before[..offset] + s[..k + 1] + before[offset + k + 1..];
    }
    assert buf[..offset + |s|] == (buf[..])[..offset + |s|];
    assert buf[offset + |s|..] == (buf[..])[offset + |s|..];
  }

  method WriteUInt16LE(buf: array<byte>, v: int, offset: nat)
    requires 0 <= v < Two16 && offset + 2 <= buf.Length
    modifies buf
    ensures buf[..offset + 2] == old(buf[..offset]) + LE16(v)
    ensures buf[offset + 2..] == old(buf[offset + 2..])
  {
    Write(buf, LE16(v), offset);
  }

  method WriteUInt32LE(buf: array<byte>, v: int, offset: nat)
    requires 0 <= v < Two32 && offset + 4 <= buf.Length
    modifies buf
    ensures buf[..offset + 4] == old(buf[..offset]) + LE32(v)
    ensures buf[offset + 4..] == old(buf[offset + 4..])
  {
    Write(buf, LE32(v), offset);
  }

  function TotalLength(chunks: seq<seq<byte>>): nat {
    if |chunks| == 0 then 0 else TotalLength(chunks[..|chunks| - 1]) + |chunks[|chunks| - 1]|
  }

  /** `Buffer.concat(chunks)`. */
  function Flatten(chunks: seq<seq<byte>>): (r: seq<byte>)
    ensures |r| == TotalLength(chunks)
  {
    if |chunks| == 0 then [] else Flatten(chunks[..|chunks| - 1]) + chunks[|chunks| - 1]
  }

  lemma {:induction false} FlattenCons(c: seq<byte>, chunks: seq<seq<byte>>)
    ensures Flatten([c] + chunks) == c + Flatten(chunks)
    decreases |chunks|
  {
    if |chunks| > 0 {
      var init := chunks[..|chunks| - 1];
      FlattenCons(c, init);
      assert ([c] + chunks)[..|chunks|] == [c] + init;
      assert (c + Flatten(init)) + chunks[|chunks| - 1] == c + (Flatten(init) + chunks[|chunks| - 1]);
    } else {
      assert [c] + chunks == [c];
      assert [c][..0] == [];
    }
  }
}
