/** Bytes, zero padding and the packed descriptor that the peers exchange. */
module ByteLayout {

  type byte = x: int | 0 <= x < 256

  function Zeros(n: nat): (z: seq<byte>) {
    seq(n, _ => 0)
  }

  /** What `fill_in` leaves in a buffer of `size` bytes: the text, then zeros. */
  function Padded(text: seq<byte>, size: nat): (r: seq<byte>)
    requires |text| <= size
    ensures |r| == size
  {
    text + Zeros(size - |text|)
  }

  lemma PaddedBytes(text: seq<byte>, size: nat)
    requires |text| <= size
    ensures Padded(text, size)[..|text|] == text
    ensures forall i | |text| <= i < size :: Padded(text, size)[i] == 0
  {
  }

  /** Memory `dst` after `src` has landed at its start. */
  function Overlay(dst: seq<byte>, src: seq<byte>): (r: seq<byte>)
    requires |src| <= |dst|
    ensures |r| == |dst| && r[..|src|] == src
  {
    src + dst[|src|..]
  }

  lemma OverlayBytes(dst: seq<byte>, src: seq<byte>)
    requires |src| <= |dst|
    ensures Overlay(dst, src)[..|src|] == src
    ensures forall i | |src| <= i < |dst| :: Overlay(dst, src)[i] == dst[i]
  {
  }

  function Ascii(s: string): (r: seq<byte>)
    ensures |r| == |s|
  {
    seq(|s|, i requires 0 <= i < |s| => s[i] as int % 256)
  }

  // ----- little-endian integers -----

  function Pow256(k: nat): (r: nat)
    ensures r > 0
  {
    if k == 0 then 1 else 256 * Pow256(k - 1)
  }

  function EncodeLE(n: nat, k: nat): (r: seq<byte>)
    ensures |r| == k
  {
    if k == 0 then [] else [n % 256] + EncodeLE(n / 256, k - 1)
  }

  function DecodeLE(s: seq<byte>): nat {
    if s == [] then 0 else s[0] + 256 * DecodeLE(s[1..])
  }

  lemma {:induction false} DecodeEncodeLE(n: nat, k: nat)
    requires n < Pow256(k)
    ensures DecodeLE(EncodeLE(n, k)) == n
  {
    if k > 0 {
      assert n / 256 < Pow256(k - 1);
      DecodeEncodeLE(n / 256, k - 1);
      assert EncodeLE(n, k)[1..] == EncodeLE(n / 256, k - 1);
    }
  }

  /** The number in the four bytes from `at` on, the lowest first. */
  function Quad(s: seq<byte>, at: nat): nat
    requires at + 4 <= |s|
  {
    var a: nat, b: nat, c: nat, d: nat := s[at], s[at + 1], s[at + 2], s[at + 3];
    a + 0x100 * b + 0x1_0000 * c + 0x100_0000 * d
  }

  lemma {:induction false} FourBytes(s: seq<byte>)
    requires |s| >= 4
    ensures DecodeLE(s) == Quad(s, 0) + 0x1_0000_0000 * DecodeLE(s[4..])
  {
    assert s[1..][1..] == s[2..] && s[2..][1..] == s[3..] && s[3..][1..] == s[4..];
    assert DecodeLE(s[2..]) == s[2] + 256 * (s[3] + 256 * DecodeLE(s[4..]));
    assert DecodeLE(s) == s[0] + 256 * (s[1] + 256 * DecodeLE(s[2..]));
  }

  /** A number of four bytes is written with the lowest first, and one of eight as two of four. */
  lemma {:induction false} FourByteNumber(n: nat)
    requires n < Pow256(4)
    ensures Quad(EncodeLE(n, 4), 0) == n
  {
    DecodeEncodeLE(n, 4);
    FourBytes(EncodeLE(n, 4));
  }

  lemma {:induction false} EightByteNumber(n: nat)
    requires n < Pow256(8)
    ensures var s := EncodeLE(n, 8); n == Quad(s, 0) + 0x1_0000_0000 * Quad(s, 4)
  {
    var s := EncodeLE(n, 8);
    DecodeEncodeLE(n, 8);
    FourBytes(s);
    FourBytes(s[4..]);
    assert s[4..][4..] == [];
  }

  // ----- CommDescriptor -----

  /** The three fields of `CommDescriptor` that the receiving side reads. */
  datatype Descriptor = Descriptor(addr: nat, length: nat, rkey: nat) {
    predicate Representable() {
      addr < Pow256(8) && length < Pow256(8) && rkey < Pow256(4)
    }
  }

  const DESCRIPTOR_SIZE: nat := 24

  /** The packed layout: 8 bytes address, 8 bytes length, 4 bytes rkey, 4 bytes fd. */
  function EncodeDescriptor(d: Descriptor, fd: nat): (r: seq<byte>)
    ensures |r| == DESCRIPTOR_SIZE
  {
    EncodeLE(d.addr, 8) + EncodeLE(d.length, 8) + EncodeLE(d.rkey, 4) + EncodeLE(fd, 4)
  }

  function DecodeDescriptor(s: seq<byte>): Descriptor
    requires |s| >= DESCRIPTOR_SIZE
  {
    Descriptor(DecodeLE(s[..8]), DecodeLE(s[8..16]), DecodeLE(s[16..20]))
  }

  /** Whatever follows the descriptor in the buffer, and whatever its `fd_` field holds. */
  lemma DecodeEncodeDescriptor(d: Descriptor, fd: nat, s: seq<byte>)
    requires d.Representable()
    requires |s| >= DESCRIPTOR_SIZE && s[..DESCRIPTOR_SIZE] == EncodeDescriptor(d, fd)
    ensures DecodeDescriptor(s) == d
  {
    var e := s[..DESCRIPTOR_SIZE];
    assert s[..8] == e[..8] == EncodeLE(d.addr, 8);
    assert s[8..16] == e[8..16] == EncodeLE(d.length, 8);
    assert s[16..20] == e[16..20] == EncodeLE(d.rkey, 4);
    DecodeEncodeLE(d.addr, 8);
    DecodeEncodeLE(d.length, 8);
    DecodeEncodeLE(d.rkey, 4);
  }

  /** Where each field is: the address in bytes 0 to 7, the length in 8 to 15, the rkey in 16 to 19,
      each with its lowest byte first. */
  lemma DescriptorLayout(d: Descriptor, fd: nat)
    requires d.Representable()
    ensures var s := EncodeDescriptor(d, fd);
      && |s| == 24
      && d.addr == Quad(s, 0) + 0x1_0000_0000 * Quad(s, 4)
      && d.length == Quad(s, 8) + 0x1_0000_0000 * Quad(s, 12)
      && d.rkey == Quad(s, 16)
  {
    EightByteNumber(d.addr);
    EightByteNumber(d.length);
    FourByteNumber(d.rkey);
  }
}
