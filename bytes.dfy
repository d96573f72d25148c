// Little-endian byte images of the 16- and 32-bit words the EVE host code
// sends over the wire, as the C++ side sees them (uint8_t bytes).
module Bytes {

  /** A byte of device memory or of a command buffer. */
  type byte = bv8

  function Le16(h: bv16): (r: seq<byte>)
    ensures |r| == 2
    ensures Dec16(r) == h
  {
    [(h & 0xFF) as byte, (h >> 8) as byte]
  }

  function Dec16(s: seq<byte>): bv16
    requires |s| >= 2
  {
    (s[0] as bv16) | ((s[1] as bv16) << 8)
  }

  function Le32(w: bv32): (r: seq<byte>)
    ensures |r| == 4
  {
    [(w & 0xFF) as byte, ((w >> 8) & 0xFF) as byte, ((w >> 16) & 0xFF) as byte, (w >> 24) as byte]
  }

  /** The four bytes decode back to the word. */
  lemma {:induction false} Le32Decodes(w: bv32)
    ensures Dec32(Le32(w)) == w
  {
  }

  /** The uint32_t that sits in the first four bytes of `s`. */
  function Dec32(s: seq<byte>): bv32
    requires |s| >= 4
  {
    (s[0] as bv32) | ((s[1] as bv32) << 8) | ((s[2] as bv32) << 16) | ((s[3] as bv32) << 24)
  }

  /** Decoding a word at byte offset `off` of a larger image. */
  function U32At(s: seq<byte>, off: nat): bv32
    requires off + 4 <= |s|
  {
    Dec32(s[off..off + 4])
  }

  function U16At(s: seq<byte>, off: nat): bv16
    requires off + 2 <= |s|
  {
    Dec16(s[off..off + 2])
  }

  lemma {:induction false} Le32Injective(a: bv32, b: bv32)
    ensures Le32(a) == Le32(b) <==> a == b
  {
    if Le32(a) == Le32(b) {
      Le32Decodes(a);
      Le32Decodes(b);
    }
  }

  lemma {:induction false} Dec32Le32(s: seq<byte>)
    requires |s| == 4
    ensures Le32(Dec32(s)) == s
  {
  }

  /** The `width`-bit field of `w` that starts at bit `lo`. */
  function Bits(w: bv32, lo: bv32, width: bv32): bv32
    requires lo <= 32 && width <= 32 - lo
  {
    (w >> lo) & (((1 as bv32) << width) - 1)
  }

  function Zeros(n: nat): (r: seq<byte>)
    ensures |r| == n
    ensures forall i :: 0 <= i < n ==> r[i] == 0
  {
    seq(n, _ => 0)
  }

  /** The little-endian bytes of a uint32_t array, as `write(addr, array, sizeof(array))` sends them. */
  function Words(ws: seq<bv32>): (r: seq<byte>)
    ensures |r| == 4 * |ws|
  {
    if ws == [] then [] else Le32(ws[0]) + Words(ws[1..])
  }

  /** Word `k` of the array decodes from bytes `4k` to `4k + 4` of its image. */
  lemma {:induction false} WordsDecode(ws: seq<bv32>)
    ensures forall k :: 0 <= k < |ws| ==> U32At(Words(ws), 4 * k) == ws[k]
    decreases |ws|
  {
    if ws != [] {
      WordsDecode(ws[1..]);
      var rest := Words(ws[1..]);
      var r := Words(ws);
      assert r == Le32(ws[0]) + rest;
      forall k | 0 <= k < |ws|
        ensures U32At(r, 4 * k) == ws[k]
      {
        if k == 0 {
          assert r[0..4] == Le32(ws[0]);
          Le32Decodes(ws[0]);
        } else {
          assert r[4 * k..4 * k + 4] == rest[4 * (k - 1)..4 * (k - 1) + 4];
        }
      }
    }
  }

  /** Appending one word to a word array appends its four little-endian bytes. */
  lemma {:induction false} WordsSnoc(ws: seq<bv32>, w: bv32)
    ensures Words(ws + [w]) == Words(ws) + Le32(w)
    decreases |ws|
  {
    if ws == [] {
      assert ws + [w] == [w];
    } else {
      assert (ws + [w])[1..] == ws[1..] + [w];
      WordsSnoc(ws[1..], w);
    }
  }

  /** A four-byte image is the little-endian encoding of the word it decodes to. */
  lemma {:induction false} WordImage(img: seq<byte>)
    requires |img| == 4
    ensures img == Le32(U32At(img, 0))
  {
    assert img[0..4] == img;
    Dec32Le32(img);
  }
}
