/** The server's hand-written WebSocket framing: the outbound text frame that
    `client.send` writes, and the inbound unmasking done on every `data`
    chunk. A reference parser for the base framing of section 5.2 of
    RFC 6455 (with the masking of section 5.3) is the yardstick both are
    measured against. */
module Frames {
  import opened JsonValue

  /** One octet. Bitwise operations on octets are spelled out arithmetically:
      `b & 0x7F` is `b % 128`, `b & 0x80` is `b / 128`, and `^` is Xor. */
  type byte = x: int | 0 <= x < 256

  function Pow2(n: nat): (p: nat)
    ensures p >= 1
  {
    if n == 0 then 1 else 2 * Pow2(n - 1)
  }

  /** The XOR of the low `n` bits of `a` and `b`. */
  function XorBits(a: nat, b: nat, n: nat): (r: nat)
    ensures r < Pow2(n)
  {
    if n == 0 then 0 else 2 * XorBits(a / 2, b / 2, n - 1) + (if a % 2 != b % 2 then 1 else 0)
  }

  /** `a ^ b` on two octets. */
  function Xor(a: byte, b: byte): byte {
    XorBits(a, b, 8)
  }

  lemma {:induction false} XorBitsUndo(a: nat, b: nat, n: nat)
    requires a < Pow2(n)
    ensures XorBits(XorBits(a, b, n), b, n) == a
  {
    if n > 0 {
      var x := XorBits(a, b, n);
      var low := XorBits(a / 2, b / 2, n - 1);
      assert x / 2 == low && x % 2 == (if a % 2 != b % 2 then 1 else 0);
      XorBitsUndo(a / 2, b / 2, n - 1);
    }
  }

  /** XOR with the same key byte twice gives the byte back. */
  lemma XorUndo(a: byte, b: byte)
    ensures Xor(Xor(a, b), b) == a
  {
    assert Pow2(8) == 256;
    XorBitsUndo(a, b, 8);
  }

  // ----------------------------------------------------------- outbound frame

  /** `Buffer.concat([header, buffer])` with `header[0] = 0x81` (FIN, text)
      and `header[1] = buffer.length`, which a byte buffer stores modulo 256. */
  function Frame(payload: seq<byte>): (frame: seq<byte>)
    ensures |frame| == 2 + |payload|
    ensures frame[0] == 0x81 && frame[1] == |payload| % 256
    ensures frame[2..] == payload
  {
    [0x81, |payload| % 256] + payload
  }

  // ---------------------------------------------------- reference (RFC 6455)

  /** A frame as section 5.2 of RFC 6455 reads it: the FIN bit, the opcode,
      the MASK bit and the (unmasked) application data. */
  datatype Parsed = Parsed(fin: bool, opcode: int, masked: bool, payload: seq<byte>)

  /** The unsigned big-endian number in `bytes`. */
  function BigEndian(bytes: seq<byte>): nat {
    if bytes == [] then 0 else BigEndian(bytes[..|bytes| - 1]) * 256 + bytes[|bytes| - 1]
  }

  /** XOR of each byte with the key byte at its position modulo 4 (section
      5.3); applying it twice with the same key is the identity. */
  function Mask(data: seq<byte>, key: seq<byte>): (r: seq<byte>)
    requires |key| == 4
    ensures |r| == |data|
  {
    seq(|data|, i requires 0 <= i < |data| => Xor(data[i], key[i % 4]))
  }

  /** Reads exactly one frame: the 7-bit length, the 16- or 64-bit extended
      length when that is 126 or 127, the masking key when the MASK bit is
      set, then exactly the announced number of payload bytes. */
  function ParseFrame(f: seq<byte>): Option<Parsed> {
    if |f| < 2 then None
    else
      var fin := f[0] >= 128;
      var opcode := f[0] % 16;
      var masked := f[1] >= 128;
      var len7 := f[1] % 128;
      var extended := if len7 == 126 then 2 else if len7 == 127 then 8 else 0;
      if |f| < 2 + extended then None
      else
        var length := if extended == 0 then len7 else BigEndian(f[2..2 + extended]);
        var start := 2 + extended + (if masked then 4 else 0);
        if |f| != start + length then None
        else if masked then Some(Parsed(fin, opcode, masked, Mask(f[start..], f[2 + extended..start])))
        else Some(Parsed(fin, opcode, masked, f[start..]))
  }

  /** A frame of at most 125 bytes is what RFC 6455 calls a final, unmasked
      text frame carrying the payload unchanged. */
  lemma FrameIsRfcTextFrame(payload: seq<byte>)
    requires |payload| <= 125
    ensures ParseFrame(Frame(payload)) == Some(Parsed(true, 1, false, payload))
  {
    var f := Frame(payload);
    assert f[2..] == payload;
  }

  /** From 126 bytes on, the single length byte no longer describes the
      payload: an RFC 6455 reader never recovers it as an unmasked text frame. */
  lemma FrameMisreadFrom126(payload: seq<byte>)
    requires |payload| >= 126
    ensures ParseFrame(Frame(payload)) != Some(Parsed(true, 1, false, payload))
  {
    var n := |payload| % 256;
    if n < 126 {
      assert n < |payload|;
    }
  }

  // ------------------------------------------------------------ inbound frame

  /** `data[i]` of a Node buffer, where reading past the end gives undefined
      and undefined behaves as 0 under `&` and `^`. */
  function At(data: seq<byte>, i: nat): byte {
    if i < |data| then data[i] else 0
  }

  /** `data[1] & 127`: the low 7 bits of the second byte. */
  function PayloadLength(data: seq<byte>): (n: nat)
    ensures n <= 127
  {
    At(data, 1) % 128
  }

  /** What the unmasking loop leaves in `payload`: byte i is the byte at
      offset 6 + i XOR the mask byte at offset 2 + (i mod 4). */
  function Unmasked(data: seq<byte>): (p: seq<byte>)
    ensures |p| == PayloadLength(data)
  {
    seq(PayloadLength(data), i requires 0 <= i < PayloadLength(data) =>
      Xor(At(data, 6 + i), At(data, 2 + i % 4)))
  }

  /** The decoding of one `data` chunk: nothing when the 7-bit length is 0,
      otherwise the unmasked payload, written byte by byte into a buffer
      allocated for it. */
  method DecodeFrame(data: array<byte>) returns (message: Option<seq<byte>>)
    ensures message.None? <==> PayloadLength(data[..]) == 0
    ensures message.Some? ==> message.value == Unmasked(data[..])
  {
    var second: byte := if data.Length > 1 then data[1] else 0;
    var payloadLength := second % 128;
    assert payloadLength == PayloadLength(data[..]);
    if payloadLength == 0 {
      return None;
    }
    var payload := new byte[payloadLength];
    var i := 0;
    while i < payloadLength
      invariant 0 <= i <= payloadLength
      invariant forall j :: 0 <= j < i ==> payload[j] == Unmasked(data[..])[j]
    {
      var b: byte := if 6 + i < data.Length then data[6 + i] else 0;
      var m: byte := if 2 + i % 4 < data.Length then data[2 + i % 4] else 0;
      payload[i] := Xor(b, m);
      i := i + 1;
    }
    message := Some(payload[..]);
  }

  /** A client frame as section 5.3 of RFC 6455 prescribes it for a payload
      of at most 125 bytes: first byte, MASK bit with the length, the four
      key bytes, the masked payload. */
  function ClientFrame(first: byte, key: seq<byte>, payload: seq<byte>): (f: seq<byte>)
    requires |key| == 4 && |payload| <= 125
    ensures |f| == 6 + |payload|
  {
    [first, 128 + |payload|] + key + Mask(payload, key)
  }

  /** Unmasking what a client masked gives back the client's bytes, whatever
      the key and whatever the first byte. */
  lemma UnmaskRoundTrip(first: byte, key: seq<byte>, payload: seq<byte>)
    requires |key| == 4 && |payload| <= 125
    ensures Unmasked(ClientFrame(first, key, payload)) == payload
  {
    var f := ClientFrame(first, key, payload);
    assert PayloadLength(f) == |payload|;
    forall i | 0 <= i < |payload| ensures Unmasked(f)[i] == payload[i] {
      assert f[6 + i] == Xor(payload[i], key[i % 4]);
      assert f[2 + i % 4] == key[i % 4];
      XorUndo(payload[i], key[i % 4]);
    }
  }

  /** How the reference parser reads a masked frame with a 7-bit length. */
  lemma ParseShortMasked(f: seq<byte>)
    requires |f| >= 6 && f[1] >= 128 && f[1] % 128 <= 125 && |f| == 6 + f[1] % 128
    ensures ParseFrame(f) == Some(Parsed(f[0] >= 128, f[0] % 16, true, Mask(f[6..], f[2..6])))
  {
  }

  /** The same frame, read by the reference parser, is a masked text frame
      whose data is the client's payload. */
  lemma ClientFrameIsRfcFrame(key: seq<byte>, payload: seq<byte>)
    requires |key| == 4 && |payload| <= 125
    ensures ParseFrame(ClientFrame(0x81, key, payload)) == Some(Parsed(true, 1, true, payload))
  {
    var f := ClientFrame(0x81, key, payload);
    assert f[0] == 0x81 && f[1] == 128 + |payload|;
    assert f[2..6] == key;
    assert f[6..] == Mask(payload, key);
    ParseShortMasked(f);
    MaskTwice(payload, key);
  }

  /** Masking twice with the same key gives back the data (section 5.3). */
  lemma MaskTwice(data: seq<byte>, key: seq<byte>)
    requires |key| == 4
    ensures Mask(Mask(data, key), key) == data
  {
    forall i | 0 <= i < |data| ensures Mask(Mask(data, key), key)[i] == data[i] {
      XorUndo(data[i], key[i % 4]);
    }
  }

  /** On every masked frame of at most 125 bytes, what the server unmasks is
      exactly what RFC 6455 says the frame carries, whatever its FIN bit and
      opcode. */
  lemma UnmaskedAgreesWithRfc(f: seq<byte>)
    requires ParseFrame(f).Some? && ParseFrame(f).value.masked && f[1] % 128 <= 125
    ensures Unmasked(f) == ParseFrame(f).value.payload
  {
    ParseShortMasked(f);
    var key := f[2..6];
    forall i | 0 <= i < |Unmasked(f)| ensures Unmasked(f)[i] == Mask(f[6..], key)[i] {
      assert At(f, 6 + i) == f[6..][i];
      assert At(f, 2 + i % 4) == key[i % 4];
    }
  }
}
