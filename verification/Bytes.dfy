/** Little-endian words, as both the messages and the initrd image store them. */
module Bytes {
  import opened Common

  function Le32(w: u32): (bytes: seq<byte>)
    ensures |bytes| == 4
  {
    [w % 256, w / 256 % 256, w / 0x1_0000 % 256, w / 0x100_0000 % 256]
  }

  function FromLe32(bytes: seq<byte>): (w: u32)
    requires |bytes| == 4
  {
    var b0: int, b1: int, b2: int, b3: int := bytes[0], bytes[1], bytes[2], bytes[3];
    b0 + 256 * b1 + 0x1_0000 * b2 + 0x100_0000 * b3
  }

  lemma Le32RoundTrip(w: u32)
    ensures FromLe32(Le32(w)) == w
  {
    assert w / 0x1_0000 == w / 256 / 256;
    assert w / 0x100_0000 == w / 256 / 256 / 256;
  }
}
