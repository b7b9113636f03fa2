/** Types and big-endian arithmetic shared by every other module. */
module Common {
  datatype Option<+T> = None | Some(value: T)

  type byte = x: int | 0 <= x < 256

  type Bytes = seq<byte>

  const TWO_TO_THE_31 := 0x8000_0000
  const TWO_TO_THE_32 := 0x1_0000_0000

  type uint32 = x: int | 0 <= x < TWO_TO_THE_32

  /** Four bytes, most significant first: what htonl, pack and operator<<(unsigned int) all produce. */
  function Be32(n: uint32): (s: Bytes)
    ensures |s| == 4
  {
    [n / 0x100_0000, n / 0x1_0000 % 0x100, n / 0x100 % 0x100, n % 0x100]
  }

  function FromBe32(s: Bytes): (n: uint32)
    requires |s| == 4
  {
    var b0: int, b1: int, b2: int, b3: int := s[0], s[1], s[2], s[3];
    b0 * 0x100_0000 + b1 * 0x1_0000 + b2 * 0x100 + b3
  }

  lemma Be32Decodes(n: uint32)
    ensures FromBe32(Be32(n)) == n
  {
    var q: int := n;
    var k := q / 0x100;
    var h := k / 0x100;
    assert q / 0x1_0000 == h && q / 0x100_0000 == h / 0x100;
    assert q == k * 0x100 + q % 0x100 && k == h * 0x100 + k % 0x100 && h == h / 0x100 * 0x100 + h % 0x100;
  }

  lemma Be32Encodes(s: Bytes)
    requires |s| == 4
    ensures Be32(FromBe32(s)) == s
  {
    var q: int, b0: int, b1: int, b2: int, b3: int := FromBe32(s), s[0], s[1], s[2], s[3];
    var h: int := b0 * 0x100 + b1;
    var k: int := h * 0x100 + b2;
    assert q == k * 0x100 + b3;
    assert q / 0x100 == k && q % 0x100 == b3;
    assert q / 0x1_0000 == h && k % 0x100 == b2;
    assert q / 0x100_0000 == b0 && h % 0x100 == b1;
  }
}
