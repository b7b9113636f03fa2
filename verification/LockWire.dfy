/** The arguments of acquire and release as the marshalling code treats them: what LockSystem reads is exactly what the
    handler wrapper for (int, unsigned long long) reads, refusals included. */
module LockWire {
  import opened Common
  import opened Codec
  import Buffers
  import Marshalling
  import LockSystem

  const LOCK_TYPES := [TSigned(4), TUnsigned(8)]

  lemma FourBytes(s: Stream)
    requires s.ok && s.ind + 4 <= |s.buf|
    ensures GetNum(4, s) == (FromBe32(s.buf[s.ind..s.ind + 4]) as nat, Skip(s, 4))
  {
    var x := s.buf[s.ind..s.ind + 4];
    Be32Encodes(x);
    Marshalling.BigIsBe32(FromBe32(x));
    NumRoundTrip(4, FromBe32(x), s);
  }

  lemma EightBytes(s: Stream)
    requires s.ok && s.ind + 8 <= |s.buf|
    ensures GetNum(8, s) ==
      (FromBe32(s.buf[s.ind..s.ind + 4]) * TWO_TO_THE_32 + FromBe32(s.buf[s.ind + 4..s.ind + 8]), Skip(s, 8))
  {
    assert Pow256(4) == TWO_TO_THE_32 && Pow256(8) == TWO_TO_THE_32 * TWO_TO_THE_32;
    hide FromBe32, Big, Pow256, Be32, GetNum;
    var x, y := s.buf[s.ind..s.ind + 4], s.buf[s.ind + 4..s.ind + 8];
    var n := FromBe32(x) * TWO_TO_THE_32 + FromBe32(y);
    assert n / TWO_TO_THE_32 == FromBe32(x) && n % TWO_TO_THE_32 == FromBe32(y);
    Be32Encodes(x);
    Be32Encodes(y);
    Marshalling.BigIsBe32(FromBe32(x));
    Marshalling.BigIsBe32(FromBe32(y));
    Buffers.LongBytes(n);
    assert s.buf[s.ind..s.ind + 8] == x + y;
    NumRoundTrip(8, n, s);
  }

  lemma TwoArguments(t: Type, u: Type, s: Stream)
    ensures var (v, s1) := Dec(t, s); var (w, s2) := Dec(u, s1);
      DecAll([t, u], s) == ([v, w], s2)
  {
    hide Dec;
    var none: seq<Type>, one, two := [], [t], [t, u];
    assert two[..1] == one && one[..0] == none;
    assert DecAll(none, s) == ([], s);
    var (v, s1) := Dec(t, s);
    var values: seq<Value> := [];
    assert values + [v] == [v] && [v] + [Dec(u, s1).0] == [v, Dec(u, s1).0];
    assert DecAll(one, s) == (values + [v], s1);
    var (w, s2) := Dec(u, s1);
    assert DecAll(two, s) == ([v] + [w], s2);
  }

  lemma WrapperReadsLockArgs(args: Bytes)
    ensures ReadArgs(LOCK_TYPES, Stream(args, 0, true)) ==
      match LockSystem.ReadLockArgs(args)
      case None => None
      case Some(a) => Some([Num(FromPattern(4, a.0)), Num(a.1)])
  {
    var s := Stream(args, 0, true);
    var (p, s1) := GetNum(4, s);
    var (q, s2) := GetNum(8, s1);
    TwoArguments(TSigned(4), TUnsigned(8), s);
    GetNumReadsOn(4, s);
    GetNumReadsOn(8, s1);
    if |args| == 12 {
      FourBytes(s);
      EightBytes(s1);
    }
    hide GetNum, DecAll;
  }
}
