/** The buffers: marshall, a growing array with room for a header in front, and unmarshall, which reads one. */
module Marshalling {
  import opened Common
  import opened Codec
  import Framing

  const DEFAULT_RPC_SZ := 1024
  const RPC_HEADER_SZ := 24
  const SIZE_SZ := 4

  // --- a packet as bytes ---

  /** `x` written over `b` at `i`. */
  function Overlay(b: Bytes, i: nat, x: Bytes): (r: Bytes)
    requires i + |x| <= |b|
    ensures |r| == |b| && r[i..i + |x|] == x && r[..i] == b[..i] && r[i + |x|..] == b[i + |x|..]
  {
    b[..i] + x + b[i + |x|..]
  }

  datatype ReqHeader = ReqHeader(xid: uint32, proc: uint32, cltNonce: uint32, srvNonce: uint32, xidRep: uint32)

  datatype ReplyHeader = ReplyHeader(xid: uint32, ret: uint32)

  function ReqBytes(h: ReqHeader): (x: Bytes)
    ensures |x| == 20
  {
    Big(4, h.xid) + Big(4, h.proc) + Big(4, h.cltNonce) + Big(4, h.srvNonce) + Big(4, h.xidRep)
  }

  function ReplyBytes(h: ReplyHeader): (x: Bytes)
    ensures |x| == 8
  {
    Big(4, h.xid) + Big(4, h.ret)
  }

  function PackReq(b: Bytes, h: ReqHeader): Bytes
    requires |b| >= RPC_HEADER_SZ
  {
    Overlay(b, SIZE_SZ, ReqBytes(h))
  }

  function PackReply(b: Bytes, h: ReplyHeader): Bytes
    requires |b| >= RPC_HEADER_SZ
  {
    Overlay(b, SIZE_SZ, ReplyBytes(h))
  }

  function UnpackReq(b: Bytes): (ReqHeader, Stream) {
    var (a0, s0) := GetNum(4, Stream(b, SIZE_SZ, true));
    var (a1, s1) := GetNum(4, s0);
    var (a2, s2) := GetNum(4, s1);
    var (a3, s3) := GetNum(4, s2);
    var (a4, s4) := GetNum(4, s3);
    (ReqHeader(a0, a1, a2, a3, a4), s4.(ind := RPC_HEADER_SZ))
  }

  function UnpackReply(b: Bytes): (ReplyHeader, Stream) {
    var (a0, s0) := GetNum(4, Stream(b, SIZE_SZ, true));
    var (a1, s1) := GetNum(4, s0);
    (ReplyHeader(a0, a1), s1.(ind := RPC_HEADER_SZ))
  }

  /** unmarshall::take_in, from a packet whose header has been read. */
  function TakeIn(b: Bytes): Stream {
    Stream(b, RPC_HEADER_SZ, |b| >= RPC_HEADER_SZ)
  }

  lemma {:induction false} BigIsBe32(n: uint32)
    ensures Big(4, n) == Be32(n) && Pow256(4) == TWO_TO_THE_32
  {
    var q: int := n;
    assert Big(1, q / 0x100_0000) == [q / 0x100_0000];
    assert q / 0x100 / 0x100 == q / 0x1_0000 && q / 0x1_0000 / 0x100 == q / 0x100_0000;
    assert Big(2, q / 0x1_0000) == [q / 0x100_0000, q / 0x1_0000 % 0x100];
    assert Big(3, q / 0x100) == [q / 0x100_0000, q / 0x1_0000 % 0x100, q / 0x100 % 0x100];
  }

  /** Neither of two writes to different places undoes the other, so their order does not matter. */
  lemma OverlaysCommute(b: Bytes, i: nat, x: Bytes, j: nat, y: Bytes)
    requires i + |x| <= j && j + |y| <= |b|
    ensures Overlay(Overlay(b, i, x), j, y) == Overlay(Overlay(b, j, y), i, x)
  {
    var l, r := Overlay(Overlay(b, i, x), j, y), Overlay(Overlay(b, j, y), i, x);
    forall k | 0 <= k < |b| ensures l[k] == r[k] {
      OverlayAt(b, i, x, k);
      OverlayAt(b, j, y, k);
      OverlayAt(Overlay(b, i, x), j, y, k);
      OverlayAt(Overlay(b, j, y), i, x, k);
    }
  }

  lemma OverlayAt(b: Bytes, i: nat, x: Bytes, k: nat)
    requires i + |x| <= |b| && k < |b|
    ensures Overlay(b, i, x)[k] == if i <= k < i + |x| then x[k - i] else b[k]
  {
  }

  lemma StampIsOverlay(b: Bytes)
    requires Framing.Sendable(b)
    ensures Framing.Stamp(b) == Overlay(b, 0, Be32(|b|))
  {
  }

  // --- a request and a reply, end to end ---

  /** A header over the first 24 bytes leaves the body alone, and so does the size; the two may be written in either
      order, before or after the body. */
  lemma HeaderLeavesBody(b: Bytes, body: Bytes, h: ReqHeader, r: ReplyHeader)
    requires |b| == RPC_HEADER_SZ && |b + body| < TWO_TO_THE_31
    ensures PackReq(b + body, h) == PackReq(b, h) + body
    ensures PackReply(b + body, r) == PackReply(b, r) + body
    ensures Framing.Stamp(PackReq(b + body, h)) == PackReq(Framing.Stamp(b + body), h)
    ensures Framing.Stamp(PackReply(b + body, r)) == PackReply(Framing.Stamp(b + body), r)
    ensures Framing.Stamp(b + body)[RPC_HEADER_SZ..] == body
  {
    OverlayInFront(b, body, SIZE_SZ, ReqBytes(h));
    OverlayInFront(b, body, SIZE_SZ, ReplyBytes(r));
    var n := Be32(|b + body|);
    OverlaysCommute(b + body, 0, n, SIZE_SZ, ReqBytes(h));
    OverlaysCommute(b + body, 0, n, SIZE_SZ, ReplyBytes(r));
    StampIsOverlay(b + body);
    StampIsOverlay(PackReq(b + body, h));
    StampIsOverlay(PackReply(b + body, r));
  }

  /** Where everything is on the wire: the size, and behind it the fields of a header, four bytes each, most
      significant first; and the body at byte 24. */
  lemma WireLayout(b: Bytes, body: Bytes, h: ReqHeader, r: ReplyHeader)
    requires |b| == RPC_HEADER_SZ && |b + body| < TWO_TO_THE_31
    ensures var p := Framing.Stamp(PackReq(b + body, h));
      && FromBe32(p[..4]) == |p| && p[24..] == body
      && p[4..8] == Be32(h.xid) && p[8..12] == Be32(h.proc) && p[12..16] == Be32(h.cltNonce)
      && p[16..20] == Be32(h.srvNonce) && p[20..24] == Be32(h.xidRep)
    ensures var p := Framing.Stamp(PackReply(b + body, r));
      && FromBe32(p[..4]) == |p| && p[24..] == body && p[4..8] == Be32(r.xid) && p[8..12] == Be32(r.ret)
  {
    BigIsBe32(h.xid);
    BigIsBe32(h.proc);
    BigIsBe32(h.cltNonce);
    BigIsBe32(h.srvNonce);
    BigIsBe32(h.xidRep);
    BigIsBe32(r.xid);
    BigIsBe32(r.ret);
    HeaderLeavesBody(b, body, h, r);
    LayoutOf(PackReq(b + body, h), ReqBytes(h));
    LayoutOf(PackReply(b + body, r), ReplyBytes(r));
    var x, y := ReqBytes(h), ReplyBytes(r);
    hide Be32, Big, FromBe32, Framing.Stamp, Overlay;
    var p, q := Framing.Stamp(PackReq(b + body, h)), Framing.Stamp(PackReply(b + body, r));
    assert p[4..24] == x && q[4..12] == y;
    assert p[4..8] == x[..4] && p[8..12] == x[4..8] && p[12..16] == x[8..12] && p[16..20] == x[12..16];
    assert p[20..24] == x[16..] && q[4..8] == y[..4] && q[8..12] == y[4..];
    assert x[..4] == Be32(h.xid) && x[4..8] == Be32(h.proc) && x[8..12] == Be32(h.cltNonce);
    assert x[12..16] == Be32(h.srvNonce) && x[16..20] == Be32(h.xidRep);
    assert y[..4] == Be32(r.xid) && y[4..8] == Be32(r.ret);
  }

  lemma LayoutOf(p: Bytes, x: Bytes)
    requires RPC_HEADER_SZ <= |p| < TWO_TO_THE_31 && SIZE_SZ + |x| <= RPC_HEADER_SZ && p[SIZE_SZ..SIZE_SZ + |x|] == x
    ensures var q := Framing.Stamp(p);
      FromBe32(q[..4]) == |q| && q[4..] == p[4..] && q[4..4 + |x|] == x
  {
    Framing.StampIsFrame(p);
    hide Framing.Stamp, FromBe32;
    var q := Framing.Stamp(p);
    assert q[4..][..|x|] == p[4..][..|x|];
  }

  lemma OverlayInFront(b: Bytes, body: Bytes, i: nat, x: Bytes)
    requires i + |x| <= |b|
    ensures Overlay(b + body, i, x) == Overlay(b, i, x) + body
  {
    var l, r := Overlay(b + body, i, x), Overlay(b, i, x) + body;
    forall k | 0 <= k < |b + body| ensures l[k] == r[k] {
      OverlayAt(b + body, i, x, k);
      if k < |b| { OverlayAt(b, i, x, k); }
    }
  }

  lemma ReqHeaderReads(b: Bytes, h: ReqHeader)
    requires |b| >= RPC_HEADER_SZ && b[SIZE_SZ..RPC_HEADER_SZ] == ReqBytes(h)
    ensures UnpackReq(b) == (h, Stream(b, RPC_HEADER_SZ, true))
  {
    var a0, a1, a2, a3, a4 := Big(4, h.xid), Big(4, h.proc), Big(4, h.cltNonce), Big(4, h.srvNonce), Big(4, h.xidRep);
    BigIsBe32(0);
    var s := Stream(b, SIZE_SZ, true);
    NextSplit(s, a0 + a1 + a2 + a3, a4);
    NextSplit(s, a0 + a1 + a2, a3);
    NextSplit(s, a0 + a1, a2);
    NextSplit(s, a0, a1);
    NumRoundTrip(4, h.xid, s);
    NumRoundTrip(4, h.proc, Skip(s, 4));
    NumRoundTrip(4, h.cltNonce, Skip(s, 8));
    NumRoundTrip(4, h.srvNonce, Skip(s, 12));
    NumRoundTrip(4, h.xidRep, Skip(s, 16));
    hide Big, GetNum, Next, ReqBytes;
  }

  lemma ReplyHeaderReads(b: Bytes, h: ReplyHeader)
    requires |b| >= RPC_HEADER_SZ && b[SIZE_SZ..SIZE_SZ + 8] == ReplyBytes(h)
    ensures UnpackReply(b) == (h, Stream(b, RPC_HEADER_SZ, true))
  {
    var a0, a1 := Big(4, h.xid), Big(4, h.ret);
    BigIsBe32(0);
    var s := Stream(b, SIZE_SZ, true);
    NextSplit(s, a0, a1);
    NumRoundTrip(4, h.xid, s);
    NumRoundTrip(4, h.ret, Skip(s, 4));
    hide Big, GetNum, Next;
  }

  /** A packet that is too short for its header is noticed, and no other. */
  lemma ShortHeadersAreNoticed(b: Bytes)
    ensures UnpackReq(b).1.ok <==> |b| >= RPC_HEADER_SZ
    ensures UnpackReply(b).1.ok <==> |b| >= SIZE_SZ + 8
    ensures TakeIn(b).ok <==> UnpackReq(b).1.ok
  {
    var s := Stream(b, SIZE_SZ, true);
    var s0 := GetNum(4, s).1;
    var s1 := GetNum(4, s0).1;
    var s2 := GetNum(4, s1).1;
    var s3 := GetNum(4, s2).1;
    NumIsThere(4, s);
    NumIsThere(4, s0);
    NumIsThere(4, s1);
    NumIsThere(4, s2);
    NumIsThere(4, s3);
    GetNumReadsOn(4, s);
    GetNumReadsOn(4, s0);
    GetNumReadsOn(4, s1);
    GetNumReadsOn(4, s2);
    GetNumReadsOn(4, s3);
    BigIsBe32(0);
    hide GetNum, Big;
  }

  /** What a client packs, the server unpacks: the header, and the arguments, whatever was in the header bytes before.
      */
  lemma RequestArrives(b: Bytes, h: ReqHeader, vs: seq<Value>, ts: seq<Type>)
    requires |b| == RPC_HEADER_SZ && AllTyped(vs, ts) && RPC_HEADER_SZ + |EncAll(vs, ts)| < TWO_TO_THE_31
    ensures var (h', s) := UnpackReq(Framing.Stamp(PackReq(b + EncAll(vs, ts), h)));
      h' == h && s.ok && ReadArgs(ts, s) == Some(vs)
  {
    var body := EncAll(vs, ts);
    var pdu := Framing.Stamp(PackReq(b + body, h));
    HeaderLeavesBody(b, body, h, ReplyHeader(0, 0));
    assert pdu == PackReq(Framing.Stamp(b + body), h);
    assert pdu[SIZE_SZ..RPC_HEADER_SZ] == ReqBytes(h);
    assert pdu[RPC_HEADER_SZ..] == Framing.Stamp(b + body)[RPC_HEADER_SZ..];
    ReqHeaderReads(pdu, h);
    hide Framing.Stamp, PackReq, EncAll, AllTyped, UnpackReq;
    ArgumentsArrive(vs, ts, Stream(pdu, RPC_HEADER_SZ, true));
  }

  /** ... and what the server packs, the client's call returns. */
  lemma ReplyArrives(b: Bytes, h: ReplyHeader, v: Value, t: Type)
    requires |b| == RPC_HEADER_SZ && HasType(v, t) && RPC_HEADER_SZ + |Enc(v, t)| < TWO_TO_THE_31
    ensures var pdu := Framing.Stamp(PackReply(b + Enc(v, t), h));
      && UnpackReply(pdu).0 == h && UnpackReply(pdu).1.ok
      && Dec(t, TakeIn(pdu)).0 == v && OkDone(Dec(t, TakeIn(pdu)).1)
  {
    var body := Enc(v, t);
    var pdu := Framing.Stamp(PackReply(b + body, h));
    HeaderLeavesBody(b, body, ReqHeader(0, 0, 0, 0, 0), h);
    assert pdu == PackReply(Framing.Stamp(b + body), h);
    assert pdu[SIZE_SZ..SIZE_SZ + 8] == ReplyBytes(h);
    assert pdu[RPC_HEADER_SZ..] == body by {
      assert pdu[SIZE_SZ + 8..][12..] == Framing.Stamp(b + body)[SIZE_SZ + 8..][12..];
    }
    ReplyHeaderReads(pdu, h);
    hide Framing.Stamp, PackReply, Enc, HasType, UnpackReply, Dec;
    RoundTrip(v, t, TakeIn(pdu));
  }
}
