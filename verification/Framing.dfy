/** One direction of a connection: senders on one end, the byte stream between, and the reader on the other end. What
    the operating system answers to a read or write is a parameter. */
module Framing {
  import opened Common

  const MAX_PDU := 0xa0_0000
  const HEADER := 4

  /** connection::charbuf. A write buffer holds the whole PDU; a read buffer what has arrived of it. */
  datatype CharBuf = CharBuf(buf: Option<Bytes>, sz: int, solong: int)

  const NO_BUF := CharBuf(None, 0, 0)

  datatype WriteOutcome = Wrote(n: nat) | WriteBlocks | WriteFails

  /** The answer to reading the size, and to reading the rest. A read of nothing counts as failed, unless errno
      says EAGAIN. */
  datatype SizeOutcome = SizeBytes(got: Bytes) | SizeFails

  datatype BodyOutcome = BodyBytes(got: Bytes) | BodyBlocks | BodyFails

  // ---------------------------------------------------------------------------------------------
  // Frames
  // ---------------------------------------------------------------------------------------------

  /** A buffer a caller may send: it has room for the size, and its length is an int. */
  predicate Sendable(pdu: Bytes) {
    HEADER <= |pdu| < TWO_TO_THE_31
  }

  /** writepdu puts the total length over the first four bytes. */
  function Stamp(pdu: Bytes): (f: Bytes)
    requires Sendable(pdu)
    ensures |f| == |pdu|
  {
    Be32(|pdu|) + pdu[HEADER..]
  }

  predicate IsFrame(f: Bytes) {
    Sendable(f) && FromBe32(f[..HEADER]) == |f|
  }

  function Flat(fs: seq<Bytes>): Bytes {
    if fs == [] then [] else Flat(fs[..|fs| - 1]) + fs[|fs| - 1]
  }

  ghost predicate AllFrames(fs: seq<Bytes>) {
    forall i :: 0 <= i < |fs| ==> IsFrame(fs[i])
  }

  lemma StampIsFrame(pdu: Bytes)
    requires Sendable(pdu)
    ensures IsFrame(Stamp(pdu)) && Stamp(Stamp(pdu)) == Stamp(pdu) && Stamp(pdu)[HEADER..] == pdu[HEADER..]
  {
    Be32Decodes(|pdu|);
    assert Stamp(pdu)[..HEADER] == Be32(|pdu|);
  }

  lemma FlatOne(fs: seq<Bytes>, f: Bytes)
    ensures Flat(fs + [f]) == Flat(fs) + f
  {
    assert (fs + [f])[..|fs|] == fs;
  }

  lemma {:induction false} FlatSplit(fs: seq<Bytes>, k: nat)
    requires k <= |fs|
    ensures Flat(fs) == Flat(fs[..k]) + Flat(fs[k..])
    decreases |fs| - k
  {
    if k == |fs| {
      assert fs[..k] == fs;
    } else if |fs| - k == 1 {
      assert fs[..k] + [fs[k]] == fs && fs[k..] == [fs[k]];
      FlatOne(fs[..k], fs[k]);
      FlatOne([], fs[k]);
    } else {
      var n := |fs| - 1;
      FlatSplit(fs[..n], k);
      assert fs[..n][..k] == fs[..k] && fs[..n][k..] == fs[k..][..n - k];
    }
  }

  /** Frames delimit themselves: complete frames read off a stream of frames are the frames that were written. */
  lemma {:induction false} FramesAreDelimited(read: seq<Bytes>, written: seq<Bytes>)
    requires AllFrames(read) && AllFrames(written) && Flat(read) <= Flat(written)
    ensures read <= written
    decreases |read|
  {
    if read != [] {
      var n := |read| - 1;
      var before, f := read[..n], read[n];
      assert read == before + [f];
      FlatOne(before, f);
      FramesAreDelimited(before, written);
      var rest := written[n..];
      FlatSplit(written, n);
      assert written[..n] == before;
      PrefixCancels(Flat(before), f, Flat(rest));
      FirstFrame(f, rest);
    }
  }

  lemma PrefixCancels(a: Bytes, x: Bytes, y: Bytes)
    requires a + x <= a + y
    ensures x <= y
  {
    assert forall i :: 0 <= i < |x| ==> x[i] == (a + x)[|a| + i] && (a + y)[|a| + i] == y[i];
  }

  lemma FirstFrame(f: Bytes, fs: seq<Bytes>)
    requires IsFrame(f) && AllFrames(fs) && f <= Flat(fs)
    ensures fs != [] && fs[0] == f
  {
    var g := fs[0];
    FlatSplit(fs, 1);
    FlatOne([], g);
    assert fs[..1] == [g];
    assert f[..HEADER] == g[..HEADER];
  }

  // ---------------------------------------------------------------------------------------------
  // The sending end
  // ---------------------------------------------------------------------------------------------

  datatype Tx = Tx(
    dead: bool,
    wpdu: CharBuf,
    wire: Bytes,          // history: every byte the socket took
    sent: seq<Bytes>)     // history: the frames whose senders got the write buffer, in that order

  predicate Writable(w: CharBuf) {
    w.buf.Some? && Sendable(w.buf.value) && w.sz == |w.buf.value| && 0 <= w.solong <= w.sz
  }

  predicate WriteFits(w: CharBuf, o: WriteOutcome) {
    o.Wrote? ==> o.n <= w.sz - w.solong
  }

  /** connection::writepdu. */
  function WritePdu(t: Tx, o: WriteOutcome): (bool, Tx)
    requires Writable(t.wpdu) && WriteFits(t.wpdu, o)
  {
    var w := t.wpdu;
    if w.solong == w.sz then (true, t)
    else
      var b := if w.solong == 0 then Stamp(w.buf.value) else w.buf.value;
      match o
      case Wrote(n) =>
        (true, t.(wpdu := CharBuf(Some(b), w.sz, w.solong + n), wire := t.wire + b[w.solong..w.solong + n]))
      case WriteBlocks => (true, t.(wpdu := CharBuf(Some(b), w.sz, w.solong)))
      case WriteFails => (false, t.(wpdu := CharBuf(Some(b), 0, -1)))
  }

  /** connection::send once the write buffer is its own: fill it and write for the first time. */
  function TakeSlot(t: Tx, pdu: Bytes, o: WriteOutcome): Tx
    requires Sendable(pdu) && (o.Wrote? ==> o.n <= |pdu|)
  {
    var filled := t.(wpdu := CharBuf(Some(pdu), |pdu|, 0), sent := t.sent + [Stamp(pdu)]);
    var (ok, t') := WritePdu(filled, o);
    if ok then t' else t'.(dead := true)
  }

  /** The loop test of send's second wait, negated. */
  predicate Flushed(t: Tx) {
    t.dead || t.wpdu.solong < 0 || t.wpdu.sz <= t.wpdu.solong
  }

  /** The end of connection::send. */
  function SendResult(t: Tx): bool {
    !t.dead && t.wpdu.solong == t.wpdu.sz
  }

  function FreeSlot(t: Tx): Tx {
    t.(wpdu := NO_BUF)
  }

  /** connection::write_cb, which asserts that the connection is not dead. */
  function WriteCb(t: Tx, o: WriteOutcome): Tx
    requires !t.dead && (t.wpdu.sz != 0 ==> Writable(t.wpdu) && WriteFits(t.wpdu, o))
  {
    if t.wpdu.sz == 0 then t
    else
      var (ok, t') := WritePdu(t, o);
      if ok then t' else t'.(dead := true)
  }

  /** Does write_cb signal the sender that waits for its bytes to go out? */
  predicate WriteCbSignals(t: Tx, o: WriteOutcome)
    requires !t.dead && (t.wpdu.sz != 0 ==> Writable(t.wpdu) && WriteFits(t.wpdu, o))
  {
    t.wpdu.sz != 0 && var (ok, t') := WritePdu(t, o); !ok || t'.wpdu.sz <= t'.wpdu.solong
  }

  /** The wire carries the frames of the senders one after the other, up to where the present one has got. */
  ghost predicate TxOk(t: Tx) {
    && AllFrames(t.sent)
    && match t.wpdu.buf
       case None =>
         && t.wpdu == NO_BUF && t.wire <= Flat(t.sent)
         && (!t.dead ==> t.wire == Flat(t.sent))
       case Some(b) =>
         && t.sent != [] && Sendable(b) && Stamp(b) == t.sent[|t.sent| - 1]
         && (t.wpdu.solong != 0 ==> b == Stamp(b))
         && var before := Flat(t.sent[..|t.sent| - 1]);
            if t.wpdu.solong == -1 then
              t.dead && t.wpdu.sz == 0 && before <= t.wire <= Flat(t.sent)
            else
              Writable(t.wpdu) && t.wire == before + Stamp(b)[..t.wpdu.solong]
  }

  lemma WireGrows(before: Bytes, f: Bytes, k: nat, n: nat)
    requires k + n <= |f|
    ensures (before + f[..k]) + f[k..k + n] == before + f[..k + n]
    ensures before + f[..k] <= before + f[..k + n] <= before + f
  {
    assert f[..k] + f[k..k + n] == f[..k + n];
    assert f[..k + n] + f[k + n..] == f;
    assert before + f == (before + f[..k + n]) + f[k + n..];
  }

  lemma WroteOk(t: Tx, n: nat)
    requires TxOk(t) && !t.dead && Writable(t.wpdu) && t.wpdu.solong + n <= t.wpdu.sz
    ensures var b, k := t.wpdu.buf.value, t.wpdu.solong;
      var f := Stamp(b);
      var t' := t.(wpdu := CharBuf(Some(f), t.wpdu.sz, k + n), wire := t.wire + f[k..k + n]);
      TxOk(t') && t.wire <= t'.wire && (k != 0 ==> b == f)
  {
    var b, k := t.wpdu.buf.value, t.wpdu.solong;
    StampIsFrame(b);
    WireGrows(Flat(t.sent[..|t.sent| - 1]), Stamp(b), k, n);
    hide Stamp, FromBe32, AllFrames, IsFrame, Flat;
  }

  lemma WriteFailedOk(t: Tx)
    requires TxOk(t) && !t.dead && Writable(t.wpdu)
    ensures TxOk(t.(dead := true, wpdu := CharBuf(Some(Stamp(t.wpdu.buf.value)), 0, -1)))
  {
    var b, k := t.wpdu.buf.value, t.wpdu.solong;
    StampIsFrame(b);
    WireGrows(Flat(t.sent[..|t.sent| - 1]), Stamp(b), k, 0);
    hide Stamp, FromBe32, AllFrames, IsFrame;
    assert Flat(t.sent) == Flat(t.sent[..|t.sent| - 1]) + Stamp(b);
  }

  lemma WritePduOk(t: Tx, o: WriteOutcome)
    requires TxOk(t) && !t.dead && Writable(t.wpdu) && WriteFits(t.wpdu, o)
    ensures var (ok, t') := WritePdu(t, o);
            && TxOk(if ok then t' else t'.(dead := true))
            && t'.sent == t.sent && t.wire <= t'.wire && t'.wpdu.buf.Some? && !t'.dead
  {
    hide TxOk, Stamp, Sendable;
    var k := t.wpdu.solong;
    match o
    case Wrote(n) => WroteOk(t, n);
    case WriteBlocks =>
      WroteOk(t, 0);
      assert t.wire + Stamp(t.wpdu.buf.value)[k..k] == t.wire;
    case WriteFails =>
      WroteOk(t, 0);
      WriteFailedOk(t);
  }

  lemma TakeSlotOk(t: Tx, pdu: Bytes, o: WriteOutcome)
    requires TxOk(t) && !t.dead && t.wpdu.buf.None? && Sendable(pdu) && (o.Wrote? ==> o.n <= |pdu|)
    ensures var t' := TakeSlot(t, pdu, o);
            TxOk(t') && t'.wpdu.buf.Some? && t'.sent == t.sent + [Stamp(pdu)] && t.wire <= t'.wire
  {
    StampIsFrame(pdu);
    var filled := t.(wpdu := CharBuf(Some(pdu), |pdu|, 0), sent := t.sent + [Stamp(pdu)]);
    assert filled.sent[..|t.sent|] == t.sent;
    assert Stamp(pdu)[..0] == [];
    assert TxOk(filled);
    WritePduOk(filled, o);
  }

  /** What the result of send means: true only if the whole frame is on the wire. */
  lemma FreeSlotOk(t: Tx)
    requires TxOk(t) && t.wpdu.buf.Some? && Flushed(t)
    ensures TxOk(FreeSlot(t))
    ensures SendResult(t) ==> t.wire == Flat(t.sent)
  {
    var f := t.sent[|t.sent| - 1];
    var before := Flat(t.sent[..|t.sent| - 1]);
    assert Flat(t.sent) == before + f;
    if t.wpdu.solong >= 0 {
      hide Stamp;
      WireGrows(before, f, t.wpdu.solong, 0);
      assert f[..|f|] == f;
    }
  }

  lemma WriteCbOk(t: Tx, o: WriteOutcome)
    requires TxOk(t) && !t.dead && (t.wpdu.sz != 0 ==> Writable(t.wpdu) && WriteFits(t.wpdu, o))
    ensures var t' := WriteCb(t, o);
            TxOk(t') && t'.sent == t.sent && t.wire <= t'.wire && (t'.wpdu.buf.Some? <==> t.wpdu.buf.Some?)
  {
    if t.wpdu.sz != 0 {
      WritePduOk(t, o);
    }
  }

  // ---------------------------------------------------------------------------------------------
  // The reading end
  // ---------------------------------------------------------------------------------------------

  /** One upcall got_pdu with a complete PDU, and whether the upper layer took it. */
  datatype Offer = Offer(pdu: Bytes, taken: bool)

  datatype Rx = Rx(
    dead: bool,
    rpdu: CharBuf,
    consumed: nat,            // history: how many bytes of the stream have been read
    offers: seq<Offer>)       // history

  /** ntohl into an int. */
  function ToInt(s: Bytes): int
    requires |s| == HEADER
  {
    if FromBe32(s) < TWO_TO_THE_31 then FromBe32(s) else FromBe32(s) - TWO_TO_THE_32
  }

  /** The first part of connection::readpdu: the size, in one read or not at all. */
  function ReadSize(r: Rx, h: SizeOutcome): (bool, Rx) {
    match h
    case SizeFails => (false, r)
    case SizeBytes(got) =>
      var r' := r.(consumed := r.consumed + |got|);
      if |got| != HEADER || ToInt(got) > MAX_PDU then (false, r')
      else (true, r'.(rpdu := CharBuf(Some(got), ToInt(got), HEADER)))
  }

  function SoFar(c: CharBuf): Bytes {
    if c.buf.Some? then c.buf.value else []
  }

  /** The second part: as much of the rest as there is. */
  function ReadBody(r: Rx, b: BodyOutcome): (bool, Rx) {
    match b
    case BodyBlocks => (true, r)
    case BodyFails => (false, r.(rpdu := NO_BUF))
    case BodyBytes(got) =>
      (true, r.(consumed := r.consumed + |got|,
                rpdu := CharBuf(Some(SoFar(r.rpdu) + got), r.rpdu.sz, r.rpdu.solong + |got|)))
  }

  /** The first part runs when no size is known yet. */
  function AfterSize(r: Rx, h: SizeOutcome): (bool, Rx) {
    if r.rpdu.sz == 0 then ReadSize(r, h) else (true, r)
  }

  function ReadPdu(r: Rx, h: SizeOutcome, b: BodyOutcome): (bool, Rx) {
    var (ok, r') := AfterSize(r, h);
    if ok then ReadBody(r', b) else (false, r')
  }

  /** The bytes read are the next ones of the stream, some but no more than asked for. */
  predicate NextBytes(wire: Bytes, from: nat, got: Bytes, most: int) {
    from <= |wire| && 1 <= |got| <= most && got <= wire[from..]
  }

  predicate Arrives(r: Rx, wire: Bytes, h: SizeOutcome, b: BodyOutcome) {
    && (r.rpdu.sz == 0 && h.SizeBytes? ==> NextBytes(wire, r.consumed, h.got, HEADER))
    && var (ok, r') := AfterSize(r, h);
       ok && b.BodyBytes? ==> NextBytes(wire, r'.consumed, b.got, r'.rpdu.sz - r'.rpdu.solong)
  }

  predicate Complete(r: Rx) {
    r.rpdu.buf.Some? && r.rpdu.sz == r.rpdu.solong
  }

  predicate WantsMore(r: Rx) {
    r.rpdu.buf.None? || r.rpdu.solong < r.rpdu.sz
  }

  /** connection::read_cb; `take` is what the upper layer will answer to an upcall. */
  function ReadCb(r: Rx, h: SizeOutcome, b: BodyOutcome, take: bool): Rx {
    if r.dead then r
    else
      var (ok, r1) := if WantsMore(r) then ReadPdu(r, h, b) else (true, r);
      var r2 := if ok then r1 else r1.(dead := true);
      if Complete(r2) then
        r2.(offers := r2.offers + [Offer(r2.rpdu.buf.value, take)], rpdu := if take then NO_BUF else r2.rpdu)
      else r2
  }

  function Accepted(offers: seq<Offer>): seq<Bytes> {
    if offers == [] then []
    else
      var before, last := Accepted(offers[..|offers| - 1]), offers[|offers| - 1];
      if last.taken then before + [last.pdu] else before
  }

  /** Every upcall offers a frame, and the stream continues with it after the frames accepted so far. */
  ghost predicate OfferOk(offers: seq<Offer>, i: nat, wire: Bytes)
    requires i < |offers|
  {
    IsFrame(offers[i].pdu) && Flat(Accepted(offers[..i])) + offers[i].pdu <= wire
  }

  /** What has been read is the accepted frames, and the beginning of one more. */
  ghost predicate RxOk(r: Rx, wire: Bytes) {
    && r.consumed <= |wire|
    && AllFrames(Accepted(r.offers)) && Flat(Accepted(r.offers)) <= wire
    && (forall i :: 0 <= i < |r.offers| ==> OfferOk(r.offers, i, wire))
    && (r.rpdu.buf.None? ==> r.rpdu == NO_BUF)
    && (r.rpdu.buf.Some? ==>
          var x := r.rpdu.buf.value;
          |x| >= HEADER && r.rpdu.solong == |x| && r.rpdu.sz == ToInt(x[..HEADER]) <= MAX_PDU)
    && (!r.dead ==> wire[..r.consumed] == Flat(Accepted(r.offers)) + SoFar(r.rpdu))
  }

  lemma Advance(wire: Bytes, from: nat, got: Bytes, most: int)
    requires NextBytes(wire, from, got, most)
    ensures from + |got| <= |wire| && wire[..from + |got|] == wire[..from] + got
  {
    assert wire == wire[..from] + wire[from..];
    assert wire[from..][..|got|] == got;
  }

  lemma AfterSizeOk(r: Rx, wire: Bytes, h: SizeOutcome)
    requires RxOk(r, wire) && !r.dead && WantsMore(r)
    requires r.rpdu.sz == 0 && h.SizeBytes? ==> NextBytes(wire, r.consumed, h.got, HEADER)
    ensures var (ok, r') := AfterSize(r, h);
            RxOk(if ok then r' else r'.(dead := true), wire) && r'.offers == r.offers
            && (ok ==> r'.rpdu.buf.Some? && !r'.dead) && (!ok ==> r'.rpdu == NO_BUF)
  {
    if r.rpdu.sz == 0 && h.SizeBytes? {
      Advance(wire, r.consumed, h.got, HEADER);
    }
  }

  lemma ReadBodyOk(r: Rx, wire: Bytes, b: BodyOutcome)
    requires RxOk(r, wire) && !r.dead && r.rpdu.buf.Some?
    requires b.BodyBytes? ==> NextBytes(wire, r.consumed, b.got, r.rpdu.sz - r.rpdu.solong)
    ensures var (ok, r') := ReadBody(r, b);
            RxOk(if ok then r' else r'.(dead := true), wire) && r'.offers == r.offers && (!ok ==> r'.rpdu == NO_BUF)
            && (ok ==> !r'.dead)
  {
    if b.BodyBytes? {
      Advance(wire, r.consumed, b.got, r.rpdu.sz - r.rpdu.solong);
      var x := r.rpdu.buf.value;
      assert (x + b.got)[..HEADER] == x[..HEADER];
      assert (Flat(Accepted(r.offers)) + x) + b.got == Flat(Accepted(r.offers)) + (x + b.got);
    }
  }

  /** An upcall with a complete PDU: taken it joins the accepted ones, refused it stays where it is. */
  lemma OfferKeeps(r: Rx, wire: Bytes, take: bool)
    requires RxOk(r, wire) && !r.dead && Complete(r)
    ensures RxOk(r.(offers := r.offers + [Offer(r.rpdu.buf.value, take)], rpdu := if take then NO_BUF else r.rpdu), wire)
  {
    var x := r.rpdu.buf.value;
    var offers := r.offers + [Offer(x, take)];
    assert offers[..|r.offers|] == r.offers;
    assert IsFrame(x);
    FlatOne(Accepted(r.offers), x);
    assert wire == wire[..r.consumed] + wire[r.consumed..];
    forall i | 0 <= i < |offers| ensures OfferOk(offers, i, wire) {
      if i < |r.offers| {
        assert OfferOk(r.offers, i, wire);
        assert offers[..i] == r.offers[..i];
      }
    }
    if take {
      assert wire[..r.consumed] == Flat(Accepted(offers)) + [];
    }
  }

  lemma ReadCbOk(r: Rx, wire: Bytes, h: SizeOutcome, b: BodyOutcome, take: bool)
    requires RxOk(r, wire) && (!r.dead && WantsMore(r) ==> Arrives(r, wire, h, b))
    ensures RxOk(ReadCb(r, h, b, take), wire)
  {
    if !r.dead {
      hide RxOk;
      if WantsMore(r) {
        AfterSizeOk(r, wire, h);
        var (ok, r') := AfterSize(r, h);
        if ok {
          ReadBodyOk(r', wire, b);
        }
      }
      var (ok, r1) := if WantsMore(r) then ReadPdu(r, h, b) else (true, r);
      if ok && Complete(r1) {
        OfferKeeps(r1, wire, take);
      }
    }
  }

  lemma WireGrowsOk(r: Rx, wire: Bytes, wire': Bytes)
    requires RxOk(r, wire) && wire <= wire'
    ensures RxOk(r, wire')
  {
    assert wire'[..r.consumed] == wire[..r.consumed];
    forall i | 0 <= i < |r.offers| ensures OfferOk(r.offers, i, wire') {
      assert OfferOk(r.offers, i, wire);
    }
  }

  // ---------------------------------------------------------------------------------------------
  // The connection object
  // ---------------------------------------------------------------------------------------------

  /** The sending and the reading half of one connection, with the fields of the source. */
  class Connection {
    var dead: bool
    var waiters: nat
    var wbuf: Option<Bytes>
    var wsz: int
    var wsolong: int
    var rbuf: Option<Bytes>
    var rsz: int
    var rsolong: int
    ghost var wire: Bytes
    ghost var sent: seq<Bytes>
    ghost var consumed: nat
    ghost var offers: seq<Offer>

    ghost function Sending(): Tx
      reads this
    {
      Tx(dead, CharBuf(wbuf, wsz, wsolong), wire, sent)
    }

    ghost function Reading(): Rx
      reads this
    {
      Rx(dead, CharBuf(rbuf, rsz, rsolong), consumed, offers)
    }

    constructor ()
      ensures Sending() == Tx(false, NO_BUF, [], []) && Reading() == Rx(false, NO_BUF, 0, [])
    {
      dead, waiters := false, 0;
      wbuf, wsz, wsolong := None, 0, 0;
      rbuf, rsz, rsolong := None, 0, 0;
      wire, sent, consumed, offers := [], [], 0, [];
    }

    /** connection::writepdu; `o` is what write() answers. */
    method WriteSome(o: WriteOutcome) returns (ok: bool)
      requires Writable(Sending().wpdu) && WriteFits(Sending().wpdu, o)
      modifies this`wbuf, this`wsz, this`wsolong, this`wire
      ensures (ok, Sending()) == WritePdu(old(Sending()), o)
    {
      if wsolong == wsz {
        return true;
      }
      if wsolong == 0 {
        wbuf := Some(Be32(wsz) + wbuf.value[HEADER..]);
      }
      match o
      case WriteFails =>
        wsolong := -1;
        wsz := 0;
        return false;
      case WriteBlocks =>
        return true;
      case Wrote(n) =>
        wire := wire + wbuf.value[wsolong..wsolong + n];
        wsolong := wsolong + n;
        return true;
    }

    /** The loop test of connection::send's first wait, by a sender that comes in or comes back from the wait. */
    method TestSlot(woken: bool) returns (wait: bool)
      requires woken ==> waiters > 0
      modifies this`waiters
      ensures wait == (!dead && wbuf.Some?)
      ensures waiters == old(waiters) + (if woken then 0 else 1) - (if wait then 0 else 1)
    {
      if !woken {
        waiters := waiters + 1;
      }
      wait := !dead && wbuf.Some?;
      if !wait {
        waiters := waiters - 1;
      }
    }

    /** connection::send from the end of its first wait to its second wait or its end. */
    method SendInSlot(pdu: Bytes, o: WriteOutcome)
      requires Sendable(pdu) && (o.Wrote? ==> o.n <= |pdu|)
      modifies this`dead, this`wbuf, this`wsz, this`wsolong, this`wire, this`sent
      ensures Sending() == TakeSlot(old(Sending()), pdu, o)
    {
      wbuf, wsz, wsolong := Some(pdu), |pdu|, 0;
      sent := sent + [Stamp(pdu)];
      var ok := WriteSome(o);
      if !ok {
        dead := true;
      }
    }

    /** The end of connection::send: the result, and whether the senders in the first wait are woken. */
    method SendEnds() returns (ret: bool, broadcast: bool)
      modifies this`wbuf, this`wsz, this`wsolong
      ensures ret == SendResult(old(Sending())) && Sending() == FreeSlot(old(Sending()))
      ensures broadcast == (waiters > 0)
    {
      ret := !dead && wsolong == wsz;
      wsolong, wsz := 0, 0;
      wbuf := None;
      broadcast := waiters > 0;
    }

    /** connection::write_cb; does it signal send_complete_? */
    method WriteCallback(o: WriteOutcome) returns (signal: bool)
      requires !dead && (wsz != 0 ==> Writable(Sending().wpdu) && WriteFits(Sending().wpdu, o))
      modifies this`dead, this`wbuf, this`wsz, this`wsolong, this`wire
      ensures Sending() == WriteCb(old(Sending()), o)
      ensures signal == WriteCbSignals(old(Sending()), o)
    {
      if wsz == 0 {
        return false;
      }
      var ok := WriteSome(o);
      if !ok {
        dead := true;
      } else if wsolong < wsz {
        return false;
      }
      return true;
    }

    /** connection::readpdu; `h` and `b` are what the two reads answer. */
    method ReadSome(h: SizeOutcome, b: BodyOutcome) returns (ok: bool)
      modifies this`rbuf, this`rsz, this`rsolong, this`consumed
      ensures (ok, Reading()) == ReadPdu(old(Reading()), h, b)
    {
      if rsz == 0 {
        match h {
          case SizeFails => return false;
          case SizeBytes(got) =>
            consumed := consumed + |got|;
            if |got| != HEADER {
              return false;
            }
            var size := ToInt(got);
            if size > MAX_PDU {
              return false;
            }
            rsz := size;
            rbuf := Some(got);
            rsolong := HEADER;
        }
      }
      match b
      case BodyBlocks =>
        return true;
      case BodyFails =>
        rbuf := None;
        rsz, rsolong := 0, 0;
        return false;
      case BodyBytes(got) =>
        consumed := consumed + |got|;
        rbuf := Some((if rbuf.Some? then rbuf.value else []) + got);
        rsolong := rsolong + |got|;
        return true;
    }

    /** connection::read_cb; `take` is what the upper layer answers to got_pdu. When it fails, and only then, it gives
        its callbacks up and signals send_complete_. */
    method ReadCallback(h: SizeOutcome, b: BodyOutcome, take: bool) returns (signal: bool)
      modifies this`dead, this`rbuf, this`rsz, this`rsolong, this`consumed, this`offers
      ensures Reading() == ReadCb(old(Reading()), h, b, take)
      ensures signal == (dead && !old(dead))
    {
      signal := false;
      if dead {
        return;
      }
      var succ := true;
      if rbuf.None? || rsolong < rsz {
        succ := ReadSome(h, b);
      }
      if !succ {
        dead, signal := true, true;
      }
      if rbuf.Some? && rsz == rsolong {
        offers := offers + [Offer(rbuf.value, take)];
        if take {
          rbuf := None;
          rsz, rsolong := 0, 0;
        }
      }
    }
  }
}
