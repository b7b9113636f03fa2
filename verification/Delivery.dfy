/** What framing makes happen, where FramingLink says what it keeps from happening: a PDU that has arrived is offered,
    all that a socket takes or gives is accounted for, and send ends as soon as it can and says how. */
module Delivery {
  import opened Common
  import opened Framing
  import opened FramingLink

  // ---------------------------------------------------------------------------------------------
  // The reader
  // ---------------------------------------------------------------------------------------------

  predicate Refused(offers: seq<Offer>) {
    offers != [] && !offers[|offers| - 1].taken
  }

  /** The read buffer never holds more than one PDU, and a whole one exactly while the last upcall was refused. */
  ghost predicate HeldOk(r: Rx) {
    !r.dead ==>
      && (r.rpdu.buf.Some? ==> r.rpdu.solong <= r.rpdu.sz)
      && (Complete(r) <==> Refused(r.offers))
      && (Complete(r) ==> r.offers[|r.offers| - 1].pdu == r.rpdu.buf.value)
  }

  lemma FlatPrefix(fs: seq<Bytes>, n: nat)
    requires n < |fs|
    ensures Flat(fs[..n + 1]) == Flat(fs[..n]) + fs[n]
  {
    assert fs[..n + 1][..n] == fs[..n];
  }

  /** What is on the wire behind the accepted frames is the beginning of the next one. */
  lemma NextOnWire(r: Rx, wire: Bytes, sent: seq<Bytes>, got: Bytes)
    requires RxOk(r, wire) && AllFrames(sent) && wire <= Flat(sent)
    requires got != [] && Flat(Accepted(r.offers)) + got <= wire
    ensures var n := |Accepted(r.offers)|;
      n < |sent| && sent[..n] == Accepted(r.offers)
      && forall i :: 0 <= i < |got| && i < |sent[n]| ==> got[i] == sent[n][i]
  {
    var before := Accepted(r.offers);
    var n := |before|;
    FramesAreDelimited(before, sent);
    FlatSplit(sent, n);
    assert sent[..n] == before;
    PrefixCancels(Flat(before), got, Flat(sent[n..]));
    var rest := sent[n..];
    if rest != [] {
      FlatSplit(rest, 1);
      FlatOne([], rest[0]);
      assert rest[..1] == [rest[0]];
    }
  }

  /** The reader between the frames of the stream: `n` are accepted, and so much of the next is in the buffer. */
  ghost predicate Stands(r: Rx, sent: seq<Bytes>, n: nat) {
    && n <= |sent| && Accepted(r.offers) == sent[..n]
    && r.consumed == |Flat(sent[..n])| + |SoFar(r.rpdu)|
    && (r.rpdu.buf.Some? ==>
          n < |sent| && r.rpdu.sz == |sent[n]| && r.rpdu.solong == |SoFar(r.rpdu)| <= |sent[n]|
          && SoFar(r.rpdu) == sent[n][..|SoFar(r.rpdu)|])
  }

  lemma ReaderStands(r: Rx, wire: Bytes, sent: seq<Bytes>)
    requires RxOk(r, wire) && !r.dead && (r.rpdu.buf.Some? ==> r.rpdu.solong <= r.rpdu.sz)
    requires AllFrames(sent) && wire <= Flat(sent)
    ensures Stands(r, sent, |Accepted(r.offers)|)
  {
    var x, n := SoFar(r.rpdu), |Accepted(r.offers)|;
    assert wire == wire[..r.consumed] + wire[r.consumed..];
    if x == [] {
      FramesAreDelimited(Accepted(r.offers), sent);
    } else {
      NextOnWire(r, wire, sent, x);
      assert IsFrame(sent[n]);
      assert x[..HEADER] == sent[n][..HEADER];
    }
  }

  /** A size that is read is that of the next frame. */
  lemma SizeIsNext(r: Rx, wire: Bytes, sent: seq<Bytes>, got: Bytes)
    requires RxOk(r, wire) && !r.dead && r.rpdu.buf.None? && AllFrames(sent) && wire <= Flat(sent)
    requires NextBytes(wire, r.consumed, got, HEADER) && |got| == HEADER
    ensures var n := |Accepted(r.offers)|; n < |sent| && ToInt(got) == |sent[n]|
  {
    var n := |Accepted(r.offers)|;
    assert wire == wire[..r.consumed] + wire[r.consumed..];
    NextOnWire(r, wire, sent, got);
    assert IsFrame(sent[n]);
    assert got == sent[n][..HEADER];
  }

  /** The bytes up to the end of frame `n` have been read. */
  predicate Whole(consumed: nat, sent: seq<Bytes>, n: nat) {
    n < |sent| && |Flat(sent[..n + 1])| <= consumed
  }

  /** Nothing of frame `n` has been read. */
  predicate Starting(consumed: nat, sent: seq<Bytes>, n: nat)
    requires n <= |sent|
  {
    consumed == |Flat(sent[..n])|
  }

  lemma StandsMeans(r: Rx, sent: seq<Bytes>, n: nat)
    requires Stands(r, sent, n) && (r.rpdu.buf.None? ==> r.rpdu == NO_BUF)
    requires r.rpdu.buf.Some? ==> |r.rpdu.buf.value| >= HEADER
    requires AllFrames(sent)
    ensures Complete(r) <==> Whole(r.consumed, sent, n)
    ensures r.rpdu.buf.None? <==> Starting(r.consumed, sent, n)
    ensures r.rpdu.buf.None? <==> r.rpdu.sz == 0
    ensures Complete(r) ==> r.rpdu.buf.value == sent[n]
    ensures n < |sent| ==> r.consumed <= |Flat(sent[..n + 1])|
  {
    if n < |sent| {
      FlatPrefix(sent, n);
      assert IsFrame(sent[n]);
    }
  }

  /** What the two reads of a turn give. */
  lemma TurnReads(r: Rx, wire: Bytes, sent: seq<Bytes>, h: SizeOutcome, b: BodyOutcome)
    requires RxOk(r, wire) && HeldOk(r) && !r.dead && AllFrames(sent) && wire <= Flat(sent)
    requires WantsMore(r) && Arrives(r, wire, h, b)
    ensures var (ok, r1) := ReadPdu(r, h, b); var starting := r.rpdu.sz == 0;
      && r1.offers == r.offers
      && (ok ==> RxOk(r1, wire) && !r1.dead && r1.rpdu.buf.Some? && r1.rpdu.solong <= r1.rpdu.sz)
      && (!ok ==> r1.rpdu == NO_BUF)
      && (ok <==> (starting ==> h.SizeBytes? && |h.got| == HEADER && ToInt(h.got) <= MAX_PDU) && !b.BodyFails?)
      && r1.consumed == r.consumed + (if starting && h.SizeBytes? then |h.got| else 0)
                                   + (if ok && b.BodyBytes? then |b.got| else 0)
  {
    AfterSizeOk(r, wire, h);
    var (ok, r') := AfterSize(r, h);
    if ok {
      ReadBodyOk(r', wire, b);
      if r.rpdu.sz == 0 {
        SizeIsNext(r, wire, sent, h.got);
        assert IsFrame(sent[|Accepted(r.offers)|]);
      }
    }
    hide RxOk, Flat, AllFrames, NextBytes;
  }

  lemma ReadCbHeld(r: Rx, wire: Bytes, sent: seq<Bytes>, h: SizeOutcome, b: BodyOutcome, take: bool)
    requires RxOk(r, wire) && HeldOk(r) && AllFrames(sent) && wire <= Flat(sent)
    requires !r.dead && WantsMore(r) ==> Arrives(r, wire, h, b)
    ensures HeldOk(ReadCb(r, h, b, take))
  {
    if !r.dead && WantsMore(r) {
      TurnReads(r, wire, sent, h, b);
    }
    hide RxOk, ReadPdu, Flat, AllFrames, Arrives;
  }

  lemma {:induction false} BehaviourHeld(states: seq<Link>, steps: seq<Step>, k: nat)
    requires Behaviour(states, steps) && k < |states|
    ensures HeldOk(states[k].rx)
    ensures RxOk(states[k].rx, states[k].tx.wire) && AllFrames(states[k].tx.sent)
    ensures states[k].tx.wire <= Flat(states[k].tx.sent)
  {
    BehaviourOk(states, steps, k);
    WireIsFrames(states[k].tx);
    hide RxOk, TxOk, SendsOk, AllFrames, Flat;
    if k > 0 {
      BehaviourHeld(states, steps, k - 1);
      var l, step := states[k - 1], steps[k - 1];
      if step.ReadReady? {
        ReadCbHeld(l.rx, l.tx.wire, l.tx.sent, step.h, step.b, step.take);
      } else {
        OnlyReadReads(l, step);
      }
    }
  }

  lemma OnlyReadReads(l: Link, step: Step)
    requires Enabled(l, step) && !step.ReadReady?
    ensures Apply(l, step).rx == if step.RxDies? then l.rx.(dead := true) else l.rx
  {
    hide TakeSlot, WriteCb, WriteCbSignals, Flushed;
  }

  /** In every state in which the reader lives: where it stands in the stream, and that the PDU at which it stands has
      been offered, and refused, if and only if all of it has been read. It never reads on behind such a PDU. */
  lemma WholeMeansOffered(states: seq<Link>, steps: seq<Step>, k: nat)
    requires Behaviour(states, steps) && k < |states| && !states[k].rx.dead
    ensures var r, sent := states[k].rx, states[k].tx.sent; var n := |Accepted(r.offers)|;
      && n <= |sent| && |Flat(sent[..n])| <= r.consumed && (n < |sent| ==> r.consumed <= |Flat(sent[..n + 1])|)
      && (Refused(r.offers) <==> Whole(r.consumed, sent, n))
      && (Refused(r.offers) ==> r.offers[|r.offers| - 1] == Offer(sent[n], false))
  {
    var r, sent := states[k].rx, states[k].tx.sent;
    var n := |Accepted(r.offers)|;
    BehaviourHeld(states, steps, k);
    ReaderStands(r, states[k].tx.wire, sent);
    StandsMeans(r, sent, n);
    hide Flat;
  }

  /** One turn of the reader, whatever the socket gives: it makes an upcall, with the next PDU and once, if and only
      if all of that PDU has been read after it, be it held from before or new; every byte the socket gave is
      accounted for; and it lives on unless a read failed or the size came in parts or is too big. */
  lemma UpcallExactlyWhenWhole(states: seq<Link>, steps: seq<Step>, k: nat, h: SizeOutcome, b: BodyOutcome, take: bool)
    requires Behaviour(states, steps) && k < |steps| && steps[k] == ReadReady(h, b, take) && !states[k].rx.dead
    ensures var r, r', sent := states[k].rx, states[k + 1].rx, states[k].tx.sent;
      var n := |Accepted(r.offers)|;
      && n <= |sent| && states[k + 1].tx == states[k].tx
      && r'.offers == r.offers + (if !r'.dead && Whole(r'.consumed, sent, n) then [Offer(sent[n], take)] else [])
      && (!r'.dead <==> Whole(r.consumed, sent, n)
                        || ((Starting(r.consumed, sent, n) ==>
                               h.SizeBytes? && |h.got| == HEADER && n < |sent| && |sent[n]| <= MAX_PDU)
                            && !b.BodyFails?))
      && r'.consumed == r.consumed
           + (if Starting(r.consumed, sent, n) && h.SizeBytes? then |h.got| else 0)
           + (if !Whole(r.consumed, sent, n) && !r'.dead && b.BodyBytes? then |b.got| else 0)
  {
    var l, r, r', sent := states[k], states[k].rx, states[k + 1].rx, states[k].tx.sent;
    var n := |Accepted(r.offers)|;
    BehaviourHeld(states, steps, k);
    BehaviourHeld(states, steps, k + 1);
    ReaderStands(r, l.tx.wire, sent);
    StandsMeans(r, sent, n);
    if WantsMore(r) {
      TurnReads(r, l.tx.wire, sent, h, b);
      if r.rpdu.sz == 0 && h.SizeBytes? && |h.got| == HEADER {
        SizeIsNext(r, l.tx.wire, sent, h.got);
      }
      var (ok, r1) := ReadPdu(r, h, b);
      if ok {
        TurnStands(r, r1, l.tx.wire, sent);
      }
    }
    hide RxOk, Flat, AllFrames, Arrives, ReadPdu, Stands, Behaviour, Starting, Whole, Accepted;
  }

  lemma TurnStands(r: Rx, r1: Rx, wire: Bytes, sent: seq<Bytes>)
    requires RxOk(r1, wire) && !r1.dead && r1.offers == r.offers && AllFrames(sent) && wire <= Flat(sent)
    requires r1.rpdu.buf.Some? ==> r1.rpdu.solong <= r1.rpdu.sz
    ensures var n := |Accepted(r.offers)|;
      n <= |sent| && (Complete(r1) <==> Whole(r1.consumed, sent, n)) && (Complete(r1) ==> r1.rpdu.buf.value == sent[n])
  {
    ReaderStands(r1, wire, sent);
    StandsMeans(r1, sent, |Accepted(r.offers)|);
    hide Flat, AllFrames, Stands;
  }

  // ---------------------------------------------------------------------------------------------
  // The senders
  // ---------------------------------------------------------------------------------------------

  /** Every byte given to send so far is on the wire. */
  predicate AllOut(t: Tx) {
    t.wire == Flat(t.sent)
  }

  lemma WhatIsLeft(t: Tx)
    requires TxOk(t) && !t.dead
    ensures t.wpdu.buf.None? ==> AllOut(t) && t.wpdu == NO_BUF
    ensures t.wpdu.buf.Some? ==>
              Writable(t.wpdu) && t.wpdu.sz > 0 && t.wpdu.sz - t.wpdu.solong == |Flat(t.sent)| - |t.wire|
    ensures t.wpdu.buf.Some? ==> (AllOut(t) <==> t.wpdu.solong == t.wpdu.sz)
    ensures Flushed(t) <==> t.wpdu.solong == t.wpdu.sz
  {
    if t.wpdu.buf.Some? {
      var f := t.sent[|t.sent| - 1];
      assert Flat(t.sent) == Flat(t.sent[..|t.sent| - 1]) + f;
      assert f[..|f|] == f;
    }
  }

  /** One write: the bytes that the socket takes are the next on the wire, and only a failure ends the connection. */
  lemma WriteMoves(t: Tx, o: WriteOutcome)
    requires TxOk(t) && !t.dead && Writable(t.wpdu) && WriteFits(t.wpdu, o)
    ensures var (ok, t') := WritePdu(t, o);
      |t'.wire| == |t.wire| + (if !AllOut(t) && o.Wrote? then o.n else 0) && (ok <==> AllOut(t) || !o.WriteFails?)
  {
    WhatIsLeft(t);
    hide TxOk, Flat;
  }

  /** send at its first loop test: it waits if and only if the connection lives and another send has the write buffer;
      on a dead connection it returns at once; and otherwise its frame is the next of the order, its first write puts
      on the wire what the socket takes, and it returns true exactly if that is all of it. */
  lemma FirstTest(states: seq<Link>, steps: seq<Step>, k: nat, id: nat, pdu: Bytes, o: WriteOutcome)
    requires Behaviour(states, steps) && k < |steps|
    requires steps[k] == SendEnters(id, pdu, o) || (steps[k] == SendWakes(id, o) && pdu == states[k].sends[id].pdu)
    ensures id in states[k + 1].sends && states[k + 1].sends[id].pdu == pdu && Sendable(pdu)
    ensures var t, t', slot := states[k].tx, states[k + 1].tx, |states[k].tx.sent|;
      states[k + 1].sends[id].phase ==
        if t.dead then Returned(false, None)
        else if exists j :: Owns(states[k].sends, j) then WaitsForSlot(false)
        else if o.WriteFails? then Removing(slot)
        else if AllOut(t') then Returned(true, Some(slot))
        else Flushing(slot, false)
    ensures var t, t' := states[k].tx, states[k + 1].tx;
      if t.dead || exists j :: Owns(states[k].sends, j) then t' == t
      else
        && t'.sent == t.sent + [Stamp(pdu)] && |t'.wire| == |t.wire| + (if o.Wrote? then o.n else 0)
        && (t'.dead <==> o.WriteFails?)
  {
    var l := states[k];
    BehaviourOk(states, steps, k);
    assert l.tx.wpdu.buf.Some? <==> exists j :: Owns(l.sends, j);
    if steps[k].SendWakes? {
      assert SendOk(l.tx, l.sends[id]);
    }
    hide Owns, SendsOk, RxOk, Behaviour, Flat;
    if !l.tx.dead && l.tx.wpdu.buf.None? {
      SlotMoves(l.tx, pdu, o);
    }
    hide TxOk, TakeSlot, Stamp, AllOut;
  }

  lemma SlotMoves(t: Tx, pdu: Bytes, o: WriteOutcome)
    requires TxOk(t) && !t.dead && t.wpdu.buf.None? && Sendable(pdu) && (o.Wrote? ==> o.n <= |pdu|)
    ensures var t' := TakeSlot(t, pdu, o);
      && |t'.wire| == |t.wire| + (if o.Wrote? then o.n else 0) && (t'.dead <==> o.WriteFails?)
      && t'.sent == t.sent + [Stamp(pdu)]
      && (!t'.dead ==> (AllOut(t') <==> t'.wpdu.solong == t'.wpdu.sz))
      && (!t'.dead && AllOut(t') ==> SendResult(t') && AllOut(FreeSlot(t')))
      && FreeSlot(t').wire == t'.wire && FreeSlot(t').sent == t'.sent && FreeSlot(t').dead == t'.dead
  {
    TakeSlotOk(t, pdu, o);
    WhatIsLeft(t);
    if !o.WriteFails? {
      WhatIsLeft(TakeSlot(t, pdu, o));
    }
    hide TxOk, Stamp, Flat;
  }

  lemma OwnerHasSlot(l: Link, id: nat)
    requires LinkOk(l) && Owns(l.sends, id)
    ensures l.tx.wpdu.buf.Some? && l.sends[id].phase.slot + 1 == |l.tx.sent|
    ensures l.sends[id].phase.Removing? ==> l.tx.dead
  {
    assert SendOk(l.tx, l.sends[id]);
    hide TxOk, RxOk;
  }

  /** send at its second loop test, or back from the removal: it ends if and only if the connection is dead or all of
      its frame is on the wire, and then its result is whether the connection lives. Who waits for the write buffer is
      woken. */
  lemma SecondTest(states: seq<Link>, steps: seq<Step>, k: nat, id: nat)
    requires Behaviour(states, steps) && k < |steps| && (steps[k] == FlushWakes(id) || steps[k] == RemoveReturns(id))
    ensures var l, l' := states[k], states[k + 1]; var slot := |l.tx.sent| - 1;
      && id in l.sends && id in l'.sends && slot >= 0
      && l'.sends[id] == l.sends[id].(phase := if l.tx.dead || AllOut(l.tx) then Returned(!l.tx.dead, Some(slot))
                                               else Flushing(slot, false))
      && (l.tx.dead || AllOut(l.tx) ==>
            forall j :: j in l.sends && l.sends[j].phase.WaitsForSlot? ==>
                          j in l'.sends && l'.sends[j].phase == WaitsForSlot(true))
      && l'.tx.dead == l.tx.dead && l'.tx.wire == l.tx.wire && l'.tx.sent == l.tx.sent
  {
    var l := states[k];
    BehaviourOk(states, steps, k);
    OwnerHasSlot(l, id);
    var waiting := Waiting(l.sends);
    assert l.waiters == |waiting|;
    if !l.tx.dead {
      WhatIsLeft(l.tx);
    }
    forall j | j in l.sends && l.sends[j].phase.WaitsForSlot? ensures l.waiters > 0 {
      assert j in waiting;
    }
    hide TxOk, RxOk, SendsOk, Behaviour, Flat, Waiting;
  }

  /** write_cb: the socket is asked to take all that is left of the frame, what it takes goes on the wire, the
      connection dies if and only if there was something to write and the write failed, and the send in its second
      wait is signalled if and only if there is one that holds the write buffer and it has nothing left to wait for.
      */
  lemma SocketTakes(states: seq<Link>, steps: seq<Step>, k: nat, o: WriteOutcome)
    requires Behaviour(states, steps) && k < |steps| && steps[k] == WriteReady(o)
    ensures var t, t' := states[k].tx, states[k + 1].tx;
      && t'.sent == t.sent
      && (AllOut(t) ==> t'.wire == t.wire && !t'.dead)
      && (!AllOut(t) ==> |t'.wire| == |t.wire| + (if o.Wrote? then o.n else 0) && (t'.dead <==> o.WriteFails?))
      && (!AllOut(t) ==> forall n :: Enabled(states[k], WriteReady(Wrote(n))) <==> |t.wire| + n <= |Flat(t.sent)|)
      && states[k + 1].sends == (if (exists j :: Owns(states[k].sends, j)) && (t'.dead || AllOut(t'))
                                 then SignalComplete(states[k].sends) else states[k].sends)
  {
    var t := states[k].tx;
    BehaviourOk(states, steps, k);
    assert t.wpdu.buf.Some? <==> exists j :: Owns(states[k].sends, j);
    hide Owns;
    WhatIsLeft(t);
    WriteCbOk(t, o);
    if t.wpdu.sz != 0 {
      WriteMoves(t, o);
      if !WriteCb(t, o).dead { WhatIsLeft(WriteCb(t, o)); }
    }
    hide TxOk, RxOk, SendsOk, Behaviour, Flat;
  }
}
