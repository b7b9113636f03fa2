/** A connection at work: any number of threads in send, the poll thread writing and reading, and the stream between the
    two ends. */
module FramingLink {
  import opened Common
  import opened Framing

  /** Where a call of send is. A slot is a place in the order in which sends got the write buffer. */
  datatype Phase =
    | WaitsForSlot(woken: bool)               // in the first wait, on send_wait_
    | Flushing(slot: nat, woken: bool)        // in the second, on send_complete_
    | Removing(slot: nat)                     // in block_remove_fd, the first write having failed
    | Returned(ok: bool, had: Option<nat>)

  datatype Send = Send(pdu: Bytes, phase: Phase)

  /** `closed` is history: it is closeconn that has made the sending end dead. */
  datatype Link = Link(tx: Tx, rx: Rx, waiters: nat, sends: map<nat, Send>, closed: bool)

  datatype Step =
    | SendEnters(id: nat, pdu: Bytes, o: WriteOutcome)
    | SendWakes(id: nat, o: WriteOutcome)
    | Spurious(id: nat)
    | FlushWakes(id: nat)
    | SpuriousFlush(id: nat)
    | RemoveReturns(id: nat)
    | WriteReady(o: WriteOutcome)
    | ReadReady(h: SizeOutcome, b: BodyOutcome, take: bool)
    | TxReadFails     // read_cb on the sending end
    | TxCloses        // closeconn on the sending end
    | RxDies

  const START := Link(Tx(false, NO_BUF, [], []), Rx(false, NO_BUF, 0, []), 0, map[], false)

  predicate SlotTaken(l: Link) {
    !l.tx.dead && l.tx.wpdu.buf.Some?
  }

  function Waiting(sends: map<nat, Send>): set<nat> {
    set id | id in sends && sends[id].phase.WaitsForSlot?
  }

  function WakeAll(sends: map<nat, Send>): map<nat, Send> {
    map id | id in sends :: if sends[id].phase.WaitsForSlot? then sends[id].(phase := WaitsForSlot(true)) else sends[id]
  }

  /** pthread_cond_signal on send_complete_, on which nobody waits but the one sender with the write buffer. */
  function SignalComplete(sends: map<nat, Send>): map<nat, Send> {
    map id | id in sends :: sends[id].(phase := Signalled(sends[id].phase))
  }

  function Signalled(phase: Phase): Phase {
    if phase.Flushing? then Flushing(phase.slot, true) else phase
  }

  function SetPhase(l: Link, id: nat, phase: Phase): map<nat, Send>
    requires id in l.sends
  {
    l.sends[id := l.sends[id].(phase := phase)]
  }

  /** The end of send: the result, the write buffer given back, and a broadcast if anybody waits for it. */
  function Finish(l: Link, id: nat, slot: nat): Link
    requires id in l.sends
  {
    var sends := SetPhase(l, id, Returned(SendResult(l.tx), Some(slot)));
    l.(tx := FreeSlot(l.tx), sends := if l.waiters > 0 then WakeAll(sends) else sends)
  }

  /** send past its first wait. */
  function Proceed(l: Link, id: nat, o: WriteOutcome): Link
    requires id in l.sends && Sendable(l.sends[id].pdu) && (o.Wrote? ==> o.n <= |l.sends[id].pdu|)
  {
    if l.tx.dead then l.(sends := SetPhase(l, id, Returned(false, None)))
    else
      var slot := |l.tx.sent|;
      var l' := l.(tx := TakeSlot(l.tx, l.sends[id].pdu, o));
      if l'.tx.dead then l'.(sends := SetPhase(l, id, Removing(slot)))
      else if l'.tx.wpdu.solong == l'.tx.wpdu.sz then Finish(l', id, slot)
      else l'.(sends := SetPhase(l, id, Flushing(slot, false)))
  }

  /** The loop test of the first wait; a sender that has to wait counts itself in waiters_. */
  function TrySlot(l: Link, id: nat, o: WriteOutcome): Link
    requires id in l.sends && Sendable(l.sends[id].pdu) && (o.Wrote? ==> o.n <= |l.sends[id].pdu|)
  {
    if SlotTaken(l) then l.(waiters := l.waiters + 1, sends := SetPhase(l, id, WaitsForSlot(false)))
    else Proceed(l, id, o)
  }

  predicate Enabled(l: Link, step: Step) {
    match step
    case SendEnters(id, pdu, o) => id !in l.sends && Sendable(pdu) && (o.Wrote? ==> o.n <= |pdu|)
    case SendWakes(id, o) =>
      && id in l.sends && l.sends[id].phase == WaitsForSlot(true) && l.waiters > 0
      && Sendable(l.sends[id].pdu) && (o.Wrote? ==> o.n <= |l.sends[id].pdu|)
    case Spurious(id) => id in l.sends && l.sends[id].phase == WaitsForSlot(false)
    case FlushWakes(id) => id in l.sends && l.sends[id].phase.Flushing? && l.sends[id].phase.woken
    case SpuriousFlush(id) => id in l.sends && l.sends[id].phase.Flushing? && !l.sends[id].phase.woken
    case RemoveReturns(id) => id in l.sends && l.sends[id].phase.Removing?
    case WriteReady(o) => !l.tx.dead && (l.tx.wpdu.sz != 0 ==> Writable(l.tx.wpdu) && WriteFits(l.tx.wpdu, o))
    case ReadReady(h, b, take) => !l.rx.dead && WantsMore(l.rx) ==> Arrives(l.rx, l.tx.wire, h, b)
    case TxReadFails => true
    case TxCloses => true
    case RxDies => true
  }

  function Apply(l: Link, step: Step): Link
    requires Enabled(l, step)
  {
    match step
    case SendEnters(id, pdu, o) => TrySlot(l.(sends := l.sends[id := Send(pdu, Returned(false, None))]), id, o)
    case SendWakes(id, o) => TrySlot(l.(waiters := l.waiters - 1), id, o)
    case Spurious(id) => l.(sends := SetPhase(l, id, WaitsForSlot(true)))
    case FlushWakes(id) =>
      var slot := l.sends[id].phase.slot;
      if Flushed(l.tx) then Finish(l, id, slot) else l.(sends := SetPhase(l, id, Flushing(slot, false)))
    case SpuriousFlush(id) => l.(sends := SetPhase(l, id, Flushing(l.sends[id].phase.slot, true)))
    case RemoveReturns(id) => Finish(l, id, l.sends[id].phase.slot)
    case WriteReady(o) =>
      l.(tx := WriteCb(l.tx, o), sends := if WriteCbSignals(l.tx, o) then SignalComplete(l.sends) else l.sends)
    case ReadReady(h, b, take) => l.(rx := ReadCb(l.rx, h, b, take))
    case TxReadFails => if l.tx.dead then l else l.(tx := l.tx.(dead := true), sends := SignalComplete(l.sends))
    case TxCloses => if l.tx.dead then l else l.(tx := l.tx.(dead := true), closed := true)
    case RxDies => l.(rx := l.rx.(dead := true))
  }

  ghost predicate Behaviour(states: seq<Link>, steps: seq<Step>) {
    && |states| == |steps| + 1
    && states[0] == START
    && forall i :: 0 <= i < |steps| ==> Enabled(states[i], steps[i]) && states[i + 1] == Apply(states[i], steps[i])
  }

  /** This send has the write buffer. */
  predicate Owns(sends: map<nat, Send>, id: nat) {
    id in sends && (sends[id].phase.Flushing? || sends[id].phase.Removing?)
  }

  ghost predicate SendOk(t: Tx, s: Send) {
    && Sendable(s.pdu)
    && match s.phase
       case WaitsForSlot(woken) => woken || t.wpdu.buf.Some?
       case Flushing(slot, woken) => t.wpdu.buf.Some? && slot + 1 == |t.sent| && t.sent[slot] == Stamp(s.pdu)
       case Removing(slot) => t.wpdu.buf.Some? && slot + 1 == |t.sent| && t.sent[slot] == Stamp(s.pdu) && t.dead
       case Returned(ok, None) => !ok
       case Returned(ok, Some(slot)) =>
         slot < |t.sent| && t.sent[slot] == Stamp(s.pdu) && (ok ==> Flat(t.sent[..slot + 1]) <= t.wire)
  }

  ghost predicate EachOk(t: Tx, sends: map<nat, Send>) {
    forall id :: id in sends ==> SendOk(t, sends[id])
  }

  ghost predicate OneOwner(sends: map<nat, Send>) {
    forall i, j :: Owns(sends, i) && Owns(sends, j) ==> i == j
  }

  ghost predicate SlotOk(t: Tx, sends: map<nat, Send>) {
    t.wpdu.buf.Some? <==> exists id :: Owns(sends, id)
  }

  ghost predicate SendsOk(l: Link) {
    && EachOk(l.tx, l.sends)
    && OneOwner(l.sends)
    && SlotOk(l.tx, l.sends)
    && l.waiters == |Waiting(l.sends)|
  }

  ghost predicate LinkOk(l: Link) {
    TxOk(l.tx) && RxOk(l.rx, l.tx.wire) && SendsOk(l)
  }

  /** More bytes on the wire, the same senders' order. */
  lemma SendStays(t: Tx, t': Tx, s: Send)
    requires SendOk(t, s) && t.wire <= t'.wire && t.sent <= t'.sent && (t.dead ==> t'.dead)
    requires s.phase.Flushing? || s.phase.Removing? ==> t'.sent == t.sent
    requires s.phase.Flushing? || s.phase.Removing? || s.phase == WaitsForSlot(false) ==> t'.wpdu.buf.Some?
    ensures SendOk(t', s)
  {
    if s.phase.Returned? && s.phase.had.Some? {
      var k := s.phase.had.value;
      assert t'.sent[..k + 1] == t.sent[..k + 1];
    }
  }

  lemma WaitingSet(sends: map<nat, Send>, id: nat, s: Send)
    ensures Waiting(sends[id := s]) == if s.phase.WaitsForSlot? then Waiting(sends) + {id} else Waiting(sends) - {id}
    ensures Waiting(WakeAll(sends)) == Waiting(sends)
  {}

  lemma FinishEach(t: Tx, sends: map<nat, Send>, id: nat, i: nat)
    requires TxOk(t) && t.wpdu.buf.Some? && Flushed(t) && id in sends && Sendable(sends[id].pdu)
    requires sends[id].phase.Returned? && sends[id].phase == Returned(SendResult(t), Some(|t.sent| - 1))
    requires t.sent != [] && t.sent[|t.sent| - 1] == Stamp(sends[id].pdu)
    requires i in sends && (i != id ==> SendOk(t, sends[i]) && !Owns(sends, i))
    ensures SendOk(FreeSlot(t), WakeAll(sends)[i])
  {
    FreeSlotOk(t);
    hide TxOk;
    if i == id {
      assert t.sent[..|t.sent| - 1 + 1] == t.sent;
    } else if !sends[i].phase.WaitsForSlot? {
      SendStays(t, FreeSlot(t), sends[i]);
    }
  }

  /** Without waiters a broadcast would change nothing. */
  lemma NobodyToWake(sends: map<nat, Send>)
    requires Waiting(sends) == {}
    ensures WakeAll(sends) == sends
  {
    forall i | i in sends ensures !sends[i].phase.WaitsForSlot? {
      assert i !in Waiting(sends);
    }
  }

  /** With the owner gone nobody has the write buffer. */
  lemma NoOwner(t: Tx, sends: map<nat, Send>)
    requires forall i :: i in sends ==> !Owns(sends, i)
    ensures OneOwner(WakeAll(sends)) && SlotOk(FreeSlot(t), WakeAll(sends))
  {
    forall i ensures !Owns(WakeAll(sends), i) {
      assert i in sends ==> !Owns(sends, i);
    }
  }

  lemma FinishOk(l: Link, id: nat, slot: nat)
    requires TxOk(l.tx) && l.tx.wpdu.buf.Some? && Flushed(l.tx)
    requires id in l.sends && Sendable(l.sends[id].pdu) && !l.sends[id].phase.WaitsForSlot?
    requires slot + 1 == |l.tx.sent| && l.tx.sent[slot] == Stamp(l.sends[id].pdu)
    requires forall i :: i in l.sends && i != id ==> SendOk(l.tx, l.sends[i]) && !Owns(l.sends, i)
    requires l.waiters == |Waiting(l.sends)|
    ensures TxOk(Finish(l, id, slot).tx) && SendsOk(Finish(l, id, slot))
  {
    var sends := SetPhase(l, id, Returned(SendResult(l.tx), Some(slot)));
    hide TxOk, Stamp, Flat, SendOk, Flushed, SendResult, Sendable;
    FreeSlotOk(l.tx);
    forall i | i in sends ensures SendOk(FreeSlot(l.tx), WakeAll(sends)[i]) {
      assert i != id ==> SendOk(l.tx, sends[i]) && !Owns(sends, i);
      FinishEach(l.tx, sends, id, i);
    }
    forall i | i in sends ensures !Owns(sends, i) {
      assert i != id ==> !Owns(l.sends, i);
    }
    NoOwner(l.tx, sends);
    FinishCounts(l, id, slot);
    hide OneOwner, SlotOk, Owns, FreeSlot;
    assert EachOk(FreeSlot(l.tx), WakeAll(sends));
  }

  lemma FinishCounts(l: Link, id: nat, slot: nat)
    requires id in l.sends && !l.sends[id].phase.WaitsForSlot? && l.waiters == |Waiting(l.sends)|
    ensures var sends := SetPhase(l, id, Returned(SendResult(l.tx), Some(slot)));
            && Finish(l, id, slot) == l.(tx := FreeSlot(l.tx), sends := WakeAll(sends))
            && l.waiters == |Waiting(WakeAll(sends))|
  {
    var sends := SetPhase(l, id, Returned(SendResult(l.tx), Some(slot)));
    WaitingSet(l.sends, id, sends[id]);
    WaitingSet(sends, id, sends[id]);
    assert Waiting(sends) == Waiting(l.sends);
    if l.waiters == 0 {
      NobodyToWake(sends);
    }
  }

  /** All is well but for one send, which is between its waits. */
  ghost predicate OthersOk(l: Link, id: nat) {
    && id in l.sends && Sendable(l.sends[id].pdu) && !Owns(l.sends, id)
    && EachOtherOk(l.tx, l.sends, id)
    && OneOwner(l.sends)
    && SlotOk(l.tx, l.sends)
    && l.waiters == |Waiting(l.sends) - {id}|
  }

  ghost predicate EachOtherOk(t: Tx, sends: map<nat, Send>, id: nat) {
    forall i :: i in sends && i != id ==> SendOk(t, sends[i])
  }

  lemma SettleEach(t: Tx, t': Tx, sends: map<nat, Send>, id: nat, s: Send)
    requires EachOtherOk(t, sends, id) && SlotOk(t, sends) && SendOk(t', s)
    requires t.wire <= t'.wire && t.sent <= t'.sent && (t.dead ==> t'.dead)
    requires t.wpdu.buf.Some? ==> t'.wpdu.buf.Some? && t'.sent == t.sent
    ensures EachOk(t', sends[id := s])
  {
    forall i | i in sends && i != id ensures SendOk(t', sends[i]) {
      assert SendOk(t, sends[i]);
      assert Owns(sends, i) ==> t.wpdu.buf.Some?;
      SendStays(t, t', sends[i]);
    }
  }

  lemma SettleOwner(t: Tx, t': Tx, sends: map<nat, Send>, id: nat, s: Send)
    requires OneOwner(sends) && SlotOk(t, sends) && !Owns(sends, id)
    requires t'.wpdu.buf.Some? <==> t.wpdu.buf.Some? || s.phase.Flushing? || s.phase.Removing?
    requires t.wpdu.buf.Some? ==> !s.phase.Flushing? && !s.phase.Removing?
    ensures OneOwner(sends[id := s]) && SlotOk(t', sends[id := s])
  {
    var sends' := sends[id := s];
    forall i | i != id ensures Owns(sends', i) <==> Owns(sends, i) {}
    if t.wpdu.buf.Some? {
      var i :| Owns(sends, i);
      assert Owns(sends', i);
    } else if t'.wpdu.buf.Some? {
      assert Owns(sends', id);
    }
  }

  /** The one send settles down, the others stay as they were. */
  lemma SettleOk(l: Link, id: nat, t: Tx, phase: Phase, waiters: nat)
    requires OthersOk(l, id)
    requires l.tx.wire <= t.wire && l.tx.sent <= t.sent && (l.tx.dead ==> t.dead)
    requires l.tx.wpdu.buf.Some? ==> t.wpdu.buf.Some? && t.sent == l.tx.sent
    requires SendOk(t, l.sends[id].(phase := phase))
    requires t.wpdu.buf.Some? <==> l.tx.wpdu.buf.Some? || phase.Flushing? || phase.Removing?
    requires l.tx.wpdu.buf.Some? ==> !phase.Flushing? && !phase.Removing?
    requires waiters == l.waiters + if phase.WaitsForSlot? then 1 else 0
    ensures SendsOk(Link(t, l.rx, waiters, SetPhase(l, id, phase), l.closed))
  {
    hide EachOk, EachOtherOk, OneOwner, SlotOk, SendOk;
    var s := l.sends[id].(phase := phase);
    SettleEach(l.tx, t, l.sends, id, s);
    SettleOwner(l.tx, t, l.sends, id, s);
    WaitingSet(l.sends, id, s);
    assert Waiting(l.sends) + {id} == (Waiting(l.sends) - {id}) + {id};
  }

  lemma ProceedOk(l: Link, id: nat, o: WriteOutcome)
    requires TxOk(l.tx) && OthersOk(l, id) && !SlotTaken(l) && (o.Wrote? ==> o.n <= |l.sends[id].pdu|)
    ensures TxOk(Proceed(l, id, o).tx) && SendsOk(Proceed(l, id, o)) && l.tx.wire <= Proceed(l, id, o).tx.wire
    ensures Proceed(l, id, o).rx == l.rx
  {
    if l.tx.dead {
      SettleOk(l, id, l.tx, Returned(false, None), l.waiters);
    } else {
      var slot := |l.tx.sent|;
      var pdu := l.sends[id].pdu;
      var t := TakeSlot(l.tx, pdu, o);
      TakeSlotOk(l.tx, pdu, o);
      if t.dead {
        SettleOk(l, id, t, Removing(slot), l.waiters);
      } else if t.wpdu.solong == t.wpdu.sz {
        FinishAtOnce(l, id, o);
      } else {
        SettleOk(l, id, t, Flushing(slot, false), l.waiters);
      }
    }
  }

  lemma SettledOthers(l: Link, t: Tx, id: nat, i: nat)
    requires OthersOk(l, id) && l.tx.wpdu.buf.None? && t.wpdu.buf.Some?
    requires l.tx.wire <= t.wire && l.tx.sent <= t.sent && (l.tx.dead ==> t.dead)
    requires i in l.sends && i != id
    ensures SendOk(t, l.sends[i]) && !Owns(l.sends, i)
  {
    assert !Owns(l.sends, i) && SendOk(l.tx, l.sends[i]);
    SendStays(l.tx, t, l.sends[i]);
  }

  lemma FinishForgets(l: Link, id: nat, ph: Phase, slot: nat)
    requires id in l.sends
    ensures id in SetPhase(l, id, ph)
    ensures Finish(l.(sends := SetPhase(l, id, ph)), id, slot) == Finish(l, id, slot)
  {
  }

  /** A send whose first write takes everything. */
  lemma FinishAtOnce(l: Link, id: nat, o: WriteOutcome)
    requires TxOk(l.tx) && OthersOk(l, id) && l.tx.wpdu.buf.None? && !l.tx.dead && (o.Wrote? ==> o.n <= |l.sends[id].pdu|)
    requires var t := TakeSlot(l.tx, l.sends[id].pdu, o);
             !t.dead && t.wpdu.solong == t.wpdu.sz
    ensures var l' := Finish(l.(tx := TakeSlot(l.tx, l.sends[id].pdu, o)), id, |l.tx.sent|);
            TxOk(l'.tx) && SendsOk(l') && l.tx.wire <= l'.tx.wire
  {
    var pdu := l.sends[id].pdu;
    var t := TakeSlot(l.tx, pdu, o);
    TakeSlotOk(l.tx, pdu, o);
    var idle := l.(tx := t, sends := SetPhase(l, id, Returned(false, None)));
    WaitingSet(l.sends, id, idle.sends[id]);
    forall i | i in idle.sends && i != id ensures SendOk(t, idle.sends[i]) && !Owns(idle.sends, i) {
      SettledOthers(l, t, id, i);
    }
    FinishForgets(l.(tx := t), id, Returned(false, None), |l.tx.sent|);
    hide TxOk, TakeSlot, Stamp, Flat, WakeAll, SendsOk, OthersOk, SendOk, Finish, SetPhase;
    FinishOk(idle, id, |l.tx.sent|);
  }

  lemma TrySlotOk(l: Link, id: nat, o: WriteOutcome)
    requires TxOk(l.tx) && OthersOk(l, id) && (o.Wrote? ==> o.n <= |l.sends[id].pdu|)
    ensures TxOk(TrySlot(l, id, o).tx) && SendsOk(TrySlot(l, id, o)) && l.tx.wire <= TrySlot(l, id, o).tx.wire
    ensures TrySlot(l, id, o).rx == l.rx
  {
    if SlotTaken(l) {
      SettleOk(l, id, l.tx, WaitsForSlot(false), l.waiters + 1);
    } else {
      ProceedOk(l, id, o);
    }
  }

  lemma NewcomerOk(l: Link, id: nat, pdu: Bytes)
    requires SendsOk(l) && id !in l.sends && Sendable(pdu)
    ensures OthersOk(l.(sends := l.sends[id := Send(pdu, Returned(false, None))]), id)
  {
    hide SendOk;
    var s := Send(pdu, Returned(false, None));
    assert !Owns(l.sends, id);
    SettleOwner(l.tx, l.tx, l.sends, id, s);
    WaitingSet(l.sends, id, s);
    assert Waiting(l.sends[id := s]) - {id} == Waiting(l.sends);
  }

  lemma EnterOk(l: Link, id: nat, pdu: Bytes, o: WriteOutcome)
    requires LinkOk(l) && Enabled(l, SendEnters(id, pdu, o))
    ensures LinkOk(Apply(l, SendEnters(id, pdu, o)))
  {
    hide TxOk, RxOk, SendsOk, TrySlot, OthersOk;
    NewcomerOk(l, id, pdu);
    var l1 := l.(sends := l.sends[id := Send(pdu, Returned(false, None))]);
    TrySlotOk(l1, id, o);
    WireGrowsOk(l.rx, l.tx.wire, TrySlot(l1, id, o).tx.wire);
  }

  lemma WakesOk(l: Link, id: nat, o: WriteOutcome)
    requires LinkOk(l) && Enabled(l, SendWakes(id, o))
    ensures LinkOk(Apply(l, SendWakes(id, o)))
  {
    var l1 := l.(waiters := l.waiters - 1);
    assert id in Waiting(l.sends);
    assert OthersOk(l1, id);
    TrySlotOk(l1, id, o);
    WireGrowsOk(l.rx, l.tx.wire, TrySlot(l1, id, o).tx.wire);
  }

  lemma SpuriousOk(l: Link, id: nat)
    requires LinkOk(l) && Enabled(l, Spurious(id))
    ensures LinkOk(Apply(l, Spurious(id)))
  {
    assert SendOk(l.tx, l.sends[id]);
    hide TxOk, RxOk, SendOk;
    var s := l.sends[id].(phase := WaitsForSlot(true));
    WaitingSet(l.sends, id, s);
    assert id in Waiting(l.sends) && Waiting(l.sends) + {id} == Waiting(l.sends);
    SettleOwner(l.tx, l.tx, l.sends, id, s);
    WokenOk(l.tx, l.sends[id], s);
  }

  lemma WokenOk(t: Tx, s: Send, s': Send)
    requires SendOk(t, s) && s' == s.(phase := WaitsForSlot(true))
    ensures SendOk(t, s')
  {}

  lemma OwnerFinishes(l: Link, id: nat, slot: nat)
    requires LinkOk(l) && Owns(l.sends, id) && slot == l.sends[id].phase.slot && Flushed(l.tx)
    ensures LinkOk(Finish(l, id, slot))
  {
    assert SendOk(l.tx, l.sends[id]);
    forall i | i in l.sends && i != id ensures SendOk(l.tx, l.sends[i]) && !Owns(l.sends, i) {}
    FinishOk(l, id, slot);
  }

  /** Writing from the poll thread, or dying: nobody's phase changes. */
  lemma TxChanges(l: Link, t: Tx)
    requires LinkOk(l) && TxOk(t) && l.tx.wire <= t.wire && t.sent == l.tx.sent && (l.tx.dead ==> t.dead)
    requires t.wpdu.buf.Some? <==> l.tx.wpdu.buf.Some?
    ensures LinkOk(l.(tx := t))
  {
    forall i | i in l.sends ensures SendOk(t, l.sends[i]) {
      assert SendOk(l.tx, l.sends[i]);
      SendStays(l.tx, t, l.sends[i]);
    }
    WireGrowsOk(l.rx, l.tx.wire, t.wire);
  }

  lemma StepKeeps(l: Link, step: Step)
    requires LinkOk(l) && Enabled(l, step)
    ensures LinkOk(Apply(l, step))
  {
    hide SendsOk, TxOk, RxOk;
    match step
    case SendEnters(id, pdu, o) => EnterOk(l, id, pdu, o);
    case SendWakes(id, o) => WakesOk(l, id, o);
    case Spurious(id) => SpuriousOk(l, id);
    case FlushWakes(id) =>
      if Flushed(l.tx) { OwnerFinishes(l, id, l.sends[id].phase.slot); } else { FlushFlagOk(l, id, false); }
    case SpuriousFlush(id) => FlushFlagOk(l, id, true);
    case RemoveReturns(id) =>
      RemovedIsFlushed(l, id);
      OwnerFinishes(l, id, l.sends[id].phase.slot);
    case WriteReady(o) =>
      WriteCbOk(l.tx, o);
      TxChanges(l, WriteCb(l.tx, o));
      SignalOk(l.(tx := WriteCb(l.tx, o)));
    case ReadReady(h, b, take) =>
      ReadCbOk(l.rx, l.tx.wire, h, b, take);
      RxChanges(l, ReadCb(l.rx, h, b, take));
    case TxReadFails =>
      TxDiesOk(l.tx);
      TxChanges(l, l.tx.(dead := true));
      SignalOk(l.(tx := l.tx.(dead := true)));
    case TxCloses =>
      TxDiesOk(l.tx);
      TxChanges(l, l.tx.(dead := true));
      ClosedOk(l.(tx := l.tx.(dead := true)));
    case RxDies =>
      RxDiesOk(l.rx, l.tx.wire);
      RxChanges(l, l.rx.(dead := true));
  }

  lemma ClosedOk(l: Link)
    requires LinkOk(l)
    ensures LinkOk(l.(closed := true))
  {}

  /** A signal on send_complete_ changes no more than the flag of the sender that waits there. */
  lemma SignalOk(l: Link)
    requires LinkOk(l)
    ensures LinkOk(l.(sends := SignalComplete(l.sends)))
  {
    var sends := SignalComplete(l.sends);
    forall i | i in sends ensures SendOk(l.tx, sends[i]) {
      assert SendOk(l.tx, l.sends[i]);
    }
    forall i ensures Owns(sends, i) <==> Owns(l.sends, i) {}
    hide TxOk, RxOk, SendOk;
    assert Waiting(sends) == Waiting(l.sends);
    assert (exists id :: Owns(sends, id)) <==> (exists id :: Owns(l.sends, id));
  }

  lemma FlushFlagOk(l: Link, id: nat, woken: bool)
    requires LinkOk(l) && id in l.sends && l.sends[id].phase.Flushing?
    ensures LinkOk(l.(sends := SetPhase(l, id, Flushing(l.sends[id].phase.slot, woken))))
  {
    var sends := SetPhase(l, id, Flushing(l.sends[id].phase.slot, woken));
    forall i | i in sends ensures SendOk(l.tx, sends[i]) {
      assert SendOk(l.tx, l.sends[i]);
    }
    forall i ensures Owns(sends, i) <==> Owns(l.sends, i) {}
    hide TxOk, RxOk, SendOk;
    assert Waiting(sends) == Waiting(l.sends);
    assert (exists i :: Owns(sends, i)) <==> (exists i :: Owns(l.sends, i));
  }

  lemma RxChanges(l: Link, r: Rx)
    requires LinkOk(l) && RxOk(r, l.tx.wire)
    ensures LinkOk(l.(rx := r))
  {}

  lemma RemovedIsFlushed(l: Link, id: nat)
    requires SendsOk(l) && id in l.sends && l.sends[id].phase.Removing?
    ensures Flushed(l.tx)
  {
    assert SendOk(l.tx, l.sends[id]);
  }

  lemma TxDiesOk(t: Tx)
    requires TxOk(t)
    ensures TxOk(t.(dead := true))
  {}

  lemma RxDiesOk(r: Rx, wire: Bytes)
    requires RxOk(r, wire)
    ensures RxOk(r.(dead := true), wire)
  {}

  lemma {:induction false} BehaviourOk(states: seq<Link>, steps: seq<Step>, k: nat)
    requires Behaviour(states, steps) && k < |states|
    ensures LinkOk(states[k])
  {
    if k == 0 {
      assert Waiting(START.sends) == {};
    } else {
      BehaviourOk(states, steps, k - 1);
      StepKeeps(states[k - 1], steps[k - 1]);
    }
  }

  // ---------------------------------------------------------------------------------------------
  // Main results
  // ---------------------------------------------------------------------------------------------

  /** Framing is lossless up to failure, for every schedule: the wire carries the frames of the senders one whole frame
      after the other, in the order in which they got the write buffer; the PDUs the reader's upper layer has taken
      are the first of them; and each upcall, refused ones included, offers exactly the next one. */
  lemma FramingIsLossless(states: seq<Link>, steps: seq<Step>, k: nat)
    requires Behaviour(states, steps) && k < |states|
    ensures var l := states[k];
            && l.tx.wire <= Flat(l.tx.sent)
            && Accepted(l.rx.offers) <= l.tx.sent
            && forall i :: 0 <= i < |l.rx.offers| ==>
                 var n := |Accepted(l.rx.offers[..i])|;
                 n < |l.tx.sent| && l.rx.offers[i].pdu == l.tx.sent[n]
  {
    BehaviourOk(states, steps, k);
    var l := states[k];
    WireIsFrames(l.tx);
    FramesAreDelimited(Accepted(l.rx.offers), l.tx.sent);
    forall i | 0 <= i < |l.rx.offers|
      ensures var n := |Accepted(l.rx.offers[..i])|;
              n < |l.tx.sent| && l.rx.offers[i].pdu == l.tx.sent[n]
    {
      OfferIsNext(l.rx, l.tx.wire, l.tx.sent, i);
    }
  }

  lemma WireIsFrames(t: Tx)
    requires TxOk(t)
    ensures AllFrames(t.sent) && t.wire <= Flat(t.sent)
  {
    if t.wpdu.buf.Some? && t.wpdu.solong != -1 {
      WireGrows(Flat(t.sent[..|t.sent| - 1]), t.sent[|t.sent| - 1], t.wpdu.solong, 0);
    }
  }

  lemma {:induction false} AcceptedFrames(offers: seq<Offer>, i: nat)
    requires i <= |offers| && AllFrames(Accepted(offers))
    ensures AllFrames(Accepted(offers[..i]))
    decreases |offers| - i
  {
    if i == |offers| {
      assert offers[..i] == offers;
    } else {
      var n := |offers| - 1;
      var before := Accepted(offers[..n]);
      assert forall j :: 0 <= j < |before| ==> before[j] == Accepted(offers)[j];
      AcceptedFrames(offers[..n], i);
      assert offers[..n][..i] == offers[..i];
    }
  }

  lemma OfferIsNext(r: Rx, wire: Bytes, sent: seq<Bytes>, i: nat)
    requires RxOk(r, wire) && AllFrames(sent) && wire <= Flat(sent) && i < |r.offers|
    ensures var n := |Accepted(r.offers[..i])|;
            n < |sent| && r.offers[i].pdu == sent[n]
  {
    var before, pdu := Accepted(r.offers[..i]), r.offers[i].pdu;
    assert OfferOk(r.offers, i, wire);
    AcceptedFrames(r.offers, i);
    FlatOne(before, pdu);
    FramesAreDelimited(before + [pdu], sent);
    assert (before + [pdu])[|before|] == pdu;
  }

  /** send returns true only if its whole frame went out, at the place where it got the write buffer; and no sender
      sleeps while the write buffer is free. */
  lemma SendKeepsItsWord(states: seq<Link>, steps: seq<Step>, k: nat, id: nat)
    requires Behaviour(states, steps) && k < |states| && id in states[k].sends
    ensures var l, s := states[k], states[k].sends[id];
            && Sendable(s.pdu)
            && (s.phase.Returned? && s.phase.ok ==>
                  && s.phase.had.Some? && s.phase.had.value < |l.tx.sent|
                  && l.tx.sent[s.phase.had.value] == Stamp(s.pdu)
                  && Flat(l.tx.sent[..s.phase.had.value + 1]) <= l.tx.wire)
            && (s.phase == WaitsForSlot(false) ==> exists j :: Owns(l.sends, j))
  {
    BehaviourOk(states, steps, k);
    assert SendOk(states[k].tx, states[k].sends[id]);
  }
}
