/** The second wait of send: a sender whose bytes are not all out sleeps on send_complete_ until the poll thread has
    written them or the connection is dead. closeconn makes the connection dead without a signal. */
module SendWaits {
  import opened Common
  import opened Framing
  import opened FramingLink

  predicate Asleep(l: Link, id: nat) {
    id in l.sends && l.sends[id].phase.Flushing? && !l.sends[id].phase.woken
  }

  /** A sender that sleeps although it could go on does so because of closeconn. */
  ghost predicate WaitsOk(l: Link) {
    && (l.closed ==> l.tx.dead)
    && forall id :: Asleep(l, id) && Flushed(l.tx) ==> l.closed
  }

  /** At most one sender has the write buffer, and it is full while one has. */
  ghost predicate Sole(l: Link) {
    forall i :: Owns(l.sends, i) ==> l.tx.wpdu.buf.Some? && forall j :: Owns(l.sends, j) ==> j == i
  }

  lemma LinkIsSole(l: Link)
    requires LinkOk(l)
    ensures Sole(l)
  {
    hide TxOk, RxOk;
  }

  /** Nobody but the owner of the write buffer sleeps there. */
  lemma AsleepOwns(l: Link, id: nat)
    requires Sole(l) && Asleep(l, id)
    ensures Owns(l.sends, id) && l.tx.wpdu.buf.Some?
    ensures forall i :: Owns(l.sends, i) ==> i == id
  {
    assert Owns(l.sends, id);
  }

  lemma NobodyAsleep(l: Link, id: nat)
    requires Sole(l) && Owns(l.sends, id)
    ensures forall i :: i != id ==> !Asleep(l, i)
  {
    forall i | Asleep(l, i) ensures i == id {
      assert Owns(l.sends, i);
    }
  }

  /** The one that ends its send leaves nobody asleep behind it. */
  lemma FinishLeavesNobody(l: Link, id: nat, slot: nat)
    requires id in l.sends && forall i :: i != id ==> !Asleep(l, i)
    ensures forall i :: !Asleep(Finish(l, id, slot), i)
  {
    var l' := Finish(l, id, slot);
    forall i ensures !Asleep(l', i) {
      assert i != id ==> !Asleep(l, i);
    }
  }

  /** A sender at its first loop test. */
  lemma TrySlotWaits(l: Link, id: nat, o: WriteOutcome)
    requires id in l.sends && Sendable(l.sends[id].pdu) && (o.Wrote? ==> o.n <= |l.sends[id].pdu|)
    requires (forall i :: Asleep(l, i) ==> i != id && l.tx.wpdu.buf.Some?) && WaitsOk(l)
    ensures WaitsOk(TrySlot(l, id, o))
    ensures forall i :: i != id && Asleep(l, i) && l.tx.dead ==> Asleep(TrySlot(l, id, o), i)
    ensures l.tx.dead ==> TrySlot(l, id, o).tx == l.tx && TrySlot(l, id, o).closed == l.closed
  {
    var l' := TrySlot(l, id, o);
    if SlotTaken(l) || l.tx.dead {
      forall i | i != id ensures Asleep(l', i) <==> Asleep(l, i) {}
      assert !Asleep(l', id);
    } else {
      forall i ensures !Asleep(l, i) {}
      var taken := l.(tx := TakeSlot(l.tx, l.sends[id].pdu, o));
      forall i ensures !Asleep(taken, i) { assert !Asleep(l, i); }
      FinishLeavesNobody(taken, id, |l.tx.sent|);
      forall i | i != id ensures !Asleep(l', i) { assert !Asleep(l, i); }
    }
  }

  /** What a call of send that tests its first loop needs to know of the others. */
  lemma ComesToTest(l: Link, l1: Link, id: nat)
    requires Sole(l) && WaitsOk(l) && l1.tx == l.tx && l1.closed == l.closed && !Owns(l1.sends, id)
    requires forall i :: i != id ==> (i in l1.sends <==> i in l.sends) && (i in l.sends ==> l1.sends[i] == l.sends[i])
    ensures forall i :: Asleep(l1, i) ==> i != id && l1.tx.wpdu.buf.Some?
    ensures WaitsOk(l1)
  {
    forall i | Asleep(l1, i) ensures i != id && l1.tx.wpdu.buf.Some? && Asleep(l, i) {
      assert Owns(l1.sends, i);
      AsleepOwns(l, i);
    }
  }

  lemma FlushStep(l: Link, step: Step, id: nat)
    requires Sole(l) && WaitsOk(l) && Enabled(l, step)
    requires step == FlushWakes(id) || step == SpuriousFlush(id) || step == RemoveReturns(id)
    ensures WaitsOk(Apply(l, step))
  {
    NobodyAsleep(l, id);
    hide Sole;
    if step == RemoveReturns(id) || (step == FlushWakes(id) && Flushed(l.tx)) {
      FinishLeavesNobody(l, id, l.sends[id].phase.slot);
    } else {
      forall i | i != id ensures !Asleep(Apply(l, step), i) {
        assert !Asleep(l, i);
      }
    }
  }

  lemma SignalWakes(l: Link)
    ensures forall i :: !Asleep(l.(sends := SignalComplete(l.sends)), i)
  {
  }

  /** write_cb signals if it leaves the loop test false. */
  lemma WriteStep(l: Link, o: WriteOutcome)
    requires Sole(l) && WaitsOk(l) && Enabled(l, WriteReady(o))
    ensures WaitsOk(Apply(l, WriteReady(o)))
  {
    var l' := l.(tx := WriteCb(l.tx, o));
    SignalWakes(l');
    hide Sole;
    if !WriteCbSignals(l.tx, o) {
      forall i ensures Asleep(l', i) <==> Asleep(l, i) {}
      assert l.tx.wpdu.sz != 0 ==> !Flushed(l'.tx);
    }
  }

  lemma StepKeeps(l: Link, step: Step)
    requires Sole(l) && WaitsOk(l) && Enabled(l, step)
    ensures WaitsOk(Apply(l, step))
  {
    hide Sole, TrySlot, Finish, WriteCb, WriteCbSignals, Flushed, ReadCb, Sendable;
    match step
    case SendEnters(id, pdu, o) =>
      var l1 := l.(sends := l.sends[id := Send(pdu, Returned(false, None))]);
      ComesToTest(l, l1, id);
      TrySlotWaits(l1, id, o);
    case SendWakes(id, o) =>
      var l1 := l.(waiters := l.waiters - 1);
      ComesToTest(l, l1, id);
      TrySlotWaits(l1, id, o);
    case FlushWakes(id) => FlushStep(l, step, id);
    case SpuriousFlush(id) => FlushStep(l, step, id);
    case RemoveReturns(id) => FlushStep(l, step, id);
    case WriteReady(o) => WriteStep(l, o);
    case TxReadFails => SignalWakes(l.(tx := l.tx.(dead := true)));
    case TxCloses => assert l.tx.dead || forall i :: Asleep(l, i) <==> Asleep(Apply(l, step), i);
    case Spurious(id) => forall i ensures Asleep(Apply(l, step), i) <==> Asleep(l, i) {}
    case ReadReady(h, b, take) => forall i ensures Asleep(Apply(l, step), i) <==> Asleep(l, i) {}
    case RxDies => forall i ensures Asleep(Apply(l, step), i) <==> Asleep(l, i) {}
  }

  lemma {:induction false} BehaviourWaits(states: seq<Link>, steps: seq<Step>, k: nat)
    requires Behaviour(states, steps) && k < |states|
    ensures Sole(states[k]) && WaitsOk(states[k])
  {
    BehaviourOk(states, steps, k);
    LinkIsSole(states[k]);
    hide LinkOk, Sole, Enabled, Apply;
    if k > 0 {
      BehaviourWaits(states, steps, k - 1);
      StepKeeps(states[k - 1], steps[k - 1]);
    }
  }

  // ---------------------------------------------------------------------------------------------
  // Main results
  // ---------------------------------------------------------------------------------------------

  /** In every state: a sender whose second loop test has come out false, and that is nevertheless asleep, is on a
      connection that closeconn has closed. No other end of its wait goes unsignalled. */
  lemma OnlyCloseLeavesAsleep(states: seq<Link>, steps: seq<Step>, k: nat, id: nat)
    requires Behaviour(states, steps) && k < |states|
    requires Asleep(states[k], id) && Flushed(states[k].tx)
    ensures states[k].closed && states[k].tx.dead
  {
    BehaviourWaits(states, steps, k);
  }

  lemma OthersDoNotFlush(l: Link, i: nat, id: nat)
    requires Sole(l) && Asleep(l, id)
    ensures Owns(l.sends, i) ==> i == id
  {
    AsleepOwns(l, id);
    hide Sole;
  }

  lemma ClosedTestSleepsOn(l: Link, l1: Link, i: nat, id: nat, o: WriteOutcome)
    requires Sole(l) && WaitsOk(l) && Asleep(l, id) && l.closed && i != id
    requires l1.tx == l.tx && l1.closed == l.closed && i in l1.sends && !Owns(l1.sends, i)
    requires Sendable(l1.sends[i].pdu) && (o.Wrote? ==> o.n <= |l1.sends[i].pdu|)
    requires forall j :: j != i ==> (j in l1.sends <==> j in l.sends) && (j in l.sends ==> l1.sends[j] == l.sends[j])
    ensures Asleep(TrySlot(l1, i, o), id) && TrySlot(l1, i, o).closed
  {
    hide Sole, TrySlot, Sendable;
    ComesToTest(l, l1, i);
    TrySlotWaits(l1, i, o);
    assert Asleep(l1, id);
  }

  /** On a closed connection nothing but a spurious wakeup wakes the sleeper: there is no more write_cb, and read_cb and
      closeconn return at once. */
  lemma ClosedSleepsOn(l: Link, step: Step, id: nat)
    requires Sole(l) && WaitsOk(l) && Enabled(l, step) && Asleep(l, id) && l.closed && step != SpuriousFlush(id)
    ensures Asleep(Apply(l, step), id) && Apply(l, step).closed
  {
    hide Sole, TrySlot, WriteCb, WriteCbSignals, Flushed, ReadCb, Sendable, Finish;
    match step
    case SendEnters(i, pdu, o) =>
      ClosedTestSleepsOn(l, l.(sends := l.sends[i := Send(pdu, Returned(false, None))]), i, id, o);
    case SendWakes(i, o) => ClosedTestSleepsOn(l, l.(waiters := l.waiters - 1), i, id, o);
    case FlushWakes(i) => OthersDoNotFlush(l, i, id);
    case RemoveReturns(i) => OthersDoNotFlush(l, i, id);
    case _ =>
  }

  /** A sender that is through, or on its way to be. */
  ghost predicate Through(l: Link, id: nat) {
    id in l.sends && (l.sends[id].phase.Returned? || (l.sends[id].phase.Flushing? && l.sends[id].phase.woken && Flushed(l.tx)))
  }

  lemma {:induction false} SleepsOn(states: seq<Link>, steps: seq<Step>, a: nat, k: nat, id: nat)
    requires Behaviour(states, steps) && a <= k <= |steps| && Asleep(states[a], id) && states[a].closed
    requires forall m :: a <= m < k ==> steps[m] != SpuriousFlush(id)
    ensures Asleep(states[k], id) && states[k].closed
  {
    hide Asleep, Sole, WaitsOk, Enabled, Apply;
    if a < k {
      SleepsOn(states, steps, a, k - 1, id);
      BehaviourWaits(states, steps, k - 1);
      ClosedSleepsOn(states[k - 1], steps[k - 1], id);
    }
  }

  lemma TestKeepsThrough(l: Link, i: nat, id: nat, o: WriteOutcome)
    requires Through(l, id) && i in l.sends && i != id
    requires Sendable(l.sends[i].pdu) && (o.Wrote? ==> o.n <= |l.sends[i].pdu|)
    requires l.sends[id].phase.Flushing? ==> l.tx.wpdu.buf.Some?
    ensures Through(TrySlot(l, i, o), id)
  {
    hide TakeSlot;
  }

  lemma OwnerHasBuffer(l: Link, id: nat)
    requires Sole(l) && Owns(l.sends, id)
    ensures l.tx.wpdu.buf.Some? && forall i :: Owns(l.sends, i) ==> i == id
  {
  }

  lemma WriteKeepsThrough(l: Link, id: nat, o: WriteOutcome)
    requires Through(l, id) && Enabled(l, WriteReady(o))
    ensures Through(Apply(l, WriteReady(o)), id)
  {
  }

  lemma FinishKeepsThrough(l: Link, i: nat, id: nat, slot: nat)
    requires i in l.sends && id in l.sends && (i == id || l.sends[id].phase.Returned?)
    ensures Through(Finish(l, i, slot), id)
  {
  }

  /** A send that gives the write buffer back does so for itself. */
  lemma OwnerIsIt(l: Link, i: nat, id: nat)
    requires Sole(l) && Owns(l.sends, i) && Through(l, id)
    ensures i == id || l.sends[id].phase.Returned?
  {
    OwnerHasBuffer(l, i);
    hide Sole;
    assert Owns(l.sends, id) ==> id == i;
  }

  lemma EndKeepsThrough(l: Link, step: Step, i: nat, id: nat)
    requires Sole(l) && Through(l, id) && Enabled(l, step) && (step == FlushWakes(i) || step == RemoveReturns(i))
    ensures Through(Apply(l, step), id)
  {
    OwnerIsIt(l, i, id);
    hide Sole, Finish;
    if step.RemoveReturns? || Flushed(l.tx) {
      FinishKeepsThrough(l, i, id, l.sends[i].phase.slot);
    }
  }

  lemma TestingKeepsThrough(l: Link, step: Step, id: nat)
    requires Sole(l) && Through(l, id) && Enabled(l, step) && (step.SendEnters? || step.SendWakes?)
    ensures Through(Apply(l, step), id)
  {
    if Owns(l.sends, id) { OwnerHasBuffer(l, id); }
    hide Sole, TrySlot, Sendable;
    match step
    case SendEnters(i, pdu, o) => TestKeepsThrough(l.(sends := l.sends[i := Send(pdu, Returned(false, None))]), i, id, o);
    case SendWakes(i, o) => TestKeepsThrough(l.(waiters := l.waiters - 1), i, id, o);
  }

  lemma ThroughStays(l: Link, step: Step, id: nat)
    requires Sole(l) && Through(l, id) && Enabled(l, step)
    ensures Through(Apply(l, step), id)
  {
    hide Sole, TrySlot, Finish, WriteCb, WriteCbSignals, ReadCb, Sendable;
    match step
    case SendEnters(i, pdu, o) => TestingKeepsThrough(l, step, id);
    case SendWakes(i, o) => TestingKeepsThrough(l, step, id);
    case FlushWakes(i) => EndKeepsThrough(l, step, i, id);
    case RemoveReturns(i) => EndKeepsThrough(l, step, i, id);
    case WriteReady(o) => WriteKeepsThrough(l, id, o);
    case _ =>
  }

  lemma {:induction false} NeverAsleepAgain(states: seq<Link>, steps: seq<Step>, a: nat, k: nat, id: nat)
    requires Behaviour(states, steps) && a <= k <= |steps| && Through(states[a], id)
    ensures Through(states[k], id)
  {
    hide Through, Sole, Enabled, Apply;
    if a < k {
      NeverAsleepAgain(states, steps, a, k - 1, id);
      BehaviourOk(states, steps, k - 1);
      LinkIsSole(states[k - 1]);
      ThroughStays(states[k - 1], steps[k - 1], id);
    }
  }

  /** write_cb signals if it has made the loop test false. */
  lemma WriteTurns(l: Link, o: WriteOutcome, id: nat)
    requires Enabled(l, WriteReady(o)) && Asleep(l, id)
    requires !Flushed(l.tx) && Flushed(WriteCb(l.tx, o))
    ensures Through(Apply(l, WriteReady(o)), id)
  {
    assert WriteCbSignals(l.tx, o);
  }

  /** The step at which a sleeper's loop test comes out false: closeconn leaves it asleep, and any other step wakes it. */
  lemma TestTurns(l: Link, step: Step, id: nat)
    requires Sole(l) && Enabled(l, step) && Asleep(l, id) && step != SpuriousFlush(id)
    requires !Flushed(l.tx) && Flushed(Apply(l, step).tx)
    ensures step.TxCloses? ==> Asleep(Apply(l, step), id) && Apply(l, step).closed
    ensures !step.TxCloses? ==> Through(Apply(l, step), id)
  {
    AsleepOwns(l, id);
    hide Sole, WriteCb, WriteCbSignals, Finish, ReadCb, Proceed;
    match step
    case WriteReady(o) => WriteTurns(l, o, id);
    case FlushWakes(i) => OthersDoNotFlush(l, i, id);
    case RemoveReturns(i) => OthersDoNotFlush(l, i, id);
    case _ =>
  }

  /** A sender that sleeps in its second wait when its loop test comes out false sleeps for good if it was closeconn
      that closed the connection, and otherwise never sleeps there again: exactly closeconn loses the wakeup. */
  lemma SleepsExactlyWhenClosed(states: seq<Link>, steps: seq<Step>, a: nat, k: nat, id: nat)
    requires Behaviour(states, steps) && a < k <= |steps|
    requires Asleep(states[a], id) && !Flushed(states[a].tx) && Flushed(states[a + 1].tx)
    requires forall m :: a <= m < k ==> steps[m] != SpuriousFlush(id)
    ensures Asleep(states[k], id) <==> steps[a].TxCloses?
  {
    BehaviourWaits(states, steps, a);
    TestTurns(states[a], steps[a], id);
    if steps[a].TxCloses? {
      SleepsOn(states, steps, a + 1, k, id);
    } else {
      NeverAsleepAgain(states, steps, a + 1, k, id);
    }
  }

  /** Such a run: the socket takes nothing of the first write, and another thread closes the connection. */
  lemma CloseLeavesSenderAsleep() returns (states: seq<Link>, steps: seq<Step>)
    ensures Behaviour(states, steps) && |steps| == 2 && steps[1] == TxCloses
    ensures Asleep(states[1], 1) && !Flushed(states[1].tx)
    ensures Asleep(states[2], 1) && Flushed(states[2].tx)
  {
    steps := [SendEnters(1, [0, 0, 0, 4], WriteBlocks), TxCloses];
    var sleeping := Apply(START, steps[0]);
    states := [START, sleeping, Apply(sleeping, TxCloses)];
  }
}
