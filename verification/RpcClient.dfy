/** The client endpoint (rpcc): the blocks of call1, got_pdu, cancel and bind that run under its mutex. */
module RpcClient {
  import opened Common
  import opened FinishedWindow
  import opened ReplyWindow
  import opened ServerMachine

  const BIND := 1
  const TIMEOUT_FAILURE := -1
  const BIND_FAILURE := -6
  const CANCEL_FAILURE := -7

  /** struct caller, without the xid that keys it. */
  datatype Call = Call(done: bool, result: Reply)

  datatype Client = Client(
    nextXid: nat,
    window: seq<nat>,
    calls: map<nat, Call>,
    bindDone: bool,
    srvNonce: nat,
    destroyWait: bool,
    // history
    issued: map<nat, Request>,    // the request made for each xid handed out
    outcomes: map<nat, Reply>)    // what each finished call returned

  const FRESH_CLIENT := Client(1, [0], map[], false, 0, false, map[], map[])

  /** The early returns of call1; 0 means the call goes ahead. */
  function Refusal(cl: Client, proc: nat): int {
    if (proc != BIND && !cl.bindDone) || (proc == BIND && cl.bindDone) then BIND_FAILURE
    else if cl.destroyWait then CANCEL_FAILURE
    else 0
  }

  function NextRequest(cl: Client, clt: nat, proc: nat, args: Bytes): Request
    requires cl.window != []
  {
    Request(clt, cl.nextXid, proc, cl.srvNonce, cl.window[0], args)
  }

  function Begin(cl: Client, clt: nat, proc: nat, args: Bytes): Client
    requires cl.window != []
  {
    cl.(nextXid := cl.nextXid + 1,
        calls := cl.calls[cl.nextXid := Call(false, Reply(0, []))],
        issued := cl.issued[cl.nextXid := NextRequest(cl, clt, proc, args)])
  }

  /** got_pdu: the window learns the xid in any case, the call only its first reply. */
  function GotPdu(cl: Client, xid: nat, reply: Reply): Client
    requires cl.window != []
  {
    var cl := cl.(window := Report(cl.window, xid));
    if xid in cl.calls && !cl.calls[xid].done then
      cl.(calls := cl.calls[xid := Call(true, reply)])
    else cl
  }

  /** The end of call1, reached with a result or by a timeout. */
  function ResultOf(call: Call): Reply {
    if call.done then call.result else Reply(TIMEOUT_FAILURE, [])
  }

  function End(cl: Client, xid: nat): Client
    requires cl.window != [] && xid in cl.calls
  {
    cl.(calls := cl.calls - {xid},
        window := Report(cl.window, xid),
        outcomes := cl.outcomes[xid := ResultOf(cl.calls[xid])])
  }

  function CancelAll(cl: Client): Client {
    cl.(calls := map x | x in cl.calls :: Call(true, Reply(CANCEL_FAILURE, [])),
        destroyWait := cl.destroyWait || cl.calls != map[])
  }

  function Bound(cl: Client, nonce: nat): Client {
    cl.(bindDone := true, srvNonce := nonce)
  }

  /** The call with this xid returned, or will return, without the reply of the server. */
  predicate GaveUp(cl: Client, x: nat) {
    || (x in cl.outcomes && (cl.outcomes[x].ret == TIMEOUT_FAILURE || cl.outcomes[x].ret == CANCEL_FAILURE))
    || (x in cl.calls && cl.calls[x].done && cl.calls[x].result.ret == CANCEL_FAILURE)
  }

  /** Has neither returned nor been given anything to return. */
  predicate Unfinished(cl: Client, x: nat) {
    x in cl.calls && !cl.calls[x].done
  }

  ghost predicate ClientInv(clt: nat, cl: Client) {
    && Compressed(cl.window)
    && 1 <= cl.nextXid
    && (cl.bindDone <==> cl.srvNonce != 0)
    && (forall x: nat :: x in cl.issued <==> 1 <= x < cl.nextXid)
    && (forall x: nat :: x in cl.issued <==> x in cl.calls || x in cl.outcomes)
    && (forall x: nat :: x in cl.calls ==> x !in cl.outcomes)
    && (forall x: nat :: x in cl.issued ==>
          && cl.issued[x].clt == clt && cl.issued[x].xid == x && cl.issued[x].xidRep <= cl.window[0]
          && (cl.issued[x].proc == BIND <==> cl.issued[x].srvNonce == 0))
    && (forall x: nat :: Finished(cl.window, x) && x != 0 ==> x in cl.issued && !Unfinished(cl, x))
    && (forall x: nat :: x in cl.outcomes ==> Finished(cl.window, x))
    && (forall x: nat :: x in cl.calls && cl.calls[x].done ==> cl.calls[x].result.ret != ATMOSTONCE_FAILURE)
    && (forall x: nat :: x in cl.outcomes ==> cl.outcomes[x].ret != ATMOSTONCE_FAILURE)
  }

  /** What no step of a client takes back. */
  ghost predicate Grows(cl: Client, cl': Client) {
    && cl.window != [] && cl'.window != [] && cl.window[0] <= cl'.window[0]
    && (forall x: nat :: Finished(cl.window, x) ==> Finished(cl'.window, x))
    && (forall x: nat :: x in cl.issued ==> x in cl'.issued && cl'.issued[x] == cl.issued[x])
    && (forall x: nat :: GaveUp(cl, x) ==> GaveUp(cl', x))
  }

  lemma FreshInv(clt: nat)
    ensures ClientInv(clt, FRESH_CLIENT)
  {}

  lemma BeginInv(clt: nat, cl: Client, proc: nat, args: Bytes)
    requires ClientInv(clt, cl) && Refusal(cl, proc) == 0
    ensures ClientInv(clt, Begin(cl, clt, proc, args)) && Grows(cl, Begin(cl, clt, proc, args))
  {
    BeginKeeps(clt, cl, proc, args);
    BeginGrows(cl, clt, proc, args);
    hide ClientInv, Grows, Begin;
  }

  lemma BeginKeeps(clt: nat, cl: Client, proc: nat, args: Bytes)
    requires ClientInv(clt, cl) && Refusal(cl, proc) == 0
    ensures ClientInv(clt, Begin(cl, clt, proc, args)) && cl.window != [] && cl.nextXid !in cl.issued
    ensures cl.nextXid !in cl.calls && cl.nextXid !in cl.outcomes
  {}

  lemma BeginGrows(cl: Client, clt: nat, proc: nat, args: Bytes)
    requires cl.window != [] && cl.nextXid !in cl.issued && cl.nextXid !in cl.calls && cl.nextXid !in cl.outcomes
    ensures Grows(cl, Begin(cl, clt, proc, args))
  {}

  /** A window that learned xid, seen from the rest of the client. */
  ghost predicate Learned(w: seq<nat>, w': seq<nat>, xid: nat) {
    && w != [] && Compressed(w') && w[0] <= w'[0]
    && forall y: nat :: Finished(w', y) <==> Finished(w, y) || y == xid
  }

  /** What may happen to the call that an xid was learned for. */
  ghost predicate Settled(cl: Client, xid: nat, calls: map<nat, Call>, outcomes: map<nat, Reply>) {
    && (forall x: nat :: x != xid ==> (x in calls <==> x in cl.calls) && (x in outcomes <==> x in cl.outcomes))
    && (forall x: nat :: x != xid && x in calls ==> calls[x] == cl.calls[x])
    && (forall x: nat :: x != xid && x in outcomes ==> outcomes[x] == cl.outcomes[x])
    && (xid in calls ==> xid in cl.calls && calls[xid].done && calls[xid].result.ret != ATMOSTONCE_FAILURE)
    && (xid in outcomes ==> outcomes[xid].ret != ATMOSTONCE_FAILURE)
    && (xid in calls <==> xid !in outcomes)
  }

  lemma LearnedInv(clt: nat, cl: Client, xid: nat, w: seq<nat>, calls: map<nat, Call>, outcomes: map<nat, Reply>)
    requires ClientInv(clt, cl) && xid in cl.issued && Learned(cl.window, w, xid)
    requires Settled(cl, xid, calls, outcomes)
    ensures ClientInv(clt, cl.(window := w, calls := calls, outcomes := outcomes))
  {
    hide Compressed, Finished;
  }

  lemma LearnedGrows(cl: Client, xid: nat, w: seq<nat>, calls: map<nat, Call>, outcomes: map<nat, Reply>)
    requires Learned(cl.window, w, xid) && Settled(cl, xid, calls, outcomes)
    requires GaveUp(cl, xid) ==> GaveUp(cl.(calls := calls, outcomes := outcomes), xid)
    ensures Grows(cl, cl.(window := w, calls := calls, outcomes := outcomes))
  {
    var cl' := cl.(window := w, calls := calls, outcomes := outcomes);
    forall x: nat | GaveUp(cl, x) ensures GaveUp(cl', x) {}
  }

  lemma GotPduSettles(clt: nat, cl: Client, xid: nat, reply: Reply)
    requires ClientInv(clt, cl) && xid in cl.issued
    requires reply.ret == ATMOSTONCE_FAILURE ==> Finished(cl.window, xid)
    ensures var cl' := GotPdu(cl, xid, reply);
            && Settled(cl, xid, cl'.calls, cl'.outcomes)
            && (GaveUp(cl, xid) ==> GaveUp(cl.(calls := cl'.calls, outcomes := cl'.outcomes), xid))
  {
    hide Report, Compressed;
  }

  lemma ReportLearns(w: seq<nat>, xid: nat)
    requires Compressed(w)
    ensures Learned(w, Report(w, xid), xid)
  {
    ReportMeaning(w, xid);
  }

  /** A reply that says the request is forgotten never reaches an unfinished call. */
  lemma GotPduInv(clt: nat, cl: Client, xid: nat, reply: Reply)
    requires ClientInv(clt, cl) && xid in cl.issued
    requires reply.ret == ATMOSTONCE_FAILURE ==> Finished(cl.window, xid)
    ensures ClientInv(clt, GotPdu(cl, xid, reply)) && Grows(cl, GotPdu(cl, xid, reply))
  {
    assert Compressed(cl.window);
    hide ClientInv, Learned, Settled, Grows, Finished, Compressed, Report, GaveUp;
    ReportLearns(cl.window, xid);
    GotPduSettles(clt, cl, xid, reply);
    var cl' := GotPdu(cl, xid, reply);
    LearnedInv(clt, cl, xid, cl'.window, cl'.calls, cl'.outcomes);
    LearnedGrows(cl, xid, cl'.window, cl'.calls, cl'.outcomes);
  }

  lemma EndSettles(clt: nat, cl: Client, xid: nat)
    requires ClientInv(clt, cl) && xid in cl.calls
    ensures var cl' := End(cl, xid);
            && Settled(cl, xid, cl'.calls, cl'.outcomes)
            && (GaveUp(cl, xid) ==> GaveUp(cl.(calls := cl'.calls, outcomes := cl'.outcomes), xid))
  {}

  lemma EndInv(clt: nat, cl: Client, xid: nat)
    requires ClientInv(clt, cl) && xid in cl.calls
    ensures ClientInv(clt, End(cl, xid)) && Grows(cl, End(cl, xid))
  {
    assert Compressed(cl.window) && xid in cl.issued;
    hide ClientInv, Learned, Settled, Grows, Finished, Compressed, Report, GaveUp;
    ReportLearns(cl.window, xid);
    EndSettles(clt, cl, xid);
    var cl' := End(cl, xid);
    LearnedInv(clt, cl, xid, cl'.window, cl'.calls, cl'.outcomes);
    LearnedGrows(cl, xid, cl'.window, cl'.calls, cl'.outcomes);
  }

  lemma CancelInv(clt: nat, cl: Client)
    requires ClientInv(clt, cl)
    ensures ClientInv(clt, CancelAll(cl)) && Grows(cl, CancelAll(cl))
  {
    CancelKeeps(clt, cl);
    CancelGrows(cl);
    hide ClientInv, Grows, CancelAll;
  }

  lemma CancelKeeps(clt: nat, cl: Client)
    requires ClientInv(clt, cl)
    ensures ClientInv(clt, CancelAll(cl)) && cl.window != []
  {}

  lemma CancelGrows(cl: Client)
    requires cl.window != []
    ensures Grows(cl, CancelAll(cl))
  {
    var cl' := CancelAll(cl);
    forall x: nat | GaveUp(cl, x) ensures GaveUp(cl', x) {}
  }

  lemma BoundInv(clt: nat, cl: Client, nonce: nat)
    requires ClientInv(clt, cl) && nonce != 0
    ensures ClientInv(clt, Bound(cl, nonce)) && Grows(cl, Bound(cl, nonce))
  {}

  /** The window front stays below every unfinished call. */
  lemma FrontBelowUnfinished(clt: nat, cl: Client, x: nat)
    requires ClientInv(clt, cl) && Unfinished(cl, x)
    ensures cl.window != [] && x in cl.issued
    ensures cl.window[0] < x && !Finished(cl.window, x)
  {}

  class Rpcc {
    const cltNonce: nat
    var xid: nat
    const window: XidRepWindow
    var calls: map<nat, Call>
    var bindDone: bool
    var srvNonce: nat
    var destroyWait: bool
    ghost var issued: map<nat, Request>
    ghost var outcomes: map<nat, Reply>

    ghost function Value(): Client
      reads this, window
    {
      Client(xid, window.list, calls, bindDone, srvNonce, destroyWait, issued, outcomes)
    }

    constructor (clt: nat)
      ensures cltNonce == clt && Value() == FRESH_CLIENT && window.Valid() && fresh(window)
    {
      cltNonce := clt;
      window := new XidRepWindow();
      xid, calls, bindDone, srvNonce, destroyWait := 1, map[], false, 0, false;
      issued, outcomes := map[], map[];
    }

    /** The first block of call1: refuse, or take the next xid and build the request header. */
    method BeginCall(proc: nat, args: Bytes) returns (refusal: int, req: Request)
      requires window.Valid()
      modifies this
      ensures window.Valid()
      ensures refusal == Refusal(old(Value()), proc)
      ensures refusal != 0 ==> Value() == old(Value())
      ensures refusal == 0 ==> req == NextRequest(old(Value()), cltNonce, proc, args)
      ensures refusal == 0 ==> Value() == Begin(old(Value()), cltNonce, proc, args)
    {
      req := Request(cltNonce, xid, proc, srvNonce, window.list[0], args);
      if (proc != BIND && !bindDone) || (proc == BIND && bindDone) {
        return BIND_FAILURE, req;
      }
      if destroyWait {
        return CANCEL_FAILURE, req;
      }
      calls := calls[xid := Call(false, Reply(0, []))];
      issued := issued[xid := req];
      xid := xid + 1;
      return 0, req;
    }

    /** rpcc::got_pdu, for a reply whose header decoded. */
    method GotReply(replyXid: nat, reply: Reply)
      requires window.Valid()
      modifies this, window
      ensures window.Valid()
      ensures Value() == GotPdu(old(Value()), replyXid, reply)
    {
      window.UpdateXidRep(replyXid);
      if replyXid !in calls {
        return;
      }
      if !calls[replyXid].done {
        calls := calls[replyXid := Call(true, reply)];
      }
    }

    /** The last block of call1: the result, and whether it signals a thread that waits in cancel. */
    method EndCall(callXid: nat) returns (result: Reply, signal: bool)
      requires window.Valid() && callXid in calls
      modifies this, window
      ensures window.Valid()
      ensures Value() == End(old(Value()), callXid)
      ensures result == ResultOf(old(calls)[callXid]) && signal == old(destroyWait)
    {
      signal := destroyWait;
      result := if calls[callXid].done then calls[callXid].result else Reply(TIMEOUT_FAILURE, []);
      calls := calls - {callXid};
      window.UpdateXidRep(callXid);
      outcomes := outcomes[callXid := result];
    }

    /** One turn of the wait in rpcc::cancel: it goes on as long as calls are outstanding, and none can begin
        meanwhile. */
    method CancelTurn() returns (wait: bool)
      requires window.Valid()
      modifies this`destroyWait
      ensures wait == (calls != map[])
      ensures Value() == old(Value()).(destroyWait := old(destroyWait) || wait)
    {
      wait := |calls| > 0;
      if wait {
        destroyWait := true;
      }
    }

    /** rpcc::cancel up to its wait: every outstanding call is told to fail, one after the other. */
    method Cancel()
      requires window.Valid()
      modifies this
      ensures window.Valid()
      ensures Value() == CancelAll(old(Value()))
    {
      var todo := calls.Keys;
      while todo != {}
        invariant todo <= calls.Keys == old(calls).Keys
        invariant forall x :: x in calls ==>
                    calls[x] == if x in todo then old(calls)[x] else Call(true, Reply(CANCEL_FAILURE, []))
        invariant unchanged(this`xid, this`bindDone, this`srvNonce, this`destroyWait, this`issued, this`outcomes)
        invariant unchanged(window)
        decreases todo
      {
        var x :| x in todo;
        calls := calls[x := Call(true, Reply(CANCEL_FAILURE, []))];
        todo := todo - {x};
      }
      if calls != map[] {
        destroyWait := true;
      }
      assert calls == CancelAll(old(Value())).calls;
      assert calls == map[] <==> old(calls) == map[] by { assert calls.Keys == {} <==> calls == map[]; }
    }
  }
}
