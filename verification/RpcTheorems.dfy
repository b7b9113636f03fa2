/** What the whole protocol guarantees, in every state of every behaviour. */
module RpcTheorems {
  import opened Common
  import opened ReplyWindow
  import opened ServerMachine
  import opened RpcClient
  import opened RpcMachine
  import opened RpcInvariant

  /** No live call is forgotten: the server's watermark is at most the front of the client's window, which is below
      every unfinished call; so is every xid_rep in flight; and a retransmission of an unfinished call, whenever it
      arrives, is not answered FORGOTTEN. Timeouts, cancels and restarts are all allowed. */
  lemma NoLiveCallIsForgotten(states: seq<System>, steps: seq<Step>, k: nat, c: nat, x: nat)
    requires Behaviour(states, steps) && k < |states|
    requires c in states[k].clients && Unfinished(states[k].clients[c], x)
    ensures var s := states[k];
            && s.clients[c].window != []
            && Mark(s.server.win, c) <= s.clients[c].window[0] < x
            && (forall req :: req in s.requests && req.clt == c ==> req.xidRep <= s.clients[c].window[0])
            && Known(s, c, x) && !VerdictOn(s.server, Issued(s, c, x)).Forgotten?
  {
    BehaviourInv(states, steps, k);
    LiveIsNotForgotten(states[k], c, x);
  }

  lemma LiveIsNotForgotten(s: System, c: nat, x: nat)
    requires Inv(s) && c in s.clients && Unfinished(s.clients[c], x)
    ensures s.clients[c].window != []
    ensures Mark(s.server.win, c) <= s.clients[c].window[0] < x
    ensures forall req :: req in s.requests && req.clt == c ==> req.xidRep <= s.clients[c].window[0]
    ensures Known(s, c, x) && !VerdictOn(s.server, Issued(s, c, x)).Forgotten?
  {
    hide ServerInv, Refines, CompletedOk, StampsOk, RepliesOk, AllResultsOk, RunsOk, HaltOk, ClientInv;
    FrontBelowUnfinished(c, s.clients[c], x);
    ServerParts(s.server);
    FrontAboveMark(s, c);
    assert Known(s, c, x);
    var req := Issued(s, c, x);
    if VerdictOn(s.server, req).Forgotten? {
      ForgottenIsFinished(s, req);
    }
    forall r | r in s.requests && r.clt == c ensures r.xidRep <= s.clients[c].window[0] {
      assert RequestOk(s, r);
    }
  }

  /** So no call ever returns atmostonce_failure. */
  lemma NoCallReturnsAtMostOnceFailure(states: seq<System>, steps: seq<Step>, k: nat, c: nat, x: nat)
    requires Behaviour(states, steps) && k < |states|
    requires c in states[k].clients && x in states[k].clients[c].outcomes
    ensures states[k].clients[c].outcomes[x].ret != ATMOSTONCE_FAILURE
  {
    BehaviourInv(states, steps, k);
    assert ClientInv(c, states[k].clients[c]);
  }

  /** At most once, end to end: the handler of a call runs with the arguments the client gave, on the instance the
      call was stamped for, and never twice unless the call is a bind that met two instances. */
  lemma CallsRunAtMostOnce(states: seq<System>, steps: seq<Step>, k: nat)
    requires Behaviour(states, steps) && k < |states|
    ensures var log := states[k].server.log;
            && (forall i :: 0 <= i < |log| ==>
                  && Known(states[k], log[i].req.clt, log[i].req.xid)
                  && log[i].req == Issued(states[k], log[i].req.clt, log[i].req.xid)
                  && (log[i].req.proc != BIND ==> log[i].instance == log[i].req.srvNonce))
            && (forall i, j :: 0 <= i < j < |log| && log[i].req.clt == log[j].req.clt && log[i].req.xid == log[j].req.xid ==>
                  log[i].req.proc == BIND && log[i].instance != log[j].instance)
  {
    BehaviourInv(states, steps, k);
    RunsAreDistinct(states[k]);
  }

  lemma RunsAreDistinct(s: System)
    requires Inv(s)
    ensures var log := s.server.log;
            && (forall i :: 0 <= i < |log| ==>
                  && Known(s, log[i].req.clt, log[i].req.xid)
                  && log[i].req == Issued(s, log[i].req.clt, log[i].req.xid)
                  && (log[i].req.proc != BIND ==> log[i].instance == log[i].req.srvNonce))
            && (forall i, j :: 0 <= i < j < |log| && log[i].req.clt == log[j].req.clt && log[i].req.xid == log[j].req.xid ==>
                  log[i].req.proc == BIND && log[i].instance != log[j].instance)
  {
    var log := s.server.log;
    forall i | 0 <= i < |log|
      ensures RequestOk(s, log[i].req)
      ensures log[i].req.proc == BIND <==> log[i].req.srvNonce == 0
    {
      assert RequestOk(s, log[i].req);
      assert ClientInv(log[i].req.clt, s.clients[log[i].req.clt]);
    }
    forall i, j | 0 <= i < j < |log| && log[i].req.clt == log[j].req.clt && log[i].req.xid == log[j].req.xid
      ensures log[i].req.proc == BIND && log[i].instance != log[j].instance
    {
      assert KeyOf(log[i]) != KeyOf(log[j]);
    }
  }

  /** A call that returned what a handler said, rather than by timeout, cancel or because the server was an old
      one. */
  predicate Served(cl: Client, x: nat) {
    && x in cl.outcomes
    && !GaveUp(cl, x)
    && cl.outcomes[x].ret != OLDSRV_FAILURE
  }

  /** Reply agreement: a served call returns the reply of a run of its own handler; for every procedure but bind that
      run is the only one there ever was, on the instance the call was stamped for. */
  lemma ReplyAgreement(states: seq<System>, steps: seq<Step>, k: nat, c: nat, x: nat) returns (run: nat)
    requires Behaviour(states, steps) && k < |states|
    requires c in states[k].clients && Served(states[k].clients[c], x)
    ensures var s := states[k];
            && run < |s.server.log| && s.server.log[run].req.clt == c && s.server.log[run].req.xid == x
            && KeyOf(s.server.log[run]) in s.server.completed
            && s.server.completed[KeyOf(s.server.log[run])] == s.clients[c].outcomes[x]
            && (s.server.log[run].req.proc != BIND ==>
                  forall j :: 0 <= j < |s.server.log| && s.server.log[j].req.clt == c && s.server.log[j].req.xid == x ==>
                    j == run)
  {
    BehaviourInv(states, steps, k);
    var s := states[k];
    RunsAreDistinct(s);
    run := ServedByARun(s, c, x);
  }

  lemma ServedByARun(s: System, c: nat, x: nat) returns (run: nat)
    requires Inv(s) && c in s.clients && Served(s.clients[c], x)
    ensures run < |s.server.log| && s.server.log[run].req.clt == c && s.server.log[run].req.xid == x
    ensures KeyOf(s.server.log[run]) in s.server.completed
    ensures s.server.completed[KeyOf(s.server.log[run])] == s.clients[c].outcomes[x]
  {
    var m := Message(c, x, s.clients[c].outcomes[x]);
    assert ResultsOk(c, s.clients[c], s.replies) && ClientInv(c, s.clients[c]);
    var instance := HandlerReply(s, m);
    assert Logged(s.server.log, ExecutionKey(instance, c, x));
    run :| 0 <= run < |s.server.log| && KeyOf(s.server.log[run]) == ExecutionKey(instance, c, x);
  }

  /** Placeholder survival, for every call by itself: when a handler returns, the server aborts exactly if the
      placeholder is gone, and it is gone only if this very call timed out or was cancelled, or if it is a bind
      that an earlier instance answered. */
  lemma PlaceholderSurvives(states: seq<System>, steps: seq<Step>, k: nat, c: nat, x: nat, reply: Reply)
    requires Behaviour(states, steps) && k < |states| && Enabled(states[k], Return(c, x, reply))
    ensures var s := states[k];
            && (Apply(s, Return(c, x, reply)).server.halted <==> x !in Saved(List(s.server.win, c)))
            && (x !in Saved(List(s.server.win, c)) ==> Excused(s, c, x))
  {
    BehaviourInv(states, steps, k);
    var s := states[k];
    SavedReplyRefines(s.server.win, s.server.seen, c, x, reply);
    if x !in Saved(List(s.server.win, c)) {
      UnlistedIsExcused(s, c, x);
    }
  }

  /** No timeout, no cancel, no restart: a call ends only after its reply came in. */
  predicate Patient(s: System, step: Step)
    requires Enabled(s, step)
  {
    match step
    case EndCall(c, x) => s.clients[c].calls[x].done
    case Cancel(_) => false
    case Reboot(_) => false
    case _ => true
  }

  ghost predicate PatientBehaviour(states: seq<System>, steps: seq<Step>) {
    && Behaviour(states, steps)
    && forall i :: 0 <= i < |steps| ==> Enabled(states[i], steps[i]) && Patient(states[i], steps[i])
  }

  ghost predicate Untroubled(s: System) {
    && s.server.used == {s.server.nonce}
    && forall c: nat :: c in s.clients ==> Content(s.clients[c])
  }

  lemma RepliesNeverGiveUp(s: System, m: Message)
    requires RepliesOk(s) && m in s.replies
    ensures m.reply.ret != TIMEOUT_FAILURE && m.reply.ret != CANCEL_FAILURE
  {
    assert Justified(s, m);
  }

  lemma PatientEnd(s: System, c: nat, x: nat)
    requires RepliesOk(s) && AllResultsOk(s) && c in s.clients && x in s.clients[c].calls
    requires s.clients[c].calls[x].done && Content(s.clients[c])
    ensures s.clients[c].calls[x].result.ret != TIMEOUT_FAILURE
  {
    assert ResultsOk(c, s.clients[c], s.replies);
    RepliesNeverGiveUp(s, Message(c, x, s.clients[c].calls[x].result));
  }

  ghost predicate Content(cl: Client) {
    forall x: nat :: !GaveUp(cl, x)
  }

  lemma FreshIsContent()
    ensures Content(FRESH_CLIENT)
  {}

  lemma ContentStays(clt: nat, cl: Client, proc: nat, args: Bytes, nonce: nat)
    requires ClientInv(clt, cl) && Content(cl)
    ensures Content(Begin(cl, clt, proc, args)) && Content(Bound(cl, nonce))
  {
    forall y: nat ensures !GaveUp(Begin(cl, clt, proc, args), y) && !GaveUp(Bound(cl, nonce), y) {
      assert !GaveUp(cl, y);
    }
  }

  lemma ContentDeliver(cl: Client, x: nat, reply: Reply)
    requires cl.window != [] && Content(cl) && reply.ret != CANCEL_FAILURE
    ensures Content(GotPdu(cl, x, reply))
  {
    forall y: nat ensures !GaveUp(GotPdu(cl, x, reply), y) {
      assert !GaveUp(cl, y);
    }
  }

  lemma ContentEnd(cl: Client, x: nat)
    requires cl.window != [] && x in cl.calls && cl.calls[x].done && Content(cl)
    requires cl.calls[x].result.ret != TIMEOUT_FAILURE
    ensures Content(End(cl, x))
  {
    assert !GaveUp(cl, x);
    forall y: nat ensures !GaveUp(End(cl, x), y) {
      assert !GaveUp(cl, y);
    }
  }

  lemma PatientStep(s: System, step: Step)
    requires Inv(s) && Untroubled(s) && Enabled(s, step) && Patient(s, step)
    ensures Untroubled(Apply(s, step))
  {
    hide ServerInv, StampsOk, RequestsOk, RepliesOk, AllResultsOk, RunsOk, MarksOk, HaltOk, Justified;
    hide ClientInv, GaveUp, Content, Begin, GotPdu, End, Bound, Refusal;
    match step
    case Invoke(c, proc, args) => ContentStays(c, s.clients[c], proc, args, 0);
    case BindDone(c, x) => ContentStays(c, s.clients[c], 0, [], FromBe32(s.clients[c].outcomes[x].body));
    case NewClient(c) => FreshIsContent();
    case Deliver(m) =>
      RepliesNeverGiveUp(s, m);
      ContentDeliver(s.clients[m.clt], m.xid, m.reply);
    case EndCall(c, x) =>
      PatientEnd(s, c, x);
      ContentEnd(s.clients[c], x);
    case _ =>
  }

  lemma {:induction false} PatientInv(states: seq<System>, steps: seq<Step>, k: nat)
    requires PatientBehaviour(states, steps) && k < |states|
    ensures Inv(states[k]) && Untroubled(states[k])
  {
    BehaviourInv(states, steps, k);
    if k > 0 {
      PatientInv(states, steps, k - 1);
      PatientStep(states[k - 1], steps[k - 1]);
    }
  }

  /** In runs without timeout, cancel and restart the server never reaches its assert(0). */
  lemma PatientServerNeverHalts(states: seq<System>, steps: seq<Step>, k: nat)
    requires PatientBehaviour(states, steps) && k < |states|
    ensures !states[k].server.halted
  {
    PatientInv(states, steps, k);
    var s := states[k];
    forall c: nat, x: nat | Known(s, c, x) ensures !Excused(s, c, x) {
      assert Content(s.clients[c]);
    }
  }
}
