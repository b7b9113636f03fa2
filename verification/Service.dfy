/** What the protocol makes happen: every request that comes in is answered, run or left to the run under way, and
    every unfinished call can still be served. */
module Service {
  import opened Common
  import opened FinishedWindow
  import opened ReplyWindow
  import opened ServerMachine
  import opened RpcClient
  import opened RpcMachine
  import opened RpcInvariant
  import opened RpcTheorems

  /** The handler of this call has been started on the present instance. */
  ghost predicate Ran(sv: Server, clt: nat, xid: nat) {
    Logged(sv.log, ExecutionKey(sv.nonce, clt, xid))
  }

  lemma SeenIsRan(sv: Server, clt: nat, xid: nat)
    requires ServerInv(sv)
    ensures (clt, xid) in sv.seen <==> Ran(sv, clt, xid)
    ensures ExecutionKey(sv.nonce, clt, xid) in sv.completed <==> (clt, xid) in sv.seen && sv.seen[(clt, xid)].Some?
    ensures ExecutionKey(sv.nonce, clt, xid) in sv.completed ==>
              sv.completed[ExecutionKey(sv.nonce, clt, xid)] == sv.seen[(clt, xid)].value
  {
    hide Refines;
  }

  /** What the server does with a request, by what has run and what has been answered so far. */
  ghost predicate Treated(sv: Server, req: Request, sv': Server, sent: set<Message>) {
    var key := ExecutionKey(sv.nonce, req.clt, req.xid);
    var mark := Max(Mark(sv.win, req.clt), req.xidRep);
    if req.srvNonce != 0 && req.srvNonce != sv.nonce then
      sv' == sv && sent == {Message(req.clt, req.xid, Reply(OLDSRV_FAILURE, []))}
    else
      && Mark(sv'.win, req.clt) == mark && sv'.completed == sv.completed && sv'.nonce == sv.nonce && !sv'.halted
      && if req.xid < mark then
           sv'.log == sv.log && sent == {Message(req.clt, req.xid, Reply(ATMOSTONCE_FAILURE, []))}
         else if key in sv.completed then
           sv'.log == sv.log && sent == {Message(req.clt, req.xid, sv.completed[key])}
         else if Ran(sv, req.clt, req.xid) then
           sv'.log == sv.log && sent == {}
         else
           sv'.log == sv.log + [Execution(sv.nonce, req)] && sent == {}
  }

  lemma TreatedAsDue(sv: Server, req: Request)
    requires ServerInv(sv) && !sv.halted
    ensures Treated(sv, req, Accept(sv, req), ImmediateReplies(sv, req))
  {
    SeenIsRan(sv, req.clt, req.xid);
    CheckRefines(sv.win, sv.seen, req.clt, req.xid, req.xidRep);
    hide ServerInv, Refines, Check, Ran;
  }

  /** Every request that arrives, whenever and however often, is answered at once with oldsrv_failure if it is for
      another instance, with atmostonce_failure if it is below the watermark, and with the saved reply if its handler
      has returned here; if the handler is running nothing happens; and otherwise, and only then, it is run. */
  lemma EveryRequestIsTreated(states: seq<System>, steps: seq<Step>, k: nat, req: Request)
    requires Behaviour(states, steps) && k < |steps| && steps[k] == Receive(req)
    ensures Treated(states[k].server, req, states[k + 1].server, ImmediateReplies(states[k].server, req))
    ensures states[k + 1].replies == states[k].replies + ImmediateReplies(states[k].server, req)
  {
    BehaviourInv(states, steps, k);
    hide Treated, ServerInv, ClientsOk, StampsOk, RequestsOk, RepliesOk, AllResultsOk, RunsOk, MarksOk, HaltOk;
    TreatedAsDue(states[k].server, req);
  }

  // --- every unfinished call can still be served ---

  lemma Goes(states: seq<System>, steps: seq<Step>, step: Step) returns (states': seq<System>, steps': seq<Step>)
    requires Behaviour(states, steps) && Enabled(states[|steps|], step)
    ensures Behaviour(states', steps') && states' == states + [Apply(states[|steps|], step)] && steps' == steps + [step]
  {
    states', steps' := states + [Apply(states[|steps|], step)], steps + [step];
    hide Apply, Enabled;
    forall i | 0 <= i < |steps'| ensures Enabled(states'[i], steps'[i]) && states'[i + 1] == Apply(states'[i], steps'[i]) {
      if i < |steps| { assert states'[i + 1] == states[i + 1]; }
    }
  }

  /** A request that is not forgotten is answered, or its handler is running and its placeholder there. */
  ghost predicate WillBeServed(sv: Server, req: Request) {
    var key := ExecutionKey(sv.nonce, req.clt, req.xid);
    var sv' := Accept(sv, req);
    && sv'.nonce == sv.nonce && !sv'.halted && sv'.completed == sv.completed
    && match Response(sv, req)
       case Some(reply) =>
         if ForOldServer(sv, req) then reply == Reply(OLDSRV_FAILURE, [])
         else key in sv.completed && reply == sv.completed[key]
       case None =>
         && !ForOldServer(sv, req) && key !in sv.completed
         && Running(sv', req.clt, req.xid) && req.xid in Saved(List(sv'.win, req.clt))
  }

  lemma NotForgottenIsServed(sv: Server, req: Request)
    requires ServerInv(sv) && !sv.halted && !VerdictOn(sv, req).Forgotten?
    ensures WillBeServed(sv, req)
  {
    SeenIsRan(sv, req.clt, req.xid);
    CheckRefines(sv.win, sv.seen, req.clt, req.xid, req.xidRep);
    if !ForOldServer(sv, req) && Response(sv, req).None? {
      ListedAfter(sv, req);
    }
    hide ServerInv, Refines, Check, Ran, Saved, List, Mark;
  }

  lemma ListedAfter(sv: Server, req: Request)
    requires Refines(sv.win, sv.seen) && !VerdictOn(sv, req).Forgotten?
    requires (req.clt, req.xid) in Remember(sv.seen, req.clt, req.xid, VerdictOn(sv, req))
    ensures req.xid in Saved(List(Check(sv.win, req.clt, req.xid, req.xidRep).1, req.clt))
  {
    CheckRefines(sv.win, sv.seen, req.clt, req.xid, req.xidRep);
  }

  lemma OwnRequest(s: System, c: nat, x: nat)
    requires ClientsOk(s) && c in s.clients && Known(s, c, x)
    ensures Issued(s, c, x).clt == c && Issued(s, c, x).xid == x && c != 0
  {
    assert ClientInv(c, s.clients[c]);
  }

  lemma LiveIsServed(states: seq<System>, steps: seq<Step>, c: nat, x: nat)
    requires Behaviour(states, steps) && c in states[|steps|].clients && Unfinished(states[|steps|].clients[c], x)
    requires !states[|steps|].server.halted
    ensures var s := states[|steps|];
      && Known(s, c, x) && Issued(s, c, x).clt == c && Issued(s, c, x).xid == x && c != 0 && s.clients[c].window != []
      && WillBeServed(s.server, Issued(s, c, x))
  {
    var s := states[|steps|];
    BehaviourInv(states, steps, |steps|);
    LiveIsNotForgotten(s, c, x);
    assert ServerInv(s.server) && ClientsOk(s);
    hide Inv, ServerInv, ClientsOk, WillBeServed, VerdictOn, Mark, Behaviour;
    OwnRequest(s, c, x);
    NotForgottenIsServed(s.server, Issued(s, c, x));
  }

  /** A handler whose placeholder is there returns its reply. */
  lemma ReturnIsSaved(sv: Server, c: nat, x: nat, reply: Reply)
    requires ServerInv(sv) && Running(sv, c, x) && x in Saved(List(sv.win, c)) && !sv.halted
    ensures var sv' := Answered(sv, c, x, reply); var key := ExecutionKey(sv.nonce, c, x);
      !sv'.halted && sv'.nonce == sv.nonce && key in sv'.completed && sv'.completed[key] == reply
  {
    SavedReplyRefines(sv.win, sv.seen, c, x, reply);
    hide Refines, Saved, List;
  }

  /** The client takes the first reply to an unfinished call. */
  lemma FirstReplyIsTaken(s: System, m: Message)
    requires m in s.replies && m.clt in s.clients && s.clients[m.clt].window != [] && Unfinished(s.clients[m.clt], m.xid)
    ensures Enabled(s, Deliver(m))
    ensures var t := Apply(s, Deliver(m));
      && t.server == s.server && m.clt in t.clients
      && m.xid in t.clients[m.clt].calls && t.clients[m.clt].calls[m.xid] == Call(true, m.reply)
  {
    hide Report;
  }

  /** What a retransmission is to the machine. */
  lemma Retransmitted(s: System, c: nat, x: nat)
    requires Known(s, c, x) && x in s.clients[c].calls && Issued(s, c, x).clt == c && c != 0 && !s.server.halted
    ensures Enabled(s, Transmit(c, x))
    ensures var t := Apply(s, Transmit(c, x)); var req := Issued(s, c, x);
      Enabled(t, Receive(req)) && t.server == s.server && Apply(t, Receive(req)).clients == s.clients
      && Apply(t, Receive(req)).server == Accept(s.server, req)
      && Apply(t, Receive(req)).replies == s.replies + ImmediateReplies(s.server, req)
  {
    hide Accept, ImmediateReplies;
  }

  /** The handler of a running call can return, and its reply is then on its way. */
  lemma CanReturn(s: System, c: nat, x: nat, reply: Reply)
    requires ServerInv(s.server) && HandlerMayReturn(s, c, x, reply) && !s.server.halted
    requires Running(s.server, c, x) && x in Saved(List(s.server.win, c))
    ensures Enabled(s, Return(c, x, reply))
    ensures var t := Apply(s, Return(c, x, reply));
      && t.clients == s.clients && Message(c, x, reply) in t.replies
      && !t.server.halted && t.server.nonce == s.server.nonce
  {
    ReturnIsSaved(s.server, c, x, reply);
    hide ServerInv, Answered, Saved, List, HandlerMayReturn;
  }

  lemma ServerIsOk(states: seq<System>, steps: seq<Step>, k: nat)
    requires Behaviour(states, steps) && k < |states|
    ensures ServerInv(states[k].server)
  {
    BehaviourInv(states, steps, k);
    hide ServerInv, ClientsOk, StampsOk, RequestsOk, RepliesOk, AllResultsOk, RunsOk, MarksOk, HaltOk;
  }

  lemma MayStillReturn(s: System, t: System, c: nat, x: nat, reply: Reply)
    requires HandlerMayReturn(s, c, x, reply) && t.clients == s.clients && t.server.nonce == s.server.nonce
    ensures HandlerMayReturn(t, c, x, reply)
  {
  }

  /** After the retransmission has arrived: its answer is on its way, or its handler can return. */
  ghost predicate Answering(s: System, t: System, c: nat, x: nat)
    requires Known(s, c, x)
  {
    var req, key := Issued(s, c, x), ExecutionKey(s.server.nonce, c, x);
    var stale := req.srvNonce != 0 && req.srvNonce != s.server.nonce;
    && t.clients == s.clients && t.server.nonce == s.server.nonce && !t.server.halted
    && match Response(s.server, req)
       case Some(r) =>
         && Message(c, x, r) in t.replies
         && (if stale then r == Reply(OLDSRV_FAILURE, []) else key in s.server.completed && r == s.server.completed[key])
       case None =>
         !stale && key !in s.server.completed && Running(t.server, c, x) && x in Saved(List(t.server.win, c))
  }

  lemma AnswerIsOnItsWay(s: System, t: System, c: nat, x: nat)
    requires Known(s, c, x) && WillBeServed(s.server, Issued(s, c, x))
    requires Issued(s, c, x).clt == c && Issued(s, c, x).xid == x
    requires t.server == Accept(s.server, Issued(s, c, x)) && t.clients == s.clients && !s.server.halted
    requires t.replies == s.replies + ImmediateReplies(s.server, Issued(s, c, x))
    ensures Answering(s, t, c, x)
  {
    hide Saved, List, Accept, Response, VerdictOn;
  }

  lemma Retransmits(states: seq<System>, steps: seq<Step>, c: nat, x: nat)
    returns (states': seq<System>, steps': seq<Step>)
    requires Behaviour(states, steps) && c in states[|steps|].clients && Unfinished(states[|steps|].clients[c], x)
    requires !states[|steps|].server.halted
    ensures Behaviour(states', steps') && states <= states' && steps <= steps' && |steps'| == |steps| + 2
    ensures Known(states[|steps|], c, x) && Answering(states[|steps|], states'[|steps'|], c, x)
    ensures states[|steps|].clients[c].window != []
  {
    var s := states[|steps|];
    LiveIsServed(states, steps, c, x);
    hide Behaviour, Apply, Enabled, Accept, ImmediateReplies, WillBeServed, Answering;
    Retransmitted(s, c, x);
    states', steps' := Goes(states, steps, Transmit(c, x));
    states', steps' := Goes(states', steps', Receive(Issued(s, c, x)));
    AnswerIsOnItsWay(s, states'[|steps'|], c, x);
  }

  /** A reply that is on its way to an unfinished call arrives. */
  lemma Arrives(states: seq<System>, steps: seq<Step>, m: Message) returns (states': seq<System>, steps': seq<Step>)
    requires Behaviour(states, steps) && m in states[|steps|].replies && m.clt in states[|steps|].clients
    requires states[|steps|].clients[m.clt].window != [] && Unfinished(states[|steps|].clients[m.clt], m.xid)
    ensures Behaviour(states', steps') && states <= states' && steps <= steps' && |steps'| == |steps| + 1
    ensures var t := states'[|steps'|];
      && t.server == states[|steps|].server && m.clt in t.clients
      && m.xid in t.clients[m.clt].calls && t.clients[m.clt].calls[m.xid] == Call(true, m.reply)
  {
    FirstReplyIsTaken(states[|steps|], m);
    states', steps' := Goes(states, steps, Deliver(m));
    hide Behaviour, Enabled, Apply;
  }

  /** The handler of a running call returns. */
  lemma HandlerEnds(states: seq<System>, steps: seq<Step>, c: nat, x: nat, reply: Reply)
    returns (states': seq<System>, steps': seq<Step>)
    requires Behaviour(states, steps) && HandlerMayReturn(states[|steps|], c, x, reply) && !states[|steps|].server.halted
    requires Running(states[|steps|].server, c, x) && x in Saved(List(states[|steps|].server.win, c))
    ensures Behaviour(states', steps') && states <= states' && steps <= steps' && |steps'| == |steps| + 1
    ensures var t := states'[|steps'|];
      && t.clients == states[|steps|].clients && Message(c, x, reply) in t.replies
      && !t.server.halted && t.server.nonce == states[|steps|].server.nonce
  {
    ServerIsOk(states, steps, |steps|);
    CanReturn(states[|steps|], c, x, reply);
    states', steps' := Goes(states, steps, Return(c, x, reply));
    hide Behaviour, Enabled, Apply, ServerInv;
  }

  /** Every unfinished call can still be served, whatever has happened to it, to others and to the server: from any
      state in which the server is up, at most four steps give it the reply its handler may return, or the one that it
      has returned on this instance before; or tell it that the instance it was made for is no more. */
  lemma UnfinishedCanBeServed(states: seq<System>, steps: seq<Step>, c: nat, x: nat, reply: Reply)
    returns (states': seq<System>, steps': seq<Step>)
    requires Behaviour(states, steps) && c in states[|steps|].clients && Unfinished(states[|steps|].clients[c], x)
    requires !states[|steps|].server.halted && HandlerMayReturn(states[|steps|], c, x, reply)
    ensures Behaviour(states', steps') && states <= states' && steps <= steps' && |steps'| <= |steps| + 4
    ensures var s, t := states[|steps|], states'[|steps'|];
      var key, stamp := ExecutionKey(s.server.nonce, c, x), Issued(s, c, x).srvNonce;
      && t.server.nonce == s.server.nonce && !t.server.halted
      && c in t.clients && x in t.clients[c].calls
      && t.clients[c].calls[x] == Call(true,
           if stamp != 0 && stamp != s.server.nonce then Reply(OLDSRV_FAILURE, [])
           else if key in s.server.completed then s.server.completed[key]
           else reply)
  {
    var s := states[|steps|];
    states', steps' := Retransmits(states, steps, c, x);
    var answer := Response(s.server, Issued(s, c, x));
    if answer.None? {
      MayStillReturn(s, states'[|steps'|], c, x, reply);
      states', steps' := HandlerEnds(states', steps', c, x, reply);
      answer := Some(reply);
    }
    hide Behaviour, Response, HandlerMayReturn, Running, Saved, List;
    states', steps' := Arrives(states', steps', Message(c, x, answer.value));
  }
}
