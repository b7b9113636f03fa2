/** End-to-end exclusion: the invariant that ties possessions at the clients to the state of the lock server. */
module LockSafety {
  import opened Common
  import opened ReplyWindow
  import opened ServerMachine
  import opened RpcClient
  import opened RpcMachine
  import opened RpcInvariant
  import opened RpcTheorems
  import opened LockSystem
  import M = LockServer

  ghost predicate Done(s: LockSys, call: CallId) {
    call in s.phase && s.phase[call].Completed?
  }

  /** A call of the lock service carries the arguments its thread meant. */
  ghost predicate OpOk(s: LockSys, call: CallId)
    requires call in s.ops
  {
    var op := s.ops[call];
    && Known(s.rpc, call.0, call.1) && call.0 < TWO_TO_THE_32 && op.lid < TWO_TO_THE_64
    && Issued(s.rpc, call.0, call.1).args == LockArgs(call.0, op.lid)
    && Issued(s.rpc, call.0, call.1).proc == (if op.Acquire? then ACQUIRE else RELEASE)
    && (op.Acquire? ==> call in s.tokens)
    && (op.Release? ==> (call.0, op.token) in s.ops && s.ops[(call.0, op.token)] == Acquire(op.lid))
  }

  ghost predicate OpsOk(s: LockSys) {
    && (forall call :: call in s.ops ==> OpOk(s, call))
    && (forall c: nat, x: nat :: Known(s.rpc, c, x) && IsLockProc(Issued(s.rpc, c, x).proc) ==> (c, x) in s.ops)
    && (forall t :: t in s.tokens ==> t in s.ops && s.ops[t].Acquire?)
  }

  /** A handler that is in, waiting or through belongs to a call the server has accepted. */
  ghost predicate PhaseOk(s: LockSys, call: CallId)
    requires call in s.phase
  {
    && call in s.ops && call in s.rpc.server.seen && Known(s.rpc, call.0, call.1)
    && match s.phase[call]
       case Entered(req) => req == Issued(s.rpc, call.0, call.1) && s.rpc.server.seen[call].None?
       case Blocked => s.ops[call].Acquire? && s.rpc.server.seen[call].None?
       case Completed => true
  }

  ghost predicate WaiterOk(s: LockSys, call: CallId, want: M.Want) {
    && call in s.phase && s.phase[call].Blocked?
    && call in s.ops && s.ops[call].lid == want.lid && want.clt == call.0
  }

  ghost predicate RecordsOk(s: LockSys) {
    forall call :: call in s.phase ==> PhaseOk(s, call)
  }

  ghost predicate SeenOk(s: LockSys) {
    && (forall call :: call in s.ops && call in s.rpc.server.seen ==> call in s.phase)
    && (forall call :: call in s.ops && call in s.rpc.server.seen && s.rpc.server.seen[call].Some? ==> Done(s, call))
  }

  ghost predicate WaitersOk(s: LockSys) {
    && (forall w :: w in s.mon.waiting ==> WaiterOk(s, w, s.mon.waiting[w]))
    && (forall w :: w in s.mon.woken ==> WaiterOk(s, w, s.mon.woken[w]))
  }

  ghost predicate PhasesOk(s: LockSys) {
    RecordsOk(s) && SeenOk(s) && WaitersOk(s)
  }

  ghost predicate Returned(s: LockSys, call: CallId) {
    call.0 in s.rpc.clients && call.1 in s.rpc.clients[call.0].outcomes
  }

  ghost predicate TokenOk(s: LockSys, t: CallId)
    requires t in s.tokens
  {
    && (s.tokens[t].Wanted? <==> !Done(s, t))
    && (!s.tokens[t].Wanted? && !s.tokens[t].Granted? ==> Returned(s, t))
    && (s.tokens[t].Releasing? ==>
          var r := (t.0, s.tokens[t].rel);
          r in s.ops && s.ops[r].Release? && s.ops[r].token == t.1 && !Done(s, r))
  }

  /** Each release call is about one possession, which it alone takes to its end. */
  ghost predicate ReleaseOk(s: LockSys, r: CallId)
    requires r in s.ops && s.ops[r].Release?
  {
    var t := (r.0, s.ops[r].token);
    t in s.tokens && s.tokens[t] == if Done(s, r) then Freed(r.1) else Releasing(r.1)
  }

  ghost predicate TokensOk(s: LockSys) {
    && (forall t :: t in s.tokens ==> TokenOk(s, t))
    && (forall r :: r in s.ops && s.ops[r].Release? ==> ReleaseOk(s, r))
  }

  /** The lock is LOCKED exactly while somebody possesses it, and its owner is the client of that possession. */
  ghost predicate HolderOk(s: LockSys) {
    && (forall lid: nat :: M.IsLocked(s.mon, lid) <==> lid in s.holder)
    && (forall lid: nat :: lid in s.holder ==>
          Live(s, s.holder[lid]) && s.holder[lid] in s.ops && s.ops[s.holder[lid]].lid == lid
          && s.mon.locks[lid].owner == s.holder[lid].0)
    && (forall t :: Live(s, t) && t in s.ops ==> s.ops[t].lid in s.holder && s.holder[s.ops[t].lid] == t)
  }

  /** What ties the calls and possessions at the clients to the lock server. */
  ghost predicate TiesOk(s: LockSys) {
    OpsOk(s) && PhasesOk(s) && TokensOk(s) && HolderOk(s)
  }

  ghost predicate LockInv(s: LockSys) {
    Inv(s.rpc) && Untroubled(s.rpc) && TiesOk(s) && M.MonitorInv(s.mon)
  }

  lemma LockStartInv(nonce: nat)
    requires 0 < nonce < TWO_TO_THE_32
    ensures LockInv(LockStart(nonce))
  {
    StartInv(nonce);
  }

  // ---------------------------------------------------------------------------------------------
  // Protocol steps
  // ---------------------------------------------------------------------------------------------

  /** What a step of the protocol outside the lock service leaves as it was. */
  ghost predicate Quiet(r: System, r': System, ops: map<CallId, Op>) {
    && (forall c: nat, x: nat :: Known(r, c, x) ==> Known(r', c, x) && Issued(r', c, x) == Issued(r, c, x))
    && (forall c: nat, x: nat :: Known(r', c, x) && IsLockProc(Issued(r', c, x).proc) ==> Known(r, c, x))
    && (forall c: nat, x: nat :: c in r.clients && x in r.clients[c].outcomes ==>
          c in r'.clients && x in r'.clients[c].outcomes)
    && (forall call :: call in ops ==>
          && (call in r.server.seen <==> call in r'.server.seen)
          && (call in r.server.seen ==> r'.server.seen[call] == r.server.seen[call]))
  }

  lemma QuietOps(s: LockSys, r': System)
    requires Quiet(s.rpc, r', s.ops) && OpsOk(s)
    ensures OpsOk(s.(rpc := r'))
  {
    var s' := s.(rpc := r');
    forall call | call in s.ops ensures OpOk(s', call) {
      assert OpOk(s, call);
    }
  }

  lemma QuietPhases(s: LockSys, r': System)
    requires Quiet(s.rpc, r', s.ops) && PhasesOk(s)
    ensures PhasesOk(s.(rpc := r'))
  {
    var s' := s.(rpc := r');
    forall call | call in s.phase ensures PhaseOk(s', call) {
      assert PhaseOk(s, call);
    }
    forall w, want | WaiterOk(s, w, want) ensures WaiterOk(s', w, want) {}
    forall call | call in s.ops && call in r'.server.seen ensures call in s.rpc.server.seen {}
    forall call ensures Done(s', call) <==> Done(s, call) {}
  }

  lemma QuietTokens(s: LockSys, r': System)
    requires Quiet(s.rpc, r', s.ops) && TokensOk(s)
    ensures TokensOk(s.(rpc := r'))
  {
    var s' := s.(rpc := r');
    forall call ensures Done(s', call) <==> Done(s, call) {}
    forall t | t in s.tokens ensures TokenOk(s', t) {
      assert TokenOk(s, t);
    }
    forall r | r in s.ops && s.ops[r].Release? ensures ReleaseOk(s', r) {
      assert ReleaseOk(s, r);
    }
  }

  /** Possessions and the monitor do not look at the protocol. */
  lemma SameHolder(s: LockSys, s': LockSys)
    requires s'.mon == s.mon && s'.tokens == s.tokens && s'.holder == s.holder && s'.ops == s.ops && HolderOk(s)
    ensures HolderOk(s')
  {
    forall t ensures Live(s', t) <==> Live(s, t) {}
  }

  lemma QuietKeeps(s: LockSys, r': System)
    requires TiesOk(s) && Quiet(s.rpc, r', s.ops)
    ensures TiesOk(s.(rpc := r'))
  {
    hide OpsOk, PhasesOk, TokensOk, HolderOk, Quiet;
    QuietOps(s, r');
    QuietPhases(s, r');
    QuietTokens(s, r');
    SameHolder(s, s.(rpc := r'));
  }

  /** Changing one client: what it has issued and returned stays, and it issues nothing for the lock service. */
  lemma QuietClient(s: LockSys, c: nat, cl: Client)
    requires c in s.rpc.clients && Grows(s.rpc.clients[c], cl)
    requires forall x: nat :: x in s.rpc.clients[c].outcomes ==> x in cl.outcomes
    requires forall x: nat :: x in cl.issued && IsLockProc(cl.issued[x].proc) ==> x in s.rpc.clients[c].issued
    ensures Quiet(s.rpc, With(s.rpc, c, cl), s.ops)
  {
    hide Grows;
    forall d: nat, x: nat | Known(s.rpc, d, x)
      ensures Known(With(s.rpc, c, cl), d, x) && Issued(With(s.rpc, c, cl), d, x) == Issued(s.rpc, d, x)
    {
      WithKnown(s.rpc, c, cl, d, x);
    }
  }

  lemma QuietInvoke(s: LockSys, c: nat, args: Bytes)
    requires ClientsOk(s.rpc) && Enabled(s.rpc, Invoke(c, BIND, args))
    ensures Quiet(s.rpc, Apply(s.rpc, Invoke(c, BIND, args)), s.ops)
  {
    var cl := s.rpc.clients[c];
    assert ClientInv(c, cl);
    BeginInv(c, cl, BIND, args);
    QuietClient(s, c, Begin(cl, c, BIND, args));
  }

  lemma QuietDeliver(s: LockSys, m: Message)
    requires ClientsOk(s.rpc) && RepliesOk(s.rpc) && Enabled(s.rpc, Deliver(m))
    ensures Quiet(s.rpc, Apply(s.rpc, Deliver(m)), s.ops)
  {
    hide ClientInv, RepliesOk, Quiet, Grows;
    var cl := s.rpc.clients[m.clt];
    assert ClientInv(m.clt, cl);
    RepliesAreForTheirCalls(s.rpc, m);
    GotPduInv(m.clt, cl, m.xid, m.reply);
    QuietClient(s, m.clt, GotPdu(cl, m.xid, m.reply));
  }

  lemma QuietNewClient(s: LockSys, c: nat)
    requires Enabled(s.rpc, NewClient(c))
    ensures Quiet(s.rpc, Apply(s.rpc, NewClient(c)), s.ops)
  {}

  lemma QuietTransmit(s: LockSys, c: nat, x: nat)
    requires Enabled(s.rpc, Transmit(c, x))
    ensures Quiet(s.rpc, Apply(s.rpc, Transmit(c, x)), s.ops)
  {}

  lemma QuietBind(s: LockSys, c: nat, x: nat)
    requires Enabled(s.rpc, BindDone(c, x))
    ensures Quiet(s.rpc, Apply(s.rpc, BindDone(c, x)), s.ops)
  {}

  lemma QuietReturn(s: LockSys, c: nat, x: nat, reply: Reply)
    requires OpsOk(s) && Enabled(s.rpc, Return(c, x, reply)) && !IsLockProc(Issued(s.rpc, c, x).proc)
    ensures Quiet(s.rpc, Apply(s.rpc, Return(c, x, reply)), s.ops)
  {
    assert (c, x) in s.ops ==> OpOk(s, (c, x));
  }

  /** New clients, transmissions, replies, and everything about bind. */
  lemma QuietSteps(s: LockSys, step: RpcMachine.Step)
    requires ClientsOk(s.rpc) && RepliesOk(s.rpc) && OpsOk(s) && LockEnabled(s, Protocol(step))
    requires !step.Receive? && !step.EndCall?
    ensures Quiet(s.rpc, Apply(s.rpc, step), s.ops)
  {
    hide ClientsOk, RepliesOk, OpsOk, Quiet;
    match step
    case NewClient(c) => QuietNewClient(s, c);
    case Invoke(c, proc, args) => QuietInvoke(s, c, args);
    case Transmit(c, x) => QuietTransmit(s, c, x);
    case Return(c, x, reply) => QuietReturn(s, c, x, reply);
    case Deliver(m) => QuietDeliver(s, m);
    case BindDone(c, x) => QuietBind(s, c, x);
  }

  lemma EndIsQuiet(s: LockSys, c: nat, x: nat)
    requires Enabled(s.rpc, EndCall(c, x))
    ensures Quiet(s.rpc, Apply(s.rpc, EndCall(c, x)), s.ops)
    ensures Returned(s.(rpc := Apply(s.rpc, EndCall(c, x))), (c, x))
  {}

  /** In an untroubled system an answer comes from the present instance, whose handler is through. */
  lemma AnsweredWasServed(r: System, m: Message)
    requires RepliesOk(r) && RunsOk(r) && CompletedOk(r.server) && r.server.used == {r.server.nonce}
    requires m in r.replies && m.reply.ret == 0
    ensures (m.clt, m.xid) in r.server.seen && r.server.seen[(m.clt, m.xid)].Some?
  {
    var i := HandlerReply(r, m);
    assert i in r.server.used;
  }

  lemma DoneWasAnswered(r: System, c: nat, x: nat)
    requires AllResultsOk(r) && c in r.clients && Content(r.clients[c])
    requires x in r.clients[c].calls && r.clients[c].calls[x].done
    ensures Message(c, x, r.clients[c].calls[x].result) in r.replies
  {
    assert ResultsOk(c, r.clients[c], r.replies);
    assert !GaveUp(r.clients[c], x);
  }

  lemma ServedToken(s: LockSys, t: CallId)
    requires OpsOk(s) && PhasesOk(s) && TokensOk(s) && t in s.ops && s.ops[t].Acquire?
    requires t in s.rpc.server.seen && s.rpc.server.seen[t].Some? && !Returned(s, t)
    ensures t in s.tokens && s.tokens[t].Granted?
  {
    assert OpOk(s, t) && Done(s, t);
    assert TokenOk(s, t);
  }

  lemma NotYetReturned(r: System, c: nat, x: nat)
    requires ClientsOk(r) && c in r.clients && x in r.clients[c].calls
    ensures x !in r.clients[c].outcomes
  {
    assert ClientInv(c, r.clients[c]);
  }

  lemma AnyClientIsContent(r: System, c: nat)
    requires Untroubled(r) && c in r.clients
    ensures Content(r.clients[c]) && r.server.used == {r.server.nonce}
  {}

  /** An acquire that is about to return OK. */
  predicate HoldsNow(s: LockSys, c: nat, x: nat) {
    && c in s.rpc.clients && x in s.rpc.clients[c].calls && s.rpc.clients[c].calls[x].done
    && s.rpc.clients[c].calls[x].result.ret == 0 && (c, x) in s.ops && s.ops[(c, x)].Acquire?
  }

  /** It was granted, and has not returned before. */
  lemma EndedWasGranted(s: LockSys, c: nat, x: nat)
    requires LockInv(s) && HoldsNow(s, c, x)
    ensures (c, x) in s.tokens && s.tokens[(c, x)].Granted?
  {
    hide ServerInv, ClientsOk, StampsOk, RequestsOk, RepliesOk, AllResultsOk, RunsOk, MarksOk, HaltOk, CompletedOk;
    hide OpsOk, PhasesOk, TokensOk, HolderOk, M.MonitorInv, Content, Untroubled;
    AnyClientIsContent(s.rpc, c);
    DoneWasAnswered(s.rpc, c, x);
    ServerParts(s.rpc.server);
    AnsweredWasServed(s.rpc, Message(c, x, s.rpc.clients[c].calls[x].result));
    NotYetReturned(s.rpc, c, x);
    ServedToken(s, (c, x));
  }

  /** Acquire returns: the possession is now held by its thread. */
  lemma HoldKeeps(s: LockSys, t: CallId)
    requires TokensOk(s) && HolderOk(s) && t in s.tokens && s.tokens[t].Granted? && Returned(s, t)
    ensures TokensOk(s.(tokens := s.tokens[t := Held])) && HolderOk(s.(tokens := s.tokens[t := Held]))
  {
    var s' := s.(tokens := s.tokens[t := Held]);
    forall call ensures Done(s', call) <==> Done(s, call) {}
    forall u | u in s'.tokens ensures TokenOk(s', u) {
      assert TokenOk(s, u);
    }
    forall r | r in s.ops && s.ops[r].Release? ensures ReleaseOk(s', r) {
      assert ReleaseOk(s, r);
    }
    forall u ensures Live(s', u) <==> Live(s, u) {}
  }

  lemma HoldOpsPhases(s: LockSys, t: CallId)
    requires OpsOk(s) && PhasesOk(s) && t in s.tokens
    ensures OpsOk(s.(tokens := s.tokens[t := Held])) && PhasesOk(s.(tokens := s.tokens[t := Held]))
  {
    HoldOps(s, t);
    HoldPhases(s, t);
  }

  lemma HoldOps(s: LockSys, t: CallId)
    requires OpsOk(s) && t in s.tokens
    ensures OpsOk(s.(tokens := s.tokens[t := Held]))
  {
    var s' := s.(tokens := s.tokens[t := Held]);
    forall call | call in s.ops ensures OpOk(s', call) {
      assert OpOk(s, call);
    }
  }

  lemma HoldPhases(s: LockSys, t: CallId)
    requires PhasesOk(s)
    ensures PhasesOk(s.(tokens := s.tokens[t := Held]))
  {
    var s' := s.(tokens := s.tokens[t := Held]);
    forall call | call in s.phase ensures PhaseOk(s', call) {
      assert PhaseOk(s, call);
    }
    forall w, want | WaiterOk(s, w, want) ensures WaiterOk(s', w, want) {}
    forall call ensures Done(s', call) <==> Done(s, call) {}
  }

  lemma EndKeepsTies(s: LockSys, c: nat, x: nat)
    requires TiesOk(s) && LockEnabled(s, Protocol(EndCall(c, x)))
    requires HoldsNow(s, c, x) ==> (c, x) in s.tokens && s.tokens[(c, x)].Granted?
    ensures TiesOk(LockApply(s, Protocol(EndCall(c, x))))
  {
    var quiet := s.(rpc := Apply(s.rpc, EndCall(c, x)));
    EndIsQuiet(s, c, x);
    hide OpsOk, PhasesOk, TokensOk, HolderOk, Quiet, Returned;
    QuietKeeps(s, quiet.rpc);
    if HoldsNow(s, c, x) {
      HoldKeeps(quiet, (c, x));
      HoldOpsPhases(quiet, (c, x));
    }
  }

  // ---------------------------------------------------------------------------------------------
  // Requests reaching the server, and handlers returning
  // ---------------------------------------------------------------------------------------------

  lemma StartRecords(s: LockSys, r': System, req: Request)
    requires OpsOk(s) && RecordsOk(s) && RequestOk(s.rpc, req) && IsLockProc(req.proc)
    requires r'.clients == s.rpc.clients && r'.server.seen == s.rpc.server.seen[(req.clt, req.xid) := None]
    ensures RecordsOk(s.(rpc := r', phase := s.phase[(req.clt, req.xid) := Entered(req)]))
  {
    var call0 := (req.clt, req.xid);
    var s' := s.(rpc := r', phase := s.phase[call0 := Entered(req)]);
    forall call | call in s'.phase ensures PhaseOk(s', call) {
      if call != call0 { assert PhaseOk(s, call); }
    }
  }

  /** At most once at work: the call of a request that starts a handler has no handler yet. */
  lemma StartIsFirst(s: LockSys, call: CallId)
    requires RecordsOk(s) && WaitersOk(s) && call !in s.rpc.server.seen
    ensures call !in s.phase && call !in s.mon.waiting && call !in s.mon.woken
  {
    assert call in s.phase ==> PhaseOk(s, call);
  }

  lemma StartPhases(s: LockSys, r': System, req: Request)
    requires OpsOk(s) && PhasesOk(s) && RequestOk(s.rpc, req) && IsLockProc(req.proc)
    requires (req.clt, req.xid) !in s.rpc.server.seen
    requires r'.clients == s.rpc.clients && r'.server.seen == s.rpc.server.seen[(req.clt, req.xid) := None]
    ensures var s' := s.(rpc := r', phase := s.phase[(req.clt, req.xid) := Entered(req)]);
            PhasesOk(s') && (forall call :: Done(s', call) <==> Done(s, call))
  {
    hide OpsOk, RecordsOk, SeenOk, WaitersOk;
    StartIsFirst(s, (req.clt, req.xid));
    StartRecords(s, r', req);
    StartSeen(s, r', req);
    StartWaiters(s, r', req);
  }

  lemma StartSeen(s: LockSys, r': System, req: Request)
    requires SeenOk(s) && (req.clt, req.xid) !in s.phase
    requires r'.server.seen == s.rpc.server.seen[(req.clt, req.xid) := None]
    ensures SeenOk(s.(rpc := r', phase := s.phase[(req.clt, req.xid) := Entered(req)]))
  {}

  lemma StartWaiters(s: LockSys, r': System, req: Request)
    requires WaitersOk(s) && (req.clt, req.xid) !in s.mon.waiting && (req.clt, req.xid) !in s.mon.woken
    ensures WaitersOk(s.(rpc := r', phase := s.phase[(req.clt, req.xid) := Entered(req)]))
  {}

  lemma StartTokens(s: LockSys, r': System, phase: map<CallId, Phase>)
    requires TokensOk(s) && r'.clients == s.rpc.clients
    requires forall call :: Done(s.(phase := phase), call) <==> Done(s, call)
    ensures TokensOk(s.(rpc := r', phase := phase))
  {
    var s' := s.(rpc := r', phase := phase);
    forall call ensures Done(s', call) <==> Done(s, call) {
      assert Done(s.(phase := phase), call) <==> Done(s, call);
    }
    forall t | t in s.tokens ensures TokenOk(s', t) {
      assert TokenOk(s, t);
    }
    forall r | r in s.ops && s.ops[r].Release? ensures ReleaseOk(s', r) {
      assert ReleaseOk(s, r);
    }
  }

  lemma StartOps(s: LockSys, r': System, phase: map<CallId, Phase>)
    requires OpsOk(s) && r'.clients == s.rpc.clients
    ensures OpsOk(s.(rpc := r', phase := phase))
  {
    var s' := s.(rpc := r', phase := phase);
    forall call | call in s.ops ensures OpOk(s', call) {
      assert OpOk(s, call);
    }
  }

  lemma AcceptSees(sv: Server, req: Request)
    ensures Accept(sv, req).seen == if Starts(sv, req) then sv.seen[(req.clt, req.xid) := None] else sv.seen
  {}

  lemma StartsNothing(s: LockSys, req: Request, r': System)
    requires OpsOk(s) && RequestOk(s.rpc, req) && r'.clients == s.rpc.clients
    requires r'.server.seen == s.rpc.server.seen
             || (!IsLockProc(req.proc) && r'.server.seen == s.rpc.server.seen[(req.clt, req.xid) := None])
    ensures Quiet(s.rpc, r', s.ops)
  {
    assert (req.clt, req.xid) in s.ops ==> OpOk(s, (req.clt, req.xid));
  }

  lemma ReceiveIsQuietOr(s: LockSys, req: Request)
    requires OpsOk(s) && RequestOk(s.rpc, req) && Refines(s.rpc.server.win, s.rpc.server.seen)
    ensures var r' := s.rpc.(server := Accept(s.rpc.server, req),
                             replies := s.rpc.replies + ImmediateReplies(s.rpc.server, req));
            && r'.clients == s.rpc.clients
            && (Starts(s.rpc.server, req) ==> (req.clt, req.xid) !in s.rpc.server.seen
                                              && r'.server.seen == s.rpc.server.seen[(req.clt, req.xid) := None])
            && (!(IsLockProc(req.proc) && Starts(s.rpc.server, req)) ==> Quiet(s.rpc, r', s.ops))
  {
    hide OpsOk, RequestOk, Refines, Accept, Starts, Quiet, ImmediateReplies;
    AcceptRefines(s.rpc.server, req);
    AcceptSees(s.rpc.server, req);
    if !(IsLockProc(req.proc) && Starts(s.rpc.server, req)) {
      StartsNothing(s, req, s.rpc.(server := Accept(s.rpc.server, req),
                                   replies := s.rpc.replies + ImmediateReplies(s.rpc.server, req)));
    }
  }

  lemma SameDone(s: LockSys, r': System, phase: map<CallId, Phase>)
    requires forall call :: Done(s.(rpc := r', phase := phase), call) <==> Done(s, call)
    ensures forall call :: Done(s.(phase := phase), call) <==> Done(s, call)
  {
    forall call ensures Done(s.(phase := phase), call) <==> Done(s, call) {
      assert Done(s.(rpc := r', phase := phase), call) <==> Done(s, call);
    }
  }

  lemma ReceiveKeepsTies(s: LockSys, req: Request)
    requires TiesOk(s) && LockEnabled(s, Protocol(Receive(req)))
    requires RequestOk(s.rpc, req) && Refines(s.rpc.server.win, s.rpc.server.seen)
    ensures TiesOk(LockApply(s, Protocol(Receive(req))))
  {
    hide OpsOk, PhasesOk, TokensOk, HolderOk, Quiet, Starts, RequestOk, Refines, Accept, Done;
    var r' := Apply(s.rpc, Receive(req));
    ReceiveIsQuietOr(s, req);
    if IsLockProc(req.proc) && Starts(s.rpc.server, req) {
      var phase := s.phase[(req.clt, req.xid) := Entered(req)];
      StartPhases(s, r', req);
      SameDone(s, r', phase);
      StartTokens(s, r', phase);
      StartOps(s, r', phase);
      SameHolder(s, s.(rpc := r', phase := phase));
    } else {
      QuietKeeps(s, r');
    }
  }

  /** The arguments of a lock call always decode, so its handler only returns once it is through. */
  lemma EnteredDecodes(s: LockSys, call: CallId)
    requires OpsOk(s) && PhasesOk(s) && call in s.phase && s.phase[call].Entered?
    ensures ReadLockArgs(s.phase[call].req.args) == Some((call.0, s.ops[call].lid))
    ensures call in s.ops && s.phase[call].req == Issued(s.rpc, call.0, call.1)
    ensures s.phase[call].req.proc == if s.ops[call].Acquire? then ACQUIRE else RELEASE
  {
    assert PhaseOk(s, call);
    assert OpOk(s, call);
    LockArgsRoundTrip(call.0, s.ops[call].lid);
  }

  lemma ReturnPhases(s: LockSys, r': System, call: CallId, reply: Reply)
    requires PhasesOk(s) && Done(s, call) && r'.clients == s.rpc.clients
    requires r'.server.seen == s.rpc.server.seen[call := Some(reply)] || r'.server.seen == s.rpc.server.seen
    ensures PhasesOk(s.(rpc := r'))
  {
    var s' := s.(rpc := r');
    forall c ensures Done(s', c) <==> Done(s, c) {}
    forall c | c in s.phase ensures PhaseOk(s', c) {
      assert PhaseOk(s, c);
    }
    forall w, want | WaiterOk(s, w, want) ensures WaiterOk(s', w, want) {}
    forall c | c in s.ops && c in r'.server.seen ensures c in s.phase && (r'.server.seen[c].Some? ==> Done(s', c)) {
      if c == call {} else { assert c in s.rpc.server.seen; }
    }
  }

  lemma ReturnServes(s: System, call: CallId, reply: Reply)
    requires Enabled(s, Return(call.0, call.1, reply))
    ensures var r' := Apply(s, Return(call.0, call.1, reply));
            r'.clients == s.clients
            && (r'.server.seen == s.server.seen[call := Some(reply)] || r'.server.seen == s.server.seen)
  {}

  lemma ReturnKeepsTies(s: LockSys, call: CallId, reply: Reply)
    requires TiesOk(s) && LockEnabled(s, HandlerReturns(call, reply))
    ensures TiesOk(LockApply(s, HandlerReturns(call, reply)))
  {
    hide OpsOk, PhasesOk, TokensOk, HolderOk;
    if s.phase[call].Entered? {
      EnteredDecodes(s, call);
    }
    var r' := Apply(s.rpc, Return(call.0, call.1, reply));
    assert LockApply(s, HandlerReturns(call, reply)) == s.(rpc := r');
    ReturnServes(s.rpc, call, reply);
    hide Apply, Enabled, LockApply, LockEnabled;
    ReturnPhases(s, r', call, reply);
    StartTokens(s, r', s.phase);
    StartOps(s, r', s.phase);
    SameHolder(s, s.(rpc := r'));
  }

  // ---------------------------------------------------------------------------------------------
  // Handlers at work
  // ---------------------------------------------------------------------------------------------

  /** A handler that takes a lock nobody holds. */
  ghost predicate MayGrant(s: LockSys, call: CallId, mon: M.Monitor, lid: nat) {
    && call in s.phase && !Done(s, call) && call in s.ops && s.ops[call] == Acquire(lid)
    && !M.IsLocked(s.mon, lid)
    && mon.locks == s.mon.locks[lid := M.Lock(M.Locked, call.0)]
    && call !in mon.waiting && call !in mon.woken
    && (forall w :: w in mon.waiting ==> w in s.mon.waiting && mon.waiting[w] == s.mon.waiting[w])
    && (forall w :: w in mon.woken ==> w in s.mon.woken && mon.woken[w] == s.mon.woken[w])
  }

  lemma GrantRecords(s: LockSys, call: CallId, mon: M.Monitor, lid: nat)
    requires RecordsOk(s) && call in s.phase
    ensures RecordsOk(Granting(s, call, mon, lid))
  {
    var s' := Granting(s, call, mon, lid);
    assert PhaseOk(s, call);
    forall c | c in s'.phase ensures PhaseOk(s', c) {
      assert PhaseOk(s, c);
    }
  }

  lemma GrantSeen(s: LockSys, call: CallId, mon: M.Monitor, lid: nat)
    requires SeenOk(s) && call in s.phase
    ensures SeenOk(Granting(s, call, mon, lid))
  {
    var s' := Granting(s, call, mon, lid);
    forall c | Done(s, c) ensures Done(s', c) {}
  }

  lemma GrantWaiters(s: LockSys, call: CallId, mon: M.Monitor, lid: nat)
    requires WaitersOk(s) && call !in mon.waiting && call !in mon.woken
    requires forall w :: w in mon.waiting ==> w in s.mon.waiting && mon.waiting[w] == s.mon.waiting[w]
    requires forall w :: w in mon.woken ==> w in s.mon.woken && mon.woken[w] == s.mon.woken[w]
    ensures WaitersOk(Granting(s, call, mon, lid))
  {
    var s' := Granting(s, call, mon, lid);
    forall w, want | WaiterOk(s, w, want) && w != call ensures WaiterOk(s', w, want) {}
  }

  lemma GrantPhases(s: LockSys, call: CallId, mon: M.Monitor, lid: nat)
    requires PhasesOk(s) && MayGrant(s, call, mon, lid)
    ensures PhasesOk(Granting(s, call, mon, lid))
  {
    hide RecordsOk, SeenOk, WaitersOk, Done, M.IsLocked, Granting;
    GrantRecords(s, call, mon, lid);
    GrantSeen(s, call, mon, lid);
    GrantWaiters(s, call, mon, lid);
  }

  lemma GrantToken(s: LockSys, call: CallId, mon: M.Monitor, lid: nat, u: CallId)
    requires u in s.tokens && u != call && TokenOk(s, u) && call in s.ops && s.ops[call].Acquire?
    ensures TokenOk(Granting(s, call, mon, lid), u)
  {
    forall r | r in s.ops && s.ops[r].Release? ensures r != call {}
    hide Returned;
  }

  lemma GrantRelease(s: LockSys, call: CallId, mon: M.Monitor, lid: nat, r: CallId)
    requires r in s.ops && s.ops[r].Release? && ReleaseOk(s, r)
    requires call in s.tokens && s.tokens[call].Wanted? && r != call
    ensures ReleaseOk(Granting(s, call, mon, lid), r)
  {
  }

  lemma GrantTokens(s: LockSys, call: CallId, mon: M.Monitor, lid: nat)
    requires TokensOk(s) && call in s.ops && s.ops[call].Acquire? && call in s.tokens && s.tokens[call].Wanted?
    ensures TokensOk(Granting(s, call, mon, lid))
  {
    hide TokenOk, ReleaseOk;
    var s' := Granting(s, call, mon, lid);
    forall u | u in s'.tokens ensures TokenOk(s', u) {
      if u != call { GrantToken(s, call, mon, lid, u); } else { GrantedToken(s, call, mon, lid); }
    }
    forall r | r in s.ops && s.ops[r].Release? ensures ReleaseOk(s', r) {
      GrantRelease(s, call, mon, lid, r);
    }
  }

  lemma GrantedToken(s: LockSys, call: CallId, mon: M.Monitor, lid: nat)
    ensures call in Granting(s, call, mon, lid).tokens && TokenOk(Granting(s, call, mon, lid), call)
  {
  }

  lemma WantedToken(s: LockSys, call: CallId)
    requires OpsOk(s) && TokensOk(s) && call in s.ops && s.ops[call].Acquire? && !Done(s, call)
    ensures call in s.tokens && s.tokens[call].Wanted?
  {
    assert OpOk(s, call) && TokenOk(s, call);
  }

  lemma GrantOps(s: LockSys, call: CallId, mon: M.Monitor, lid: nat)
    requires OpsOk(s) && MayGrant(s, call, mon, lid)
    ensures OpsOk(Granting(s, call, mon, lid))
  {
    var s' := Granting(s, call, mon, lid);
    forall c | c in s.ops ensures OpOk(s', c) {
      assert OpOk(s, c);
    }
  }

  lemma GrantHolder(s: LockSys, call: CallId, mon: M.Monitor, lid: nat)
    requires HolderOk(s) && MayGrant(s, call, mon, lid)
    ensures HolderOk(Granting(s, call, mon, lid))
  {
    var s' := Granting(s, call, mon, lid);
    forall u | u != call ensures Live(s', u) <==> Live(s, u) {}
    forall l: nat ensures M.IsLocked(mon, l) <==> l in s'.holder {
      if l != lid { assert M.IsLocked(mon, l) <==> M.IsLocked(s.mon, l); }
    }
  }

  lemma GrantKeepsLocks(s: LockSys, call: CallId, mon: M.Monitor, lid: nat)
    requires TiesOk(s) && MayGrant(s, call, mon, lid)
    ensures TiesOk(Granting(s, call, mon, lid))
  {
    hide OpsOk, PhasesOk, TokensOk, HolderOk, M.IsLocked, Done;
    WantedToken(s, call);
    GrantOps(s, call, mon, lid);
    GrantPhases(s, call, mon, lid);
    GrantTokens(s, call, mon, lid);
    GrantHolder(s, call, mon, lid);
  }

  /** What a handler at work keeps, away from the protocol. */
  ghost predicate LocksKept(s: LockSys, s': LockSys) {
    s'.rpc == s.rpc && TiesOk(s') && M.MonitorInv(s'.mon)
  }

  lemma AcquireKeepsLocks(s: LockSys, call: CallId)
    requires TiesOk(s) && M.MonitorInv(s.mon) && LockEnabled(s, HandlerAcquires(call))
    ensures LocksKept(s, LockApply(s, HandlerAcquires(call)))
  {
    hide OpsOk, TokensOk, HolderOk, M.MonitorInv, RecordsOk, SeenOk;
    EnteredDecodes(s, call);
    var lid := s.ops[call].lid;
    assert call !in s.mon.waiting && call !in s.mon.woken by {
      assert call in s.mon.waiting ==> WaiterOk(s, call, s.mon.waiting[call]);
      assert call in s.mon.woken ==> WaiterOk(s, call, s.mon.woken[call]);
    }
    M.EnterKeeps(s.mon, call, call.0, lid);
    var mon := M.Enter(s.mon, call, call.0, lid);
    if M.IsLocked(s.mon, lid) {
      BlockKeepsLocks(s, call, mon);
    } else {
      GrantKeepsLocks(s, call, mon, lid);
    }
  }

  lemma BlockPhases(s: LockSys, call: CallId, mon: M.Monitor)
    requires PhasesOk(s) && call in s.phase && s.phase[call].Entered?
    requires call in s.ops && s.ops[call].Acquire?
    requires mon.woken == s.mon.woken && mon.waiting == s.mon.waiting[call := M.Want(call.0, s.ops[call].lid)]
    ensures var s' := s.(mon := mon, phase := s.phase[call := Blocked]);
            PhasesOk(s') && forall c :: Done(s', c) <==> Done(s, c)
  {
    var s' := s.(mon := mon, phase := s.phase[call := Blocked]);
    assert PhaseOk(s, call);
    forall c | c in s'.phase ensures PhaseOk(s', c) {
      assert PhaseOk(s, c);
    }
    forall c ensures Done(s', c) <==> Done(s, c) {}
    forall w, want | WaiterOk(s, w, want) ensures WaiterOk(s', w, want) {}
  }

  lemma BlockKeepsLocks(s: LockSys, call: CallId, mon: M.Monitor)
    requires TiesOk(s) && call in s.phase && s.phase[call].Entered?
    requires call in s.ops && s.ops[call].Acquire? && mon.locks == s.mon.locks
    requires mon.woken == s.mon.woken && mon.waiting == s.mon.waiting[call := M.Want(call.0, s.ops[call].lid)]
    ensures TiesOk(s.(mon := mon, phase := s.phase[call := Blocked]))
  {
    var phase := s.phase[call := Blocked];
    hide OpsOk, PhasesOk, TokensOk, HolderOk;
    BlockPhases(s, call, mon);
    MonitorOnly(s, mon, phase);
  }

  /** Nothing but waiting and phases changed, and nobody got through. */
  lemma MonitorOnly(s: LockSys, mon: M.Monitor, phase: map<CallId, Phase>)
    requires OpsOk(s) && TokensOk(s) && HolderOk(s) && mon.locks == s.mon.locks
    requires forall c :: Done(s.(mon := mon, phase := phase), c) <==> Done(s, c)
    ensures var s' := s.(mon := mon, phase := phase);
            OpsOk(s') && TokensOk(s') && HolderOk(s')
  {
    hide OpsOk, TokensOk, HolderOk;
    var s' := s.(mon := mon, phase := phase);
    forall c ensures Done(s.(phase := phase), c) <==> Done(s, c) {
      assert Done(s', c) <==> Done(s, c);
    }
    StartTokens(s, s.rpc, phase);
    StartOps(s, s.rpc, phase);
    MonitorTokens(s.(rpc := s.rpc, phase := phase), mon);
    SameLocks(s, s');
  }

  lemma MonitorTokens(s: LockSys, mon: M.Monitor)
    requires TokensOk(s) && OpsOk(s)
    ensures TokensOk(s.(mon := mon)) && OpsOk(s.(mon := mon))
  {
    var s' := s.(mon := mon);
    forall c ensures Done(s', c) <==> Done(s, c) {}
    forall u | u in s.tokens ensures TokenOk(s', u) { assert TokenOk(s, u); }
    forall r | r in s.ops && s.ops[r].Release? ensures ReleaseOk(s', r) { assert ReleaseOk(s, r); }
    forall c | c in s.ops ensures OpOk(s', c) { assert OpOk(s, c); }
  }

  lemma SameLocks(s: LockSys, s': LockSys)
    requires s'.mon.locks == s.mon.locks && s'.tokens == s.tokens && s'.holder == s.holder && s'.ops == s.ops && HolderOk(s)
    ensures HolderOk(s')
  {
    forall t ensures Live(s', t) <==> Live(s, t) {}
    forall l: nat ensures M.IsLocked(s'.mon, l) <==> M.IsLocked(s.mon, l) {}
  }

  lemma RewaitPhases(s: LockSys, mon: M.Monitor)
    requires PhasesOk(s)
    requires forall w :: w in mon.waiting ==> WaiterOk(s, w, mon.waiting[w])
    requires forall w :: w in mon.woken ==> WaiterOk(s, w, mon.woken[w])
    ensures PhasesOk(s.(mon := mon))
  {
    var s' := s.(mon := mon);
    forall c | c in s'.phase ensures PhaseOk(s', c) { assert PhaseOk(s, c); }
    forall c ensures Done(s', c) <==> Done(s, c) {}
    forall w, want | WaiterOk(s, w, want) ensures WaiterOk(s', w, want) {}
  }

  /** A wakeup, or going back to waiting: nobody gets through. */
  lemma RewaitKeepsLocks(s: LockSys, mon: M.Monitor)
    requires TiesOk(s) && mon.locks == s.mon.locks
    requires forall w :: w in mon.waiting ==> WaiterOk(s, w, mon.waiting[w])
    requires forall w :: w in mon.woken ==> WaiterOk(s, w, mon.woken[w])
    ensures TiesOk(s.(mon := mon))
  {
    hide OpsOk, PhasesOk, TokensOk, HolderOk;
    RewaitPhases(s, mon);
    MonitorTokens(s, mon);
    SameLocks(s, s.(mon := mon));
  }

  lemma WakeKeepsLocks(s: LockSys, call: CallId)
    requires TiesOk(s) && call in s.mon.waiting
    ensures TiesOk(s.(mon := M.Wake(s.mon, call)))
  {
    hide OpsOk, TokensOk, HolderOk, RecordsOk, SeenOk;
    RewaitKeepsLocks(s, M.Wake(s.mon, call));
  }

  lemma WokenIsBlocked(s: LockSys, call: CallId)
    requires PhasesOk(s) && M.MonitorInv(s.mon) && call in s.mon.woken
    ensures WaiterOk(s, call, s.mon.woken[call]) && s.ops[call].Acquire? && call !in s.mon.waiting
  {
    assert PhaseOk(s, call);
  }

  lemma ResumeKeepsLocks(s: LockSys, call: CallId)
    requires TiesOk(s) && M.MonitorInv(s.mon) && LockEnabled(s, HandlerResumes(call))
    ensures LocksKept(s, LockApply(s, HandlerResumes(call)))
  {
    hide OpsOk, TokensOk, HolderOk, SeenOk, RecordsOk, M.MonitorInv;
    WokenIsBlocked(s, call);
    M.ResumeKeeps(s.mon, call);
    var want := s.mon.woken[call];
    var mon := M.Resume(s.mon, call);
    if M.IsLocked(s.mon, want.lid) {
      RewaitKeepsLocks(s, mon);
    } else {
      hide WaitersOk, PhasesOk;
      assert MayGrant(s, call, mon, want.lid);
      GrantKeepsLocks(s, call, mon, want.lid);
    }
  }

  /** A release handler frees exactly the lock of its own possession. */
  ghost predicate MayFree(s: LockSys, call: CallId, mon: M.Monitor) {
    && call in s.phase && !Done(s, call) && call in s.ops && s.ops[call].Release?
    && mon.locks == s.mon.locks[s.ops[call].lid := M.Lock(M.Free, call.0)]
    && (forall w :: w in mon.waiting ==> w in s.mon.waiting && mon.waiting[w] == s.mon.waiting[w])
    && (forall w :: w in mon.woken ==> (w in s.mon.woken && mon.woken[w] == s.mon.woken[w])
                                       || (w in s.mon.waiting && mon.woken[w] == s.mon.waiting[w]))
  }

  function Freeing(s: LockSys, call: CallId, mon: M.Monitor): LockSys
    requires call in s.ops && s.ops[call].Release?
  {
    s.(mon := mon, phase := s.phase[call := Completed],
       tokens := s.tokens[(call.0, s.ops[call].token) := Freed(call.1)],
       holder := s.holder - {s.ops[call].lid})
  }

  lemma ReleaseFindsHolder(s: LockSys, call: CallId)
    requires OpsOk(s) && TokensOk(s) && HolderOk(s) && call in s.ops && s.ops[call].Release? && !Done(s, call)
    ensures var t, lid := (call.0, s.ops[call].token), s.ops[call].lid;
            && t in s.tokens && s.tokens[t] == Releasing(call.1) && t != call
            && t in s.ops && s.ops[t] == Acquire(lid)
            && lid in s.holder && s.holder[lid] == t && M.OwnedBy(s.mon, lid, call.0)
  {
    assert OpOk(s, call) && ReleaseOk(s, call);
    assert Live(s, (call.0, s.ops[call].token));
    assert M.IsLocked(s.mon, s.ops[call].lid);
  }

  lemma FreeHolder(s: LockSys, call: CallId, mon: M.Monitor)
    requires HolderOk(s) && MayFree(s, call, mon)
    requires s.ops[call].lid in s.holder && s.holder[s.ops[call].lid] == (call.0, s.ops[call].token)
    requires (call.0, s.ops[call].token) in s.ops && s.ops[(call.0, s.ops[call].token)].lid == s.ops[call].lid
    ensures HolderOk(Freeing(s, call, mon))
  {
    var t, lid := (call.0, s.ops[call].token), s.ops[call].lid;
    var s' := Freeing(s, call, mon);
    forall u | u != t ensures Live(s', u) <==> Live(s, u) {}
    forall l: nat ensures M.IsLocked(mon, l) <==> l in s'.holder {
      if l != lid { assert M.IsLocked(mon, l) <==> M.IsLocked(s.mon, l); }
    }
    forall u | Live(s', u) && u in s.ops ensures s.ops[u].lid in s'.holder && s'.holder[s.ops[u].lid] == u {
      assert Live(s, u);
    }
  }

  lemma FreeToken(s: LockSys, call: CallId, mon: M.Monitor, u: CallId)
    requires TokensOk(s) && MayFree(s, call, mon) && u in s.tokens && u != call
    requires var t := (call.0, s.ops[call].token);
             t in s.tokens && s.tokens[t] == Releasing(call.1) && t != call
    ensures TokenOk(Freeing(s, call, mon), u)
  {
    assert TokenOk(s, u);
    assert TokenOk(s, (call.0, s.ops[call].token));
    assert Returned(Freeing(s, call, mon), u) <==> Returned(s, u);
  }

  lemma FreeRelease(s: LockSys, call: CallId, mon: M.Monitor, r: CallId)
    requires TokensOk(s) && MayFree(s, call, mon) && r in s.ops && s.ops[r].Release?
    requires var t := (call.0, s.ops[call].token);
             t in s.tokens && s.tokens[t] == Releasing(call.1)
    ensures ReleaseOk(Freeing(s, call, mon), r)
  {
    assert ReleaseOk(s, r);
    assert r != call ==> (Done(Freeing(s, call, mon), r) <==> Done(s, r));
  }

  lemma FreeTokens(s: LockSys, call: CallId, mon: M.Monitor)
    requires OpsOk(s) && TokensOk(s) && MayFree(s, call, mon)
    requires var t := (call.0, s.ops[call].token);
             t in s.tokens && s.tokens[t] == Releasing(call.1) && t != call
    ensures TokensOk(Freeing(s, call, mon))
  {
    var s' := Freeing(s, call, mon);
    assert call !in s.tokens by { hide TokensOk, MayFree; assert OpOk(s, call); }
    hide OpsOk, TokenOk, ReleaseOk;
    forall u | u in s'.tokens ensures TokenOk(s', u) {
      FreeToken(s, call, mon, u);
    }
    forall r | r in s'.ops && s'.ops[r].Release? ensures ReleaseOk(s', r) {
      FreeRelease(s, call, mon, r);
    }
  }

  lemma FreeOps(s: LockSys, call: CallId, mon: M.Monitor)
    requires OpsOk(s) && MayFree(s, call, mon) && (call.0, s.ops[call].token) in s.tokens
    ensures OpsOk(Freeing(s, call, mon))
  {
    var s' := Freeing(s, call, mon);
    forall c | c in s.ops ensures OpOk(s', c) {
      assert OpOk(s, c);
    }
  }

  lemma FreePhases(s: LockSys, call: CallId, mon: M.Monitor)
    requires PhasesOk(s) && MayFree(s, call, mon)
    ensures PhasesOk(Freeing(s, call, mon))
  {
    var s' := Freeing(s, call, mon);
    assert PhaseOk(s, call);
    forall c | c in s'.phase ensures PhaseOk(s', c) {
      assert PhaseOk(s, c);
    }
    forall w, want | WaiterOk(s, w, want) ensures WaiterOk(s', w, want) {}
    forall c | Done(s, c) ensures Done(s', c) {}
  }

  lemma FreeKeepsLocks(s: LockSys, call: CallId, mon: M.Monitor)
    requires TiesOk(s) && MayFree(s, call, mon)
    ensures TiesOk(Freeing(s, call, mon))
  {
    hide OpsOk, PhasesOk, TokensOk, HolderOk;
    ReleaseFindsHolder(s, call);
    hide MayFree;
    FreeHolder(s, call, mon);
    FreeTokens(s, call, mon);
    FreeOps(s, call, mon);
    FreePhases(s, call, mon);
  }

  lemma ReleaseKeepsLocks(s: LockSys, call: CallId, wake: Option<M.Worker>)
    requires TiesOk(s) && M.MonitorInv(s.mon) && LockEnabled(s, HandlerReleases(call, wake))
    ensures LocksKept(s, LockApply(s, HandlerReleases(call, wake)))
  {
    hide OpsOk, PhasesOk, TokensOk, HolderOk, M.MonitorInv;
    EnteredDecodes(s, call);
    ReleaseFindsHolder(s, call);
    var lid := s.ops[call].lid;
    M.ReleaseKeeps(s.mon, call.0, lid, wake);
    FreeKeepsLocks(s, call, M.Release(s.mon, call.0, lid, wake));
  }

  // ---------------------------------------------------------------------------------------------
  // Calls of the lock service
  // ---------------------------------------------------------------------------------------------

  /** One more call has been issued, and nothing else happened. */
  ghost predicate Issues(r: System, r': System, call: CallId, proc: nat, args: Bytes) {
    && !Known(r, call.0, call.1) && Known(r', call.0, call.1)
    && Issued(r', call.0, call.1).proc == proc && Issued(r', call.0, call.1).args == args
    && (forall c: nat, x: nat :: (c, x) != call ==> (Known(r', c, x) <==> Known(r, c, x)))
    && (forall c: nat, x: nat :: Known(r, c, x) ==> Known(r', c, x) && Issued(r', c, x) == Issued(r, c, x))
    && (forall c: nat, x: nat :: c in r.clients && x in r.clients[c].outcomes ==>
          c in r'.clients && x in r'.clients[c].outcomes)
    && r'.server == r.server && call !in r.server.seen
  }

  lemma NextIsFresh(r: System, c: nat)
    requires ClientsOk(r) && RunsOk(r) && c in r.clients
    ensures r.clients[c].window != [] && r.clients[c].nextXid !in r.clients[c].issued
    ensures (c, r.clients[c].nextXid) !in r.server.seen
  {
    assert ClientInv(c, r.clients[c]);
    var x := r.clients[c].nextXid;
    assert (c, x) in r.server.seen ==> RunOk(r, r.server.nonce, c, x);
  }

  lemma InvokeIssues(r: System, c: nat, proc: nat, args: Bytes)
    requires ClientsOk(r) && RunsOk(r) && Enabled(r, Invoke(c, proc, args))
    ensures Issues(r, Apply(r, Invoke(c, proc, args)), (c, r.clients[c].nextXid), proc, args)
  {
    hide ClientsOk, RunsOk;
    NextIsFresh(r, c);
  }

  /** The lock system after a call was issued for op. */
  function Asking(s: LockSys, r': System, call: CallId, op: Op): LockSys {
    s.(rpc := r',
       ops := s.ops[call := op],
       tokens := if op.Acquire? then s.tokens[call := Wanted] else s.tokens[(call.0, op.token) := Releasing(call.1)])
  }

  ghost predicate MayAsk(s: LockSys, r': System, call: CallId, op: Op) {
    && call.0 < TWO_TO_THE_32 && op.lid < TWO_TO_THE_64
    && Issues(s.rpc, r', call, if op.Acquire? then ACQUIRE else RELEASE, LockArgs(call.0, op.lid))
    && (op.Release? ==>
          var t := (call.0, op.token);
          t in s.tokens && s.tokens[t].Held? && t in s.ops && s.ops[t] == Acquire(op.lid))
  }

  lemma AskIsFresh(s: LockSys, r': System, call: CallId, op: Op)
    requires OpsOk(s) && PhasesOk(s) && MayAsk(s, r', call, op)
    ensures call !in s.ops && call !in s.phase && call !in s.tokens
  {
    assert call in s.ops ==> OpOk(s, call);
    assert call in s.phase ==> PhaseOk(s, call);
  }

  lemma AskKnown(s: LockSys, r': System, call: CallId, op: Op, c: nat, x: nat)
    requires OpsOk(s) && MayAsk(s, r', call, op)
    requires Known(r', c, x) && IsLockProc(Issued(r', c, x).proc)
    ensures (c, x) in Asking(s, r', call, op).ops
  {
    hide OpOk;
    if (c, x) != call {
      assert Known(s.rpc, c, x);
    }
  }

  lemma AskOps(s: LockSys, r': System, call: CallId, op: Op)
    requires OpsOk(s) && MayAsk(s, r', call, op) && call !in s.ops && call !in s.tokens
    ensures OpsOk(Asking(s, r', call, op))
  {
    hide OpOk, Issues;
    var s' := Asking(s, r', call, op);
    forall c | c in s'.ops ensures OpOk(s', c) {
      AskOp(s, r', call, op, c);
    }
    forall c: nat, x: nat | Known(r', c, x) && IsLockProc(Issued(r', c, x).proc) ensures (c, x) in s'.ops {
      AskKnown(s, r', call, op, c, x);
    }
  }

  lemma AskOp(s: LockSys, r': System, call: CallId, op: Op, c: CallId)
    requires OpsOk(s) && MayAsk(s, r', call, op) && call !in s.ops && call !in s.tokens
    requires c in Asking(s, r', call, op).ops
    ensures OpOk(Asking(s, r', call, op), c)
  {
    hide OpsOk, IsLockProc, LockArgs;
    if c != call {
      assert OpOk(s, c) by { OpOf(s, c); }
    }
  }

  lemma OpOf(s: LockSys, c: CallId)
    requires OpsOk(s) && c in s.ops
    ensures OpOk(s, c)
  {
  }

  lemma AskRecords(s: LockSys, r': System, call: CallId, op: Op)
    requires RecordsOk(s) && MayAsk(s, r', call, op) && call !in s.ops
    ensures RecordsOk(Asking(s, r', call, op))
  {
    hide IsLockProc, LockArgs;
    var s' := Asking(s, r', call, op);
    forall c | c in s.phase ensures PhaseOk(s', c) {
      assert PhaseOk(s, c);
    }
  }

  lemma AskWaiters(s: LockSys, r': System, call: CallId, op: Op)
    requires WaitersOk(s) && call !in s.ops
    ensures WaitersOk(Asking(s, r', call, op))
  {
    var s' := Asking(s, r', call, op);
    forall w, want | WaiterOk(s, w, want) ensures WaiterOk(s', w, want) {}
  }

  lemma AskSeen(s: LockSys, r': System, call: CallId, op: Op)
    requires SeenOk(s) && r'.server == s.rpc.server && call !in s.rpc.server.seen
    ensures SeenOk(Asking(s, r', call, op))
  {
    var s' := Asking(s, r', call, op);
    forall c ensures Done(s', c) <==> Done(s, c) {}
  }

  lemma AskPhases(s: LockSys, r': System, call: CallId, op: Op)
    requires PhasesOk(s) && MayAsk(s, r', call, op) && call !in s.ops && call !in s.phase
    ensures PhasesOk(Asking(s, r', call, op))
  {
    hide RecordsOk, WaitersOk, SeenOk, LockArgs, Known, Asking;
    AskRecords(s, r', call, op);
    AskWaiters(s, r', call, op);
    AskSeen(s, r', call, op);
  }

  lemma AskTokens(s: LockSys, r': System, call: CallId, op: Op)
    requires OpsOk(s) && TokensOk(s) && MayAsk(s, r', call, op) && call !in s.ops && call !in s.phase && call !in s.tokens
    ensures TokensOk(Asking(s, r', call, op))
  {
    hide MayAsk, Done, Returned, TokenOk, ReleaseOk, OpOk, OpsOk, TokensOk;
    var s' := Asking(s, r', call, op);
    forall u | u in s'.tokens ensures TokenOk(s', u) {
      AskToken(s, r', call, op, u);
    }
    forall r | r in s'.ops && s'.ops[r].Release? ensures ReleaseOk(s', r) {
      AskRelease(s, r', call, op, r);
    }
    AllTokensOk(s');
  }

  lemma AllTokensOk(s: LockSys)
    requires forall u :: u in s.tokens ==> TokenOk(s, u)
    requires forall r :: r in s.ops && s.ops[r].Release? ==> ReleaseOk(s, r)
    ensures TokensOk(s)
  {
  }

  lemma AskToken(s: LockSys, r': System, call: CallId, op: Op, u: CallId)
    requires TokensOk(s) && MayAsk(s, r', call, op) && call !in s.ops && call !in s.phase && call !in s.tokens
    requires u in Asking(s, r', call, op).tokens
    ensures TokenOk(Asking(s, r', call, op), u)
  {
    var s' := Asking(s, r', call, op);
    assert u in s.tokens ==> TokenOk(s, u);
    assert Returned(s, u) ==> Returned(s', u);
    forall c ensures Done(s', c) <==> Done(s, c) {}
  }

  lemma AskRelease(s: LockSys, r': System, call: CallId, op: Op, r: CallId)
    requires OpsOk(s) && TokensOk(s) && MayAsk(s, r', call, op) && call !in s.ops && call !in s.phase && call !in s.tokens
    requires r in Asking(s, r', call, op).ops && Asking(s, r', call, op).ops[r].Release?
    ensures ReleaseOk(Asking(s, r', call, op), r)
  {
    hide Issues;
    var s' := Asking(s, r', call, op);
    assert r in s.ops ==> OpOk(s, r) && ReleaseOk(s, r);
    assert Done(s', r) <==> Done(s, r);
  }

  lemma AskHolder(s: LockSys, r': System, call: CallId, op: Op)
    requires HolderOk(s) && MayAsk(s, r', call, op) && call !in s.ops && call !in s.tokens
    requires forall t :: t in s.tokens ==> t in s.ops
    ensures HolderOk(Asking(s, r', call, op))
  {
    var s' := Asking(s, r', call, op);
    forall t ensures Live(s', t) <==> Live(s, t) {}
  }

  lemma AskKeepsLocks(s: LockSys, r': System, call: CallId, op: Op)
    requires TiesOk(s) && MayAsk(s, r', call, op)
    ensures TiesOk(Asking(s, r', call, op))
  {
    hide OpsOk, PhasesOk, TokensOk, HolderOk, MayAsk;
    forall t | t in s.tokens ensures t in s.ops { TokensAreAcquires(s, t); }
    AskIsFresh(s, r', call, op);
    AskOps(s, r', call, op);
    AskPhases(s, r', call, op);
    AskTokens(s, r', call, op);
    AskHolder(s, r', call, op);
  }

  lemma TokensAreAcquires(s: LockSys, t: CallId)
    requires OpsOk(s) && t in s.tokens
    ensures t in s.ops && s.ops[t].Acquire?
  {}

  lemma MayCall(s: LockSys, c: nat, op: Op)
    requires ClientsOk(s.rpc) && RunsOk(s.rpc) && c < TWO_TO_THE_32 && op.lid < TWO_TO_THE_64
    requires Enabled(s.rpc, Invoke(c, if op.Acquire? then ACQUIRE else RELEASE, LockArgs(c, op.lid)))
    requires op.Release? ==>
               var t := (c, op.token);
               t in s.tokens && s.tokens[t].Held? && t in s.ops && s.ops[t] == Acquire(op.lid)
    ensures var invoke := Invoke(c, if op.Acquire? then ACQUIRE else RELEASE, LockArgs(c, op.lid));
            MayAsk(s, Apply(s.rpc, invoke), (c, s.rpc.clients[c].nextXid), op)
  {
    hide ClientsOk, RunsOk, Issues;
    InvokeIssues(s.rpc, c, if op.Acquire? then ACQUIRE else RELEASE, LockArgs(c, op.lid));
    hide Apply, Enabled;
  }

  lemma CallKeepsTies(s: LockSys, c: nat, op: Op)
    requires TiesOk(s) && ClientsOk(s.rpc) && RunsOk(s.rpc) && c < TWO_TO_THE_32 && op.lid < TWO_TO_THE_64
    requires Enabled(s.rpc, Invoke(c, if op.Acquire? then ACQUIRE else RELEASE, LockArgs(c, op.lid)))
    requires op.Release? ==>
               var t := (c, op.token);
               t in s.tokens && s.tokens[t].Held? && t in s.ops && s.ops[t].lid == op.lid
    ensures var invoke := Invoke(c, if op.Acquire? then ACQUIRE else RELEASE, LockArgs(c, op.lid));
            TiesOk(Asking(s, Apply(s.rpc, invoke), (c, s.rpc.clients[c].nextXid), op))
  {
    var invoke := Invoke(c, if op.Acquire? then ACQUIRE else RELEASE, LockArgs(c, op.lid));
    hide OpsOk, PhasesOk, TokensOk, HolderOk, ClientsOk, RunsOk, LockArgs, MayAsk;
    if op.Release? { TokensAreAcquires(s, (c, op.token)); }
    MayCall(s, c, op);
    hide Apply, Enabled;
    AskKeepsLocks(s, Apply(s.rpc, invoke), (c, s.rpc.clients[c].nextXid), op);
  }

  /** The calls of the service, from what the protocol's invariant says of clients and server. */
  lemma AskingKeepsTies(s: LockSys, step: LockStep)
    requires TiesOk(s) && ClientsOk(s.rpc) && RunsOk(s.rpc)
    requires LockEnabled(s, step) && (step.CallAcquire? || step.CallRelease?)
    ensures TiesOk(LockApply(s, step))
  {
    hide TiesOk, Enabled, Apply, LockArgs, ClientsOk, RunsOk;
    match step
    case CallAcquire(c, lid) => CallKeepsTies(s, c, Acquire(lid));
    case CallRelease(c, token) => CallKeepsTies(s, c, Release(s.ops[(c, token)].lid, token));
  }

  lemma ProtocolKeepsTies(s: LockSys, step: RpcMachine.Step)
    requires TiesOk(s) && LockEnabled(s, Protocol(step)) && ClientsOk(s.rpc) && RepliesOk(s.rpc)
    requires step.Receive? ==> RequestOk(s.rpc, step.req) && Refines(s.rpc.server.win, s.rpc.server.seen)
    requires step.EndCall? && HoldsNow(s, step.clt, step.xid) ==>
               (step.clt, step.xid) in s.tokens && s.tokens[(step.clt, step.xid)].Granted?
    ensures TiesOk(LockApply(s, Protocol(step)))
  {
    hide OpsOk, PhasesOk, TokensOk, HolderOk, ClientsOk, RepliesOk, RequestOk, Refines, HoldsNow, Quiet;
    if step.Receive? {
      ReceiveKeepsTies(s, step.req);
    } else if step.EndCall? {
      EndKeepsTies(s, step.clt, step.xid);
    } else {
      QuietSteps(s, step);
      QuietKeeps(s, Apply(s.rpc, step));
    }
  }

  /** What the ties need to know of the protocol. */
  lemma FromProtocol(s: LockSys, step: LockStep)
    requires LockInv(s) && LockEnabled(s, step)
    ensures ClientsOk(s.rpc) && RunsOk(s.rpc) && RepliesOk(s.rpc) && Refines(s.rpc.server.win, s.rpc.server.seen)
    ensures step.Protocol? && step.step.Receive? ==> RequestOk(s.rpc, step.step.req)
    ensures step.Protocol? && step.step.EndCall? && HoldsNow(s, step.step.clt, step.step.xid) ==>
              (step.step.clt, step.step.xid) in s.tokens && s.tokens[(step.step.clt, step.step.xid)].Granted?
  {
    hide TiesOk, M.MonitorInv, Untroubled, HoldsNow;
    if step.Protocol? && step.step.EndCall? && HoldsNow(s, step.step.clt, step.step.xid) {
      EndedWasGranted(s, step.step.clt, step.step.xid);
    }
  }

  /** The step of the protocol in a step of the whole, if it has one. */
  function ProtocolStep(s: LockSys, step: LockStep): Option<RpcMachine.Step> {
    match step
    case Protocol(step) => Some(step)
    case CallAcquire(clt, lid) =>
      if lid < TWO_TO_THE_64 && clt < TWO_TO_THE_32 then Some(Invoke(clt, ACQUIRE, LockArgs(clt, lid))) else None
    case CallRelease(clt, token) =>
      if (clt, token) in s.ops && s.ops[(clt, token)].lid < TWO_TO_THE_64 && clt < TWO_TO_THE_32 then
        Some(Invoke(clt, RELEASE, LockArgs(clt, s.ops[(clt, token)].lid)))
      else None
    case HandlerReturns(call, reply) => Some(Return(call.0, call.1, reply))
    case _ => None
  }

  lemma ProtocolKeeps(r: System, step: RpcMachine.Step)
    requires Inv(r) && Untroubled(r) && Enabled(r, step) && Patient(r, step)
    ensures Inv(Apply(r, step)) && Untroubled(Apply(r, step))
  {
    hide Inv, Untroubled;
    StepKeeps(r, step);
    PatientStep(r, step);
  }

  lemma OnlyProtocolChanges(s: LockSys, step: LockStep)
    requires LockEnabled(s, step)
    ensures var p := ProtocolStep(s, step);
      if p.Some? then Enabled(s.rpc, p.value) && Patient(s.rpc, p.value) && LockApply(s, step).rpc == Apply(s.rpc, p.value)
      else LockApply(s, step).rpc == s.rpc
    ensures step.HandlerAcquires? || step.HandlerResumes? || step.HandlerReleases? || step.Spurious?
            || LockApply(s, step).mon == s.mon
  {
    hide Enabled, Apply, LockArgs, ReadLockArgs, M.Enter, M.Resume, M.Release;
  }

  lemma SpuriousKeeps(s: LockSys, call: CallId)
    requires TiesOk(s) && M.MonitorInv(s.mon) && LockEnabled(s, Spurious(call))
    ensures LocksKept(s, LockApply(s, Spurious(call)))
  {
    hide TiesOk, M.MonitorInv;
    M.WakeKeeps(s.mon, call);
    WakeKeepsLocks(s, call);
  }

  lemma HandlersKeepTies(s: LockSys, step: LockStep)
    requires TiesOk(s) && M.MonitorInv(s.mon) && LockEnabled(s, step)
    requires step.HandlerAcquires? || step.HandlerResumes? || step.HandlerReleases? || step.Spurious?
    ensures TiesOk(LockApply(s, step)) && M.MonitorInv(LockApply(s, step).mon)
  {
    hide TiesOk, M.MonitorInv, LockEnabled, LockApply;
    match step
    case HandlerAcquires(call) => AcquireKeepsLocks(s, call);
    case HandlerResumes(call) => ResumeKeepsLocks(s, call);
    case HandlerReleases(call, wake) => ReleaseKeepsLocks(s, call, wake);
    case Spurious(call) => SpuriousKeeps(s, call);
  }

  lemma OthersKeepTies(s: LockSys, step: LockStep)
    requires LockInv(s) && TiesOk(s) && LockEnabled(s, step)
    requires !step.HandlerAcquires? && !step.HandlerResumes? && !step.HandlerReleases? && !step.Spurious?
    ensures TiesOk(LockApply(s, step))
  {
    hide LockInv, TiesOk, LockEnabled, LockApply, ClientsOk, RunsOk, RepliesOk, Refines, RequestOk, HoldsNow;
    FromProtocol(s, step);
    match step
    case Protocol(step) => ProtocolKeepsTies(s, step);
    case CallAcquire(c, lid) => AskingKeepsTies(s, step);
    case CallRelease(c, token) => AskingKeepsTies(s, step);
    case HandlerReturns(call, reply) => ReturnKeepsTies(s, call, reply);
  }

  lemma TiesAreKept(s: LockSys, step: LockStep)
    requires LockInv(s) && LockEnabled(s, step)
    ensures TiesOk(LockApply(s, step)) && M.MonitorInv(LockApply(s, step).mon)
  {
    hide Inv, Untroubled, TiesOk, M.MonitorInv, LockEnabled, LockApply;
    OnlyProtocolChanges(s, step);
    if step.HandlerAcquires? || step.HandlerResumes? || step.HandlerReleases? || step.Spurious? {
      HandlersKeepTies(s, step);
    } else {
      OthersKeepTies(s, step);
    }
  }

  lemma LockStepKeeps(s: LockSys, step: LockStep)
    requires LockInv(s) && LockEnabled(s, step)
    ensures LockInv(LockApply(s, step))
  {
    TiesAreKept(s, step);
    OnlyProtocolChanges(s, step);
    hide Inv, Untroubled, TiesOk, M.MonitorInv, LockEnabled, LockApply, Enabled, Apply, Patient;
    if ProtocolStep(s, step).Some? {
      ProtocolKeeps(s.rpc, ProtocolStep(s, step).value);
    }
  }

  lemma {:induction false} LockBehaviourInv(states: seq<LockSys>, steps: seq<LockStep>, k: nat)
    requires LockBehaviour(states, steps) && k < |states|
    ensures LockInv(states[k])
  {
    if k == 0 {
      LockStartInv(states[0].rpc.server.nonce);
    } else {
      LockBehaviourInv(states, steps, k - 1);
      LockStepKeeps(states[k - 1], steps[k - 1]);
    }
  }
}
