/** The invariant that ties the client windows, the messages in flight and the server's list together. */
module RpcInvariant {
  import opened Common
  import opened FinishedWindow
  import opened ReplyWindow
  import opened ServerMachine
  import opened RpcClient
  import opened RpcMachine

  ghost predicate ClientsOk(s: System) {
    && 0 !in s.clients
    && forall c: nat :: c in s.clients ==> ClientInv(c, s.clients[c])
  }

  /** Every stamp in use is the nonce of an instance that exists or existed. */
  ghost predicate StampsOk(s: System) {
    && (forall n: nat :: n in s.server.used ==> 0 < n < TWO_TO_THE_32)
    && (forall c: nat :: c in s.clients ==> s.clients[c].srvNonce == 0 || s.clients[c].srvNonce in s.server.used)
    && (forall c: nat, x: nat :: Known(s, c, x) ==> Issued(s, c, x).srvNonce == 0 || Issued(s, c, x).srvNonce in s.server.used)
  }

  ghost predicate RequestOk(s: System, req: Request) {
    Known(s, req.clt, req.xid) && req == Issued(s, req.clt, req.xid)
  }

  ghost predicate RequestsOk(s: System) {
    && (forall req :: req in s.requests ==> RequestOk(s, req))
    && (forall i :: 0 <= i < |s.server.log| ==> RequestOk(s, s.server.log[i].req))
  }

  /** Why the server sent this reply. */
  ghost predicate Justified(s: System, m: Message) {
    && Known(s, m.clt, m.xid)
    && (if m.reply.ret == OLDSRV_FAILURE then
          Issued(s, m.clt, m.xid).srvNonce != 0 && Issued(s, m.clt, m.xid).srvNonce != s.server.nonce
        else if m.reply.ret == ATMOSTONCE_FAILURE then
          Finished(s.clients[m.clt].window, m.xid)
        else
          && m.reply.ret != TIMEOUT_FAILURE && m.reply.ret != CANCEL_FAILURE
          && exists i :: ExecutionKey(i, m.clt, m.xid) in s.server.completed
                         && s.server.completed[ExecutionKey(i, m.clt, m.xid)] == m.reply)
  }

  ghost predicate RepliesOk(s: System) {
    forall m :: m in s.replies ==> m.clt in s.clients && s.clients[m.clt].window != [] && Justified(s, m)
  }

  /** What a call was given to return, unless it gave up, is a reply the server sent. */
  ghost predicate ResultsOk(c: nat, cl: Client, replies: set<Message>) {
    && (forall x: nat :: x in cl.calls && cl.calls[x].done && !GaveUp(cl, x) ==>
          Message(c, x, cl.calls[x].result) in replies)
    && (forall x: nat :: x in cl.outcomes && !GaveUp(cl, x) ==> Message(c, x, cl.outcomes[x]) in replies)
  }

  ghost predicate AllResultsOk(s: System) {
    forall c: nat :: c in s.clients ==> ResultsOk(c, s.clients[c], s.replies)
  }

  /** A handler run belongs to a known call, and to the instance the call was stamped for. */
  ghost predicate RunOk(s: System, instance: nat, c: nat, x: nat) {
    Known(s, c, x) && (Issued(s, c, x).srvNonce == 0 || Issued(s, c, x).srvNonce == instance)
  }

  ghost predicate RunsOk(s: System) {
    && (forall c: nat, x: nat :: (c, x) in s.server.seen ==> RunOk(s, s.server.nonce, c, x))
    && (forall k :: k in s.server.completed ==> RunOk(s, k.instance, k.clt, k.xid))
    && (forall k :: k in s.server.completed ==>
          s.server.completed[k].ret >= 0 || s.server.completed[k].ret == UNMARSHAL_ARGS_FAILURE)
    && (forall k :: k in s.server.completed && RunOk(s, k.instance, k.clt, k.xid) && Issued(s, k.clt, k.xid).proc == BIND ==>
          0 <= k.instance < TWO_TO_THE_32 && s.server.completed[k] == Reply(0, Be32(k.instance)))
  }

  /** The server's watermark never passes the front of the client's window. */
  ghost predicate MarksOk(s: System) {
    forall c: nat :: Mark(s.server.win, c) <= (if c in s.clients && s.clients[c].window != [] then s.clients[c].window[0] else 0)
  }

  /** The one way for an entry of a running call to disappear. */
  ghost predicate Excused(s: System, c: nat, x: nat)
    requires Known(s, c, x)
  {
    || GaveUp(s.clients[c], x)
    || (Issued(s, c, x).srvNonce == 0 && s.server.used != {s.server.nonce})
  }

  ghost predicate HaltOk(s: System) {
    s.server.halted ==> exists c: nat, x: nat :: Known(s, c, x) && Excused(s, c, x)
  }

  ghost predicate Inv(s: System) {
    && ServerInv(s.server)
    && ClientsOk(s)
    && StampsOk(s)
    && RequestsOk(s)
    && RepliesOk(s)
    && AllResultsOk(s)
    && RunsOk(s)
    && MarksOk(s)
    && HaltOk(s)
  }

  lemma StartInv(nonce: nat)
    requires 0 < nonce < TWO_TO_THE_32
    ensures Inv(Start(nonce))
  {
    InitInv(nonce);
  }

  // ---------------------------------------------------------------------------------------------
  // Steps of one client
  // ---------------------------------------------------------------------------------------------

  /** The system with one client changed. */
  function With(s: System, c: nat, cl: Client): System {
    s.(clients := s.clients[c := cl])
  }

  lemma WithKnown(s: System, c: nat, cl: Client, d: nat, x: nat)
    requires c in s.clients && Grows(s.clients[c], cl) && Known(s, d, x)
    ensures Known(With(s, c, cl), d, x) && Issued(With(s, c, cl), d, x) == Issued(s, d, x)
    ensures Excused(s, d, x) ==> Excused(With(s, c, cl), d, x)
  {}

  lemma WithRequestsOk(s: System, c: nat, cl: Client)
    requires c in s.clients && Grows(s.clients[c], cl) && RequestsOk(s)
    ensures RequestsOk(With(s, c, cl))
  {
    forall req | RequestOk(s, req) ensures RequestOk(With(s, c, cl), req) {
      WithKnown(s, c, cl, req.clt, req.xid);
    }
  }

  lemma WithRepliesOk(s: System, c: nat, cl: Client)
    requires c in s.clients && Grows(s.clients[c], cl) && RepliesOk(s)
    ensures RepliesOk(With(s, c, cl))
  {
    forall m | m in s.replies ensures Justified(With(s, c, cl), m) {
      assert Justified(s, m);
      WithKnown(s, c, cl, m.clt, m.xid);
    }
  }

  lemma WithRunsOk(s: System, c: nat, cl: Client)
    requires c in s.clients && Grows(s.clients[c], cl) && RunsOk(s)
    ensures RunsOk(With(s, c, cl))
  {
    forall i: nat, d: nat, x: nat | RunOk(s, i, d, x)
      ensures RunOk(With(s, c, cl), i, d, x) && Issued(With(s, c, cl), d, x) == Issued(s, d, x)
    {
      WithKnown(s, c, cl, d, x);
    }
  }

  lemma WithHaltOk(s: System, c: nat, cl: Client)
    requires c in s.clients && Grows(s.clients[c], cl) && RunsOk(s) && HaltOk(s)
    ensures HaltOk(With(s, c, cl))
  {
    var s' := With(s, c, cl);
    forall d: nat, x: nat | Known(s, d, x) && Excused(s, d, x) ensures Known(s', d, x) && Excused(s', d, x) {
      WithKnown(s, c, cl, d, x);
    }
  }

  ghost predicate StampOk(s: System, cl: Client) {
    && (cl.srvNonce == 0 || cl.srvNonce in s.server.used)
    && (forall x: nat :: x in cl.issued ==> cl.issued[x].srvNonce == 0 || cl.issued[x].srvNonce in s.server.used)
  }

  lemma WithStampsOk(s: System, c: nat, cl: Client)
    requires StampsOk(s) && StampOk(s, cl)
    ensures StampsOk(With(s, c, cl))
  {
    var s' := With(s, c, cl);
    forall d: nat, x: nat | Known(s', d, x)
      ensures Issued(s', d, x).srvNonce == 0 || Issued(s', d, x).srvNonce in s.server.used
    {
      if d != c { assert Known(s, d, x); }
    }
  }

  lemma WithMarksOk(s: System, c: nat, cl: Client)
    requires c in s.clients && Grows(s.clients[c], cl) && MarksOk(s)
    ensures MarksOk(With(s, c, cl))
  {
    assert Mark(s.server.win, c) <= s.clients[c].window[0];
  }

  lemma WithClientsOk(s: System, c: nat, cl: Client)
    requires c != 0 && ClientsOk(s) && ClientInv(c, cl)
    ensures ClientsOk(With(s, c, cl))
  {}

  lemma WithResultsOk(s: System, c: nat, cl: Client)
    requires AllResultsOk(s) && ResultsOk(c, cl, s.replies)
    ensures AllResultsOk(With(s, c, cl))
  {}

  /** A step of one client that only grows what is recorded about it leaves everything else intact. */
  lemma ClientStep(s: System, c: nat, cl: Client)
    requires Inv(s) && c in s.clients && c != 0
    requires ClientInv(c, cl) && Grows(s.clients[c], cl) && StampOk(s, cl) && ResultsOk(c, cl, s.replies)
    ensures Inv(With(s, c, cl))
  {
    hide ServerInv, ClientsOk, StampsOk, RequestsOk, RepliesOk, AllResultsOk, RunsOk, MarksOk, HaltOk;
    hide ClientInv, Grows, StampOk, ResultsOk;
    WithStampsOk(s, c, cl);
    WithMarksOk(s, c, cl);
    WithRequestsOk(s, c, cl);
    WithRepliesOk(s, c, cl);
    WithRunsOk(s, c, cl);
    WithHaltOk(s, c, cl);
    WithClientsOk(s, c, cl);
    WithResultsOk(s, c, cl);
  }

  lemma NewClientKeeps(s: System, c: nat)
    requires Inv(s) && c != 0 && c !in s.clients
    ensures Inv(With(s, c, FRESH_CLIENT))
  {
    hide ServerInv, ClientsOk, StampsOk, RequestsOk, RepliesOk, AllResultsOk, RunsOk, MarksOk, HaltOk;
    FreshInv(c);
    NewClientKnows(s, c);
    NewClientMarks(s, c);
    WithStampsOk(s, c, FRESH_CLIENT);
    WithResultsOk(s, c, FRESH_CLIENT);
    WithClientsOk(s, c, FRESH_CLIENT);
  }

  lemma NewClientMarks(s: System, c: nat)
    requires c !in s.clients && MarksOk(s)
    ensures MarksOk(With(s, c, FRESH_CLIENT))
  {
    assert Mark(s.server.win, c) == 0;
  }

  lemma NewClientKnows(s: System, c: nat)
    requires c !in s.clients && RequestsOk(s) && RepliesOk(s) && RunsOk(s) && HaltOk(s)
    ensures var s' := With(s, c, FRESH_CLIENT);
            RequestsOk(s') && RepliesOk(s') && RunsOk(s') && HaltOk(s')
  {
    var s' := With(s, c, FRESH_CLIENT);
    forall d: nat, x: nat | Known(s, d, x)
      ensures Known(s', d, x) && Issued(s', d, x) == Issued(s, d, x) && (Excused(s, d, x) ==> Excused(s', d, x))
    {}
    forall req | RequestOk(s, req) ensures RequestOk(s', req) {}
    forall m | m in s.replies ensures Justified(s', m) { assert Justified(s, m); }
    forall i: nat, d: nat, x: nat | RunOk(s, i, d, x) ensures RunOk(s', i, d, x) {}
  }

  lemma ClientStamp(s: System, c: nat)
    requires StampsOk(s) && c in s.clients
    ensures StampOk(s, s.clients[c])
  {
    forall x: nat | x in s.clients[c].issued ensures Known(s, c, x) {}
  }

  lemma PartsOf(s: System, c: nat)
    requires ClientsOk(s) && AllResultsOk(s) && StampsOk(s) && c in s.clients
    ensures c != 0 && ClientInv(c, s.clients[c]) && ResultsOk(c, s.clients[c], s.replies) && StampOk(s, s.clients[c])
  {
    ClientStamp(s, c);
  }

  lemma ServerParts(sv: Server)
    requires ServerInv(sv)
    ensures CompletedOk(sv) && Refines(sv.win, sv.seen) && 0 !in sv.used
  {}

  lemma InvokeKeeps(s: System, c: nat, proc: nat, args: Bytes)
    requires Inv(s) && Enabled(s, Invoke(c, proc, args))
    ensures Inv(Apply(s, Invoke(c, proc, args)))
  {
    hide ServerInv, ClientsOk, StampsOk, RequestsOk, RepliesOk, AllResultsOk, RunsOk, MarksOk, HaltOk, ClientInv, Grows;
    PartsOf(s, c);
    BeginInv(c, s.clients[c], proc, args);
    ClientStep(s, c, Begin(s.clients[c], c, proc, args));
  }

  lemma GotPduResults(s: System, m: Message)
    requires m.clt in s.clients && s.clients[m.clt].window != [] && m in s.replies
    requires ResultsOk(m.clt, s.clients[m.clt], s.replies) && StampOk(s, s.clients[m.clt])
    ensures var cl := GotPdu(s.clients[m.clt], m.xid, m.reply);
            ResultsOk(m.clt, cl, s.replies) && StampOk(s, cl)
  {}

  lemma RepliesAreForTheirCalls(s: System, m: Message)
    requires RepliesOk(s) && m in s.replies
    ensures Known(s, m.clt, m.xid)
    ensures m.reply.ret == ATMOSTONCE_FAILURE ==> Finished(s.clients[m.clt].window, m.xid)
  {
    assert Justified(s, m);
  }

  lemma DeliverKeeps(s: System, m: Message)
    requires Inv(s) && Enabled(s, Deliver(m))
    ensures Inv(Apply(s, Deliver(m)))
  {
    hide ServerInv, ClientsOk, StampsOk, RequestsOk, RepliesOk, AllResultsOk, RunsOk, MarksOk, HaltOk, ClientInv, Grows;
    hide ResultsOk, StampOk, GotPdu;
    PartsOf(s, m.clt);
    RepliesAreForTheirCalls(s, m);
    GotPduResults(s, m);
    GotPduInv(m.clt, s.clients[m.clt], m.xid, m.reply);
    ClientStep(s, m.clt, GotPdu(s.clients[m.clt], m.xid, m.reply));
  }

  lemma EndResults(s: System, c: nat, x: nat)
    requires c in s.clients && x in s.clients[c].calls && ClientInv(c, s.clients[c])
    requires ResultsOk(c, s.clients[c], s.replies) && StampOk(s, s.clients[c])
    ensures var cl := End(s.clients[c], x);
            ResultsOk(c, cl, s.replies) && StampOk(s, cl)
  {}

  lemma EndCallKeeps(s: System, c: nat, x: nat)
    requires Inv(s) && Enabled(s, EndCall(c, x))
    ensures Inv(Apply(s, EndCall(c, x)))
  {
    hide ServerInv, ClientsOk, StampsOk, RequestsOk, RepliesOk, AllResultsOk, RunsOk, MarksOk, HaltOk, ClientInv, Grows;
    hide ResultsOk, StampOk, End;
    PartsOf(s, c);
    EndInv(c, s.clients[c], x);
    EndResults(s, c, x);
    ClientStep(s, c, End(s.clients[c], x));
  }

  lemma CancelKeeps(s: System, c: nat)
    requires Inv(s) && Enabled(s, Cancel(c))
    ensures Inv(Apply(s, Cancel(c)))
  {
    hide ServerInv, ClientsOk, StampsOk, RequestsOk, RepliesOk, AllResultsOk, RunsOk, MarksOk, HaltOk, ClientInv, Grows;
    PartsOf(s, c);
    CancelInv(c, s.clients[c]);
    ClientStep(s, c, CancelAll(s.clients[c]));
  }

  /** A reply by a handler is the reply of a run of that call. */
  lemma HandlerReply(s: System, m: Message) returns (instance: nat)
    requires RepliesOk(s) && RunsOk(s) && m in s.replies
    requires m.reply.ret != OLDSRV_FAILURE && m.reply.ret != ATMOSTONCE_FAILURE
    ensures ExecutionKey(instance, m.clt, m.xid) in s.server.completed
    ensures s.server.completed[ExecutionKey(instance, m.clt, m.xid)] == m.reply
    ensures RunOk(s, instance, m.clt, m.xid)
  {
    assert Justified(s, m);
    instance :| ExecutionKey(instance, m.clt, m.xid) in s.server.completed
                && s.server.completed[ExecutionKey(instance, m.clt, m.xid)] == m.reply;
  }

  /** The nonce a client learns from bind is the nonce of an instance. */
  lemma BoundToAnInstance(s: System, c: nat, x: nat)
    requires RepliesOk(s) && RunsOk(s) && AllResultsOk(s) && CompletedOk(s.server)
    requires Enabled(s, BindDone(c, x)) && ClientInv(c, s.clients[c])
    ensures FromBe32(s.clients[c].outcomes[x].body) in s.server.used
  {
    var m := Message(c, x, s.clients[c].outcomes[x]);
    assert ResultsOk(c, s.clients[c], s.replies);
    assert x !in s.clients[c].calls && !GaveUp(s.clients[c], x);
    var i := HandlerReply(s, m);
    Be32Decodes(i);
  }

  lemma BindDoneKeeps(s: System, c: nat, x: nat)
    requires Inv(s) && Enabled(s, BindDone(c, x))
    ensures Inv(Apply(s, BindDone(c, x)))
  {
    hide ServerInv, ClientsOk, StampsOk, RequestsOk, RepliesOk, AllResultsOk, RunsOk, MarksOk, HaltOk, ClientInv, Grows;
    hide CompletedOk, Refines;
    ServerParts(s.server);
    PartsOf(s, c);
    BoundToAnInstance(s, c, x);
    var nonce := FromBe32(s.clients[c].outcomes[x].body);
    BoundInv(c, s.clients[c], nonce);
    ClientStep(s, c, Bound(s.clients[c], nonce));
  }

  lemma TransmitRequests(s: System, req: Request)
    requires RequestsOk(s) && RequestOk(s, req)
    ensures RequestsOk(s.(requests := s.requests + {req}))
  {
    var s' := s.(requests := s.requests + {req});
    forall r | RequestOk(s, r) ensures RequestOk(s', r) {}
  }

  lemma TransmitReplies(s: System, req: Request)
    requires RepliesOk(s)
    ensures RepliesOk(s.(requests := s.requests + {req}))
  {
    var s' := s.(requests := s.requests + {req});
    forall m | m in s.replies ensures Justified(s', m) { assert Justified(s, m); }
  }

  lemma TransmitKeeps(s: System, c: nat, x: nat)
    requires Inv(s) && Enabled(s, Transmit(c, x))
    ensures Inv(Apply(s, Transmit(c, x)))
  {
    assert RequestOk(s, Issued(s, c, x));
    hide RequestsOk, RepliesOk, RequestOk, ServerInv, ClientsOk, StampsOk, AllResultsOk, RunsOk, MarksOk, HaltOk;
    var s' := Apply(s, Transmit(c, x));
    TransmitRequests(s, Issued(s, c, x));
    TransmitReplies(s, Issued(s, c, x));
    SameServer(s, s');
  }

  /** Clients and server untouched. */
  lemma SameServer(s: System, s': System)
    requires s'.clients == s.clients && s'.server == s.server
    requires StampsOk(s) && RunsOk(s) && MarksOk(s) && HaltOk(s)
    ensures StampsOk(s') && RunsOk(s') && MarksOk(s') && HaltOk(s')
  {
    forall d: nat, x: nat | Known(s, d, x) ensures Known(s', d, x) && (Excused(s, d, x) <==> Excused(s', d, x)) {}
    forall i: nat, d: nat, x: nat | RunOk(s, i, d, x) ensures RunOk(s', i, d, x) {}
  }

  // ---------------------------------------------------------------------------------------------
  // Steps of the server
  // ---------------------------------------------------------------------------------------------

  /** The system with another server, and more replies sent. */
  function Serving(s: System, sv: Server, sent: set<Message>): System {
    s.(server := sv, replies := s.replies + sent)
  }

  /** Nothing the server did is undone. */
  ghost predicate Advances(sv: Server, sv': Server) {
    && sv'.used >= sv.used
    && (sv'.nonce == sv.nonce || sv'.nonce !in sv.used)
    && (forall k :: k in sv.completed ==> k in sv'.completed && sv'.completed[k] == sv.completed[k])
  }

  lemma ServingStampsOk(s: System, sv: Server, sent: set<Message>)
    requires StampsOk(s) && Advances(s.server, sv)
    requires forall n: nat :: n in sv.used ==> n in s.server.used || 0 < n < TWO_TO_THE_32
    ensures StampsOk(Serving(s, sv, sent))
  {
    var s' := Serving(s, sv, sent);
    forall c: nat, x: nat | Known(s', c, x)
      ensures Issued(s', c, x).srvNonce == 0 || Issued(s', c, x).srvNonce in sv.used
    {
      assert Known(s, c, x);
    }
  }

  lemma ServingRepliesOk(s: System, sv: Server, sent: set<Message>)
    requires StampsOk(s) && RepliesOk(s) && Advances(s.server, sv)
    requires forall m :: m in sent ==> m.clt in s.clients && s.clients[m.clt].window != [] && Justified(Serving(s, sv, sent), m)
    ensures RepliesOk(Serving(s, sv, sent))
  {
    var s' := Serving(s, sv, sent);
    forall m | m in s.replies ensures Justified(s', m) {
      assert Justified(s, m);
      assert Known(s, m.clt, m.xid);
      if m.reply.ret != OLDSRV_FAILURE && m.reply.ret != ATMOSTONCE_FAILURE {
        var i :| ExecutionKey(i, m.clt, m.xid) in s.server.completed
                 && s.server.completed[ExecutionKey(i, m.clt, m.xid)] == m.reply;
        assert ExecutionKey(i, m.clt, m.xid) in sv.completed;
      }
    }
  }

  lemma ServingResultsOk(s: System, sv: Server, sent: set<Message>)
    requires AllResultsOk(s) && ClientsOk(s)
    ensures AllResultsOk(Serving(s, sv, sent)) && ClientsOk(Serving(s, sv, sent))
  {
    forall c: nat | c in s.clients ensures ResultsOk(c, s.clients[c], s.replies + sent) {
      assert ResultsOk(c, s.clients[c], s.replies);
    }
  }

  /** An entry of a running call leaves the list only if the call gave up, or if it is a bind request that an
      earlier instance had already answered. */
  lemma UnlistedIsExcused(s: System, c: nat, x: nat)
    requires ServerInv(s.server) && ClientsOk(s) && RepliesOk(s) && AllResultsOk(s) && RunsOk(s) && MarksOk(s)
    requires Running(s.server, c, x) && x !in Saved(List(s.server.win, c))
    ensures Known(s, c, x) && Excused(s, c, x)
  {
    assert RunOk(s, s.server.nonce, c, x);
    assert Refines(s.server.win, s.server.seen);
    var cl := s.clients[c];
    assert ClientInv(c, cl);
    assert x < Mark(s.server.win, c) <= cl.window[0];
    assert Finished(cl.window, x) && !Unfinished(cl, x);
    if !GaveUp(cl, x) {
      AnsweredElsewhere(s, c, x);
    }
  }

  lemma AnsweredElsewhere(s: System, c: nat, x: nat)
    requires CompletedOk(s.server) && RepliesOk(s) && AllResultsOk(s) && RunsOk(s)
    requires c in s.clients && ClientInv(c, s.clients[c]) && RunOk(s, s.server.nonce, c, x)
    requires Running(s.server, c, x) && !GaveUp(s.clients[c], x) && !Unfinished(s.clients[c], x)
    ensures Issued(s, c, x).srvNonce == 0 && s.server.used != {s.server.nonce}
  {
    var cl := s.clients[c];
    assert ResultsOk(c, cl, s.replies);
    var m := Message(c, x, if x in cl.calls then cl.calls[x].result else cl.outcomes[x]);
    assert m in s.replies && Justified(s, m);
    var i := HandlerReply(s, m);
    assert ExecutionKey(s.server.nonce, c, x) !in s.server.completed;
    assert i in s.server.used;
  }

  lemma ForgottenIsFinished(s: System, req: Request)
    requires RequestOk(s, req) && ClientInv(req.clt, s.clients[req.clt])
    requires Mark(s.server.win, req.clt) <= s.clients[req.clt].window[0]
    requires Refines(s.server.win, s.server.seen) && VerdictOn(s.server, req).Forgotten?
    ensures Finished(s.clients[req.clt].window, req.xid)
  {
    CheckRefines(s.server.win, s.server.seen, req.clt, req.xid, req.xidRep);
  }

  lemma DoneIsCompleted(sv: Server, req: Request)
    requires Refines(sv.win, sv.seen) && CompletedOk(sv) && VerdictOn(sv, req).Done?
    ensures ExecutionKey(sv.nonce, req.clt, req.xid) in sv.completed
    ensures sv.completed[ExecutionKey(sv.nonce, req.clt, req.xid)] == VerdictOn(sv, req).reply
  {
    CheckRefines(sv.win, sv.seen, req.clt, req.xid, req.xidRep);
  }

  lemma ReceiveSent(s: System, req: Request, m: Message)
    requires ServerInv(s.server) && ClientsOk(s) && MarksOk(s) && RunsOk(s)
    requires RequestOk(s, req) && m in ImmediateReplies(s.server, req)
    ensures m.clt in s.clients && s.clients[m.clt].window != []
            && Justified(Serving(s, Accept(s.server, req), ImmediateReplies(s.server, req)), m)
  {
    hide ServerInv, ClientInv, Refines, CompletedOk, Check;
    ServerParts(s.server);
    FrontAboveMark(s, req.clt);
    if !ForOldServer(s.server, req) {
      if VerdictOn(s.server, req).Forgotten? {
        ForgottenIsFinished(s, req);
      } else {
        DoneIsCompleted(s.server, req);
        var k := ExecutionKey(s.server.nonce, req.clt, req.xid);
        assert k in Accept(s.server, req).completed;
        assert s.server.completed[k].ret >= 0 || s.server.completed[k].ret == UNMARSHAL_ARGS_FAILURE;
      }
    }
  }

  lemma FrontAboveMark(s: System, c: nat)
    requires ClientsOk(s) && MarksOk(s) && c in s.clients
    ensures ClientInv(c, s.clients[c]) && s.clients[c].window != []
    ensures Mark(s.server.win, c) <= s.clients[c].window[0]
  {
    assert ClientInv(c, s.clients[c]);
  }

  lemma ReceiveRuns(s: System, req: Request, sent: set<Message>)
    requires RunsOk(s) && RequestOk(s, req)
    ensures RunsOk(Serving(s, Accept(s.server, req), sent))
  {
    var s' := Serving(s, Accept(s.server, req), sent);
    forall i: nat, d: nat, x: nat | RunOk(s, i, d, x) ensures RunOk(s', i, d, x) {}
    if Starts(s.server, req) {
      assert RunOk(s', s.server.nonce, req.clt, req.xid);
    }
    forall c: nat, x: nat | (c, x) in s'.server.seen ensures RunOk(s', s'.server.nonce, c, x) {
      assert (c, x) == (req.clt, req.xid) || (c, x) in s.server.seen;
    }
  }

  lemma ReceiveServer(s: System, req: Request)
    requires ServerInv(s.server) && HaltOk(s)
    ensures var sv' := Accept(s.server, req);
            && ServerInv(sv') && Advances(s.server, sv')
            && sv'.used == s.server.used
            && HaltOk(Serving(s, sv', ImmediateReplies(s.server, req)))
  {
    AcceptInv(s.server, req);
    var s' := Serving(s, Accept(s.server, req), ImmediateReplies(s.server, req));
    forall c: nat, x: nat | Known(s, c, x) && Excused(s, c, x) ensures Known(s', c, x) && Excused(s', c, x) {}
  }

  lemma ReceiveAllSent(s: System, req: Request)
    requires ServerInv(s.server) && ClientsOk(s) && MarksOk(s) && RunsOk(s) && StampsOk(s) && RepliesOk(s)
    requires RequestOk(s, req) && Advances(s.server, Accept(s.server, req))
    ensures RepliesOk(Serving(s, Accept(s.server, req), ImmediateReplies(s.server, req)))
  {
    var sent := ImmediateReplies(s.server, req);
    var s' := Serving(s, Accept(s.server, req), sent);
    forall m | m in sent ensures m.clt in s.clients && s.clients[m.clt].window != [] && Justified(s', m) {
      ReceiveSent(s, req, m);
    }
    ServingRepliesOk(s, Accept(s.server, req), sent);
  }

  lemma ReceiveKeeps(s: System, req: Request)
    requires Inv(s) && Enabled(s, Receive(req))
    ensures Inv(Apply(s, Receive(req)))
  {
    assert RequestOk(s, req) && Refines(s.server.win, s.server.seen);
    hide ServerInv, ClientsOk, StampsOk, RequestsOk, RepliesOk, AllResultsOk, RunsOk, MarksOk, HaltOk;
    hide RequestOk, Refines, Accept, ImmediateReplies, Advances;
    var sent := ImmediateReplies(s.server, req);
    ReceiveServer(s, req);
    ServingStampsOk(s, Accept(s.server, req), sent);
    ReceiveAllSent(s, req);
    ServingResultsOk(s, Accept(s.server, req), sent);
    ReceiveRuns(s, req, sent);
    ReceiveRequests(s, req, sent);
    ReceiveMarks(s, req, sent);
  }

  lemma ReceiveRequests(s: System, req: Request, sent: set<Message>)
    requires RequestsOk(s) && RequestOk(s, req)
    ensures RequestsOk(Serving(s, Accept(s.server, req), sent))
  {
    var s' := Serving(s, Accept(s.server, req), sent);
    forall r | RequestOk(s, r) ensures RequestOk(s', r) {}
    forall i | 0 <= i < |s'.server.log| ensures RequestOk(s', s'.server.log[i].req) {
      assert i == |s.server.log| || s'.server.log[i] == s.server.log[i];
    }
  }

  lemma ReceiveMarks(s: System, req: Request, sent: set<Message>)
    requires MarksOk(s) && ClientsOk(s) && Refines(s.server.win, s.server.seen) && RequestOk(s, req)
    ensures MarksOk(Serving(s, Accept(s.server, req), sent))
  {
    hide ClientInv, Refines;
    FrontAboveMark(s, req.clt);
    FrontAboveRep(s, req);
    CheckRefines(s.server.win, s.server.seen, req.clt, req.xid, req.xidRep);
    var w' := Check(s.server.win, req.clt, req.xid, req.xidRep).1;
    forall c: nat | c != req.clt ensures Mark(w', c) == Mark(s.server.win, c) {}
  }

  /** Every xid_rep in flight is at most the present front of its client's window. */
  lemma FrontAboveRep(s: System, req: Request)
    requires RequestOk(s, req) && ClientInv(req.clt, s.clients[req.clt])
    ensures req.xidRep <= s.clients[req.clt].window[0]
  {}

  lemma ReturnRuns(s: System, c: nat, x: nat, reply: Reply, sent: set<Message>)
    requires RunsOk(s) && HandlerMayReturn(s, c, x, reply) && Running(s.server, c, x)
    ensures RunsOk(Serving(s, Answered(s.server, c, x, reply), sent))
  {
    var s' := Serving(s, Answered(s.server, c, x, reply), sent);
    forall i: nat, d: nat, y: nat | RunOk(s, i, d, y) ensures RunOk(s', i, d, y) {}
    assert RunOk(s, s.server.nonce, c, x);
    forall k | k in s'.server.completed ensures RunOk(s', k.instance, k.clt, k.xid) {
      assert k in s.server.completed || k == ExecutionKey(s.server.nonce, c, x);
    }
    forall d: nat, y: nat | (d, y) in s'.server.seen ensures RunOk(s', s'.server.nonce, d, y) {
      assert (d, y) in s.server.seen;
    }
  }

  lemma ReturnServer(sv: Server, c: nat, x: nat, reply: Reply)
    requires ServerInv(sv) && Running(sv, c, x)
    ensures var sv' := Answered(sv, c, x, reply);
            && ServerInv(sv') && Advances(sv, sv') && sv'.used == sv.used
            && (!sv'.halted ==> ExecutionKey(sv.nonce, c, x) in sv'.completed
                                && sv'.completed[ExecutionKey(sv.nonce, c, x)] == reply)
            && (sv'.halted && !sv.halted ==> x !in Saved(List(sv.win, c)))
            && forall d: nat :: Mark(sv'.win, d) == Mark(sv.win, d)
  {
    hide Refines, Saved, SetReply, LogOk, LoggedOk;
    AnsweredInv(sv, c, x, reply);
    SavedReplyRefines(sv.win, sv.seen, c, x, reply);
    assert ExecutionKey(sv.nonce, c, x) !in sv.completed;
    hide ServerInv, CompletedOk;
  }

  lemma ReturnRequests(s: System, c: nat, x: nat, reply: Reply, sent: set<Message>)
    requires RequestsOk(s)
    ensures RequestsOk(Serving(s, Answered(s.server, c, x, reply), sent))
  {
    var s' := Serving(s, Answered(s.server, c, x, reply), sent);
    forall r | RequestOk(s, r) ensures RequestOk(s', r) {}
  }

  lemma ReturnSent(s: System, c: nat, x: nat, reply: Reply)
    requires HandlerMayReturn(s, c, x, reply) && ClientsOk(s)
    requires ExecutionKey(s.server.nonce, c, x) in Answered(s.server, c, x, reply).completed
    requires Answered(s.server, c, x, reply).completed[ExecutionKey(s.server.nonce, c, x)] == reply
    ensures var m := Message(c, x, reply);
            m.clt in s.clients && s.clients[m.clt].window != []
            && Justified(Serving(s, Answered(s.server, c, x, reply), {m}), m)
  {
    assert ClientInv(c, s.clients[c]);
  }

  lemma ReturnHalts(s: System, c: nat, x: nat, reply: Reply)
    requires Inv(s) && Running(s.server, c, x) && x !in Saved(List(s.server.win, c))
    ensures HaltOk(Serving(s, Answered(s.server, c, x, reply), {}))
  {
    UnlistedIsExcused(s, c, x);
    var s' := Serving(s, Answered(s.server, c, x, reply), {});
    assert Known(s', c, x) && Excused(s', c, x);
  }

  lemma NoHalt(s: System)
    requires !s.server.halted
    ensures HaltOk(s)
  {}

  lemma ReturnMarks(s: System, sv: Server, sent: set<Message>)
    requires MarksOk(s) && forall d: nat :: Mark(sv.win, d) == Mark(s.server.win, d)
    ensures MarksOk(Serving(s, sv, sent))
  {}

  lemma ReturnKeeps(s: System, c: nat, x: nat, reply: Reply)
    requires Inv(s) && HandlerMayReturn(s, c, x, reply) && Running(s.server, c, x) && !s.server.halted
    ensures var sv' := Answered(s.server, c, x, reply);
            Inv(Serving(s, sv', if sv'.halted then {} else {Message(c, x, reply)}))
  {
    hide ServerInv, ClientsOk, StampsOk, RequestsOk, RepliesOk, AllResultsOk, RunsOk, MarksOk, HaltOk;
    ReturnServer(s.server, c, x, reply);
    var sv' := Answered(s.server, c, x, reply);
    var sent := if sv'.halted then {} else {Message(c, x, reply)};
    ServingStampsOk(s, sv', sent);
    if sv'.halted {
      ReturnHalts(s, c, x, reply);
    } else {
      ReturnSent(s, c, x, reply);
      NoHalt(Serving(s, sv', sent));
    }
    ServingRepliesOk(s, sv', sent);
    ServingResultsOk(s, sv', sent);
    ReturnRuns(s, c, x, reply, sent);
    ReturnRequests(s, c, x, reply, sent);
    ReturnMarks(s, sv', sent);
  }

  lemma ReturnIsServing(s: System, c: nat, x: nat, reply: Reply)
    requires Enabled(s, Return(c, x, reply))
    ensures var sv' := Answered(s.server, c, x, reply);
            Apply(s, Return(c, x, reply)) == Serving(s, sv', if sv'.halted then {} else {Message(c, x, reply)})
  {
    assert s.replies + {} == s.replies;
  }

  lemma RebootServer(s: System, nonce: nat)
    requires RequestsOk(s) && RunsOk(s) && CanHappen(s.server, Restart(nonce))
    ensures var s' := Serving(s, After(s.server, Restart(nonce)), {});
            RequestsOk(s') && RunsOk(s') && MarksOk(s') && HaltOk(s')
  {
    var s' := Serving(s, After(s.server, Restart(nonce)), {});
    forall i: nat, d: nat, y: nat | RunOk(s, i, d, y) ensures RunOk(s', i, d, y) {}
    forall r | RequestOk(s, r) ensures RequestOk(s', r) {}
    forall d: nat ensures Mark(s'.server.win, d) == 0 {}
  }

  lemma RebootKeeps(s: System, nonce: uint32)
    requires Inv(s) && Enabled(s, Reboot(nonce))
    ensures Inv(Apply(s, Reboot(nonce)))
  {
    var sv' := After(s.server, Restart(nonce));
    assert Serving(s, sv', {}) == Apply(s, Reboot(nonce));
    hide ServerInv, ClientsOk, StampsOk, RequestsOk, RepliesOk, AllResultsOk, RunsOk, MarksOk, HaltOk;
    RestartInv(s.server, nonce);
    ServingStampsOk(s, sv', {});
    ServingRepliesOk(s, sv', {});
    ServingResultsOk(s, sv', {});
    RebootServer(s, nonce);
  }

  lemma StepKeeps(s: System, step: Step)
    requires Inv(s) && Enabled(s, step)
    ensures Inv(Apply(s, step))
  {
    hide ServerInv, ClientsOk, StampsOk, RequestsOk, RepliesOk, AllResultsOk, RunsOk, MarksOk, HaltOk;
    match step
    case NewClient(clt) => NewClientKeeps(s, clt);
    case Invoke(clt, proc, args) => InvokeKeeps(s, clt, proc, args);
    case Transmit(clt, xid) => TransmitKeeps(s, clt, xid);
    case Receive(req) => ReceiveKeeps(s, req);
    case Return(clt, xid, reply) =>
      ReturnKeeps(s, clt, xid, reply);
      ReturnIsServing(s, clt, xid, reply);
    case Deliver(msg) => DeliverKeeps(s, msg);
    case EndCall(clt, xid) => EndCallKeeps(s, clt, xid);
    case BindDone(clt, xid) => BindDoneKeeps(s, clt, xid);
    case Cancel(clt) => CancelKeeps(s, clt);
    case Reboot(nonce) => RebootKeeps(s, nonce);
  }

  lemma {:induction false} BehaviourInv(states: seq<System>, steps: seq<Step>, k: nat)
    requires Behaviour(states, steps) && k < |states|
    ensures Inv(states[k])
  {
    if k == 0 {
      StartInv(states[0].server.nonce);
    } else {
      BehaviourInv(states, steps, k - 1);
      StepKeeps(states[k - 1], steps[k - 1]);
    }
  }
}
