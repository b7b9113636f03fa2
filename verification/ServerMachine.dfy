/** The server side of the protocol as a step machine, with nothing assumed about what arrives: requests may be
    repeated, reordered, forged or stale, and the server may be restarted any number of times. Next to the pruned
    window the state carries, as history, what a server that never forgets would know. */
module ServerMachine {
  import opened Common
  import opened ReplyWindow

  const ATMOSTONCE_FAILURE := -4
  const OLDSRV_FAILURE := -5

  datatype Request = Request(clt: nat, xid: nat, proc: nat, srvNonce: nat, xidRep: nat, args: Bytes)

  /** One run of a handler, on the server instance with the given nonce. */
  datatype Execution = Execution(instance: nat, req: Request)

  datatype ExecutionKey = ExecutionKey(instance: nat, clt: nat, xid: nat)

  datatype Server = Server(
    nonce: nat,
    win: Windows,
    halted: bool,
    // history
    used: set<nat>,                             // nonces of all instances so far
    seen: map<(nat, nat), Option<Reply>>,       // every call this instance has accepted, and its reply once there is one
    log: seq<Execution>,                        // every handler run of every instance, in order
    completed: map<ExecutionKey, Reply>)        // the replies of those that came to an end

  datatype Event =
    | Arrive(req: Request)
    | Complete(clt: nat, xid: nat, reply: Reply)
    | Restart(nonce: nat)

  function FreshServer(nonce: nat): Server {
    Server(nonce, Windows(map[], map[]), false, {nonce}, map[], [], map[])
  }

  /** rpcs::dispatch, up to the switch: is the request for another instance? */
  predicate ForOldServer(s: Server, req: Request) {
    req.srvNonce != 0 && req.srvNonce != s.nonce
  }

  function VerdictOn(s: Server, req: Request): Verdict {
    Check(s.win, req.clt, req.xid, req.xidRep).0
  }

  /** Does this arrival start a handler? */
  predicate Starts(s: Server, req: Request) {
    !ForOldServer(s, req) && VerdictOn(s, req).New?
  }

  /** The reply that dispatch sends right away, if it does not run the handler and has one. */
  function Response(s: Server, req: Request): Option<Reply> {
    if ForOldServer(s, req) then Some(Reply(OLDSRV_FAILURE, []))
    else
      match VerdictOn(s, req)
      case Done(reply) => Some(reply)
      case Forgotten => Some(Reply(ATMOSTONCE_FAILURE, []))
      case _ => None
  }

  /** The handler of this call is running on the current instance. */
  predicate Running(s: Server, clt: nat, xid: nat) {
    (clt, xid) in s.seen && s.seen[(clt, xid)].None?
  }

  function Accept(s: Server, req: Request): Server {
    if ForOldServer(s, req) then s
    else
      var (verdict, win) := Check(s.win, req.clt, req.xid, req.xidRep);
      if verdict.New? then
        s.(win := win, seen := s.seen[(req.clt, req.xid) := None], log := s.log + [Execution(s.nonce, req)])
      else
        s.(win := win)
  }

  /** add_reply, called by dispatch when the handler returns. Without an entry the process aborts. */
  function Answered(s: Server, clt: nat, xid: nat, reply: Reply): Server {
    match SavedReply(s.win, clt, xid, reply)
    case None => s.(halted := true)
    case Some(win) =>
      s.(win := win,
         seen := s.seen[(clt, xid) := Some(reply)],
         completed := s.completed[ExecutionKey(s.nonce, clt, xid) := reply])
  }

  predicate CanHappen(s: Server, e: Event) {
    match e
    case Arrive(req) => !s.halted && req.clt != 0
    case Complete(clt, xid, reply) => !s.halted && Running(s, clt, xid)
    case Restart(nonce) => nonce != 0 && nonce !in s.used
  }

  function After(s: Server, e: Event): Server {
    match e
    case Arrive(req) => Accept(s, req)
    case Complete(clt, xid, reply) => Answered(s, clt, xid, reply)
    case Restart(nonce) =>
      s.(nonce := nonce, win := Windows(map[], map[]), halted := false, used := s.used + {nonce}, seen := map[])
  }

  ghost predicate Trace(states: seq<Server>, events: seq<Event>) {
    && |states| == |events| + 1
    && states[0].nonce != 0 && states[0] == FreshServer(states[0].nonce)
    && forall i :: 0 <= i < |events| ==> CanHappen(states[i], events[i]) && states[i + 1] == After(states[i], events[i])
  }

  // ---------------------------------------------------------------------------------------------
  // The pruned window refines a memory that forgets nothing
  // ---------------------------------------------------------------------------------------------

  /** Every entry still listed is what was seen, and every call seen is listed or lies below the watermark. */
  ghost predicate Refines(w: Windows, seen: map<(nat, nat), Option<Reply>>) {
    && (forall c: nat :: Distinct(List(w, c)))
    && (forall c: nat, y: nat :: y in Saved(List(w, c)) ==> (c, y) in seen && seen[(c, y)] == Saved(List(w, c))[y])
    && (forall c: nat, y: nat :: (c, y) in seen ==> y in Saved(List(w, c)) || y < Mark(w, c))
  }

  /** What a server that remembers every call would say, if it only refused what lies below the watermark. */
  function FullAnswer(seen: map<(nat, nat), Option<Reply>>, clt: nat, xid: nat, mark: nat): Verdict {
    if xid < mark then Forgotten
    else if (clt, xid) !in seen then New
    else if seen[(clt, xid)].None? then InProgress
    else Done(seen[(clt, xid)].value)
  }

  function Remember(seen: map<(nat, nat), Option<Reply>>, clt: nat, xid: nat, verdict: Verdict)
    : map<(nat, nat), Option<Reply>>
  {
    if verdict.New? then seen[(clt, xid) := None] else seen
  }

  /** One client's list changed, and the others did not. */
  lemma RefinesWithList(w: Windows, w': Windows, clt: nat,
        seen: map<(nat, nat), Option<Reply>>, seen': map<(nat, nat), Option<Reply>>)
    requires Refines(w, seen)
    requires forall c: nat :: c != clt ==> List(w', c) == List(w, c) && Mark(w', c) == Mark(w, c)
    requires forall c: nat, y: nat :: c != clt ==> ((c, y) in seen' <==> (c, y) in seen)
    requires forall c: nat, y: nat :: c != clt && (c, y) in seen ==> seen'[(c, y)] == seen[(c, y)]
    requires Distinct(List(w', clt))
    requires forall y: nat :: y in Saved(List(w', clt)) ==> (clt, y) in seen' && seen'[(clt, y)] == Saved(List(w', clt))[y]
    requires forall y: nat :: (clt, y) in seen' ==> y in Saved(List(w', clt)) || y < Mark(w', clt)
    ensures Refines(w', seen')
  {
    hide Distinct, Saved, List, Mark;
    forall c: nat ensures Distinct(List(w', c)) {
      if c != clt { assert List(w', c) == List(w, c); }
    }
    forall c: nat, y: nat | y in Saved(List(w', c)) ensures (c, y) in seen' && seen'[(c, y)] == Saved(List(w', c))[y] {
      if c != clt { assert List(w', c) == List(w, c); }
    }
    forall c: nat, y: nat | (c, y) in seen' ensures y in Saved(List(w', c)) || y < Mark(w', c) {
      if c != clt { assert List(w', c) == List(w, c); }
    }
  }

  lemma CheckRefines(w: Windows, seen: map<(nat, nat), Option<Reply>>, clt: nat, xid: nat, xidRep: nat)
    requires Refines(w, seen)
    ensures var (verdict, w') := Check(w, clt, xid, xidRep);
            && verdict == FullAnswer(seen, clt, xid, Max(Mark(w, clt), xidRep))
            && Mark(w', clt) == Max(Mark(w, clt), xidRep)
            && Refines(w', Remember(seen, clt, xid, verdict))
  {
    var mark := Max(Mark(w, clt), xidRep);
    var (verdict, w') := Check(w, clt, xid, xidRep);
    assert Distinct(List(w, clt));
    if mark <= xid {
      ScanKeeps(List(w, clt), xid, mark);
    }
    hide Distinct, Saved, Scan;
    RefinesWithList(w, w', clt, seen, Remember(seen, clt, xid, verdict));
  }

  /** Saving a reply succeeds exactly when the placeholder is still listed, and it then is remembered. */
  lemma SavedReplyRefines(w: Windows, seen: map<(nat, nat), Option<Reply>>, clt: nat, xid: nat, reply: Reply)
    requires Refines(w, seen) && (clt, xid) in seen
    ensures SavedReply(w, clt, xid, reply).Some? <==> xid in Saved(List(w, clt))
    ensures SavedReply(w, clt, xid, reply).None? ==> xid < Mark(w, clt)
    ensures SavedReply(w, clt, xid, reply).Some? ==>
              Refines(SavedReply(w, clt, xid, reply).value, seen[(clt, xid) := Some(reply)])
  {
    assert Distinct(List(w, clt));
    SetReplyKeeps(List(w, clt), xid, reply);
    if SavedReply(w, clt, xid, reply).Some? {
      hide Distinct, Saved, SetReply;
      RefinesWithList(w, SavedReply(w, clt, xid, reply).value, clt, seen, seen[(clt, xid) := Some(reply)]);
    }
  }

  // ---------------------------------------------------------------------------------------------
  // Invariant
  // ---------------------------------------------------------------------------------------------

  ghost predicate LogOk(s: Server) {
    && (forall i :: 0 <= i < |s.log| ==>
          && s.log[i].instance in s.used
          && (s.log[i].req.srvNonce == 0 || s.log[i].req.srvNonce == s.log[i].instance)
          && (s.log[i].instance == s.nonce ==> (s.log[i].req.clt, s.log[i].req.xid) in s.seen))
    && (forall i, j :: 0 <= i < j < |s.log| ==> KeyOf(s.log[i]) != KeyOf(s.log[j]))
  }

  ghost predicate CompletedOk(s: Server) {
    && (forall k :: k in s.completed ==> k.instance in s.used)
    && (forall c: nat, y: nat :: ExecutionKey(s.nonce, c, y) in s.completed <==> (c, y) in s.seen && s.seen[(c, y)].Some?)
    && (forall c: nat, y: nat :: ExecutionKey(s.nonce, c, y) in s.completed ==>
          s.seen[(c, y)].value == s.completed[ExecutionKey(s.nonce, c, y)])
  }

  ghost predicate Logged(log: seq<Execution>, k: ExecutionKey) {
    exists i :: 0 <= i < |log| && KeyOf(log[i]) == k
  }

  /** Whatever was accepted or completed was started. */
  ghost predicate LoggedOk(s: Server) {
    && (forall c: nat, y: nat :: (c, y) in s.seen ==> Logged(s.log, ExecutionKey(s.nonce, c, y)))
    && (forall k :: k in s.completed ==> Logged(s.log, k))
  }

  lemma LoggedStays(log: seq<Execution>, e: Execution, k: ExecutionKey)
    ensures Logged(log, k) ==> Logged(log + [e], k)
    ensures Logged(log + [e], KeyOf(e))
  {
    assert (log + [e])[|log|] == e;
    if Logged(log, k) {
      var i :| 0 <= i < |log| && KeyOf(log[i]) == k;
      assert (log + [e])[i] == log[i];
    }
  }

  function KeyOf(e: Execution): ExecutionKey {
    ExecutionKey(e.instance, e.req.clt, e.req.xid)
  }

  ghost predicate ServerInv(s: Server) {
    && s.nonce in s.used && 0 !in s.used
    && Refines(s.win, s.seen)
    && LogOk(s)
    && LoggedOk(s)
    && CompletedOk(s)
  }

  lemma InitInv(nonce: nat)
    requires nonce != 0
    ensures ServerInv(FreshServer(nonce))
  {
    var w := FreshServer(nonce).win;
    assert forall c: nat :: List(w, c) == [];
  }

  lemma AcceptLogged(s: Server, req: Request)
    requires LoggedOk(s)
    ensures LoggedOk(Accept(s, req))
  {
    forall k ensures Logged(s.log, k) ==> Logged(s.log + [Execution(s.nonce, req)], k) {
      LoggedStays(s.log, Execution(s.nonce, req), k);
    }
    LoggedStays(s.log, Execution(s.nonce, req), KeyOf(Execution(s.nonce, req)));
  }

  lemma AcceptLog(s: Server, req: Request)
    requires LogOk(s) && s.nonce in s.used
    requires Starts(s, req) ==> (req.clt, req.xid) !in s.seen
    ensures LogOk(Accept(s, req))
  {
    forall i | 0 <= i < |s.log| && Starts(s, req) ensures KeyOf(s.log[i]) != KeyOf(Execution(s.nonce, req)) {}
  }

  lemma AcceptCompleted(s: Server, req: Request)
    requires CompletedOk(s)
    requires Starts(s, req) ==> (req.clt, req.xid) !in s.seen
    ensures CompletedOk(Accept(s, req))
  {}

  lemma AcceptRefines(s: Server, req: Request)
    requires Refines(s.win, s.seen)
    ensures Refines(Accept(s, req).win, Accept(s, req).seen)
    ensures Starts(s, req) ==> (req.clt, req.xid) !in s.seen
  {
    hide Refines;
    CheckRefines(s.win, s.seen, req.clt, req.xid, req.xidRep);
  }

  lemma AcceptInv(s: Server, req: Request)
    requires ServerInv(s)
    ensures ServerInv(Accept(s, req))
  {
    hide LoggedOk, LogOk, CompletedOk, Refines;
    AcceptRefines(s, req);
    AcceptLogged(s, req);
    AcceptLog(s, req);
    AcceptCompleted(s, req);
  }

  lemma AnsweredInv(s: Server, clt: nat, xid: nat, reply: Reply)
    requires ServerInv(s) && Running(s, clt, xid)
    ensures ServerInv(Answered(s, clt, xid, reply))
  {
    hide Refines;
    SavedReplyRefines(s.win, s.seen, clt, xid, reply);
  }

  lemma RestartInv(s: Server, nonce: nat)
    requires ServerInv(s) && nonce != 0 && nonce !in s.used
    ensures ServerInv(After(s, Restart(nonce)))
  {
    var s' := After(s, Restart(nonce));
    assert forall c: nat :: List(s'.win, c) == [];
  }

  lemma {:induction false} TraceInv(states: seq<Server>, events: seq<Event>, k: nat)
    requires Trace(states, events) && k < |states|
    ensures ServerInv(states[k])
  {
    if k == 0 {
      InitInv(states[0].nonce);
    } else {
      TraceInv(states, events, k - 1);
      match events[k - 1]
      case Arrive(req) => AcceptInv(states[k - 1], req);
      case Complete(clt, xid, reply) => AnsweredInv(states[k - 1], clt, xid, reply);
      case Restart(nonce) => RestartInv(states[k - 1], nonce);
    }
  }

  // ---------------------------------------------------------------------------------------------
  // Main results
  // ---------------------------------------------------------------------------------------------

  /** At most once, whatever clients and network do: no two handler runs of one instance are for the same client
      and xid, and a request stamped with a server nonce runs on that instance only, so over all instances it
      runs at most once. */
  lemma AtMostOnce(states: seq<Server>, events: seq<Event>, k: nat)
    requires Trace(states, events) && k < |states|
    ensures var log := states[k].log;
            forall i, j :: 0 <= i < j < |log| && log[i].req.clt == log[j].req.clt && log[i].req.xid == log[j].req.xid ==>
              && log[i].instance != log[j].instance
              && (log[i].req.srvNonce != 0 ==> log[i].req.srvNonce != log[j].req.srvNonce)
    ensures forall i :: 0 <= i < |states[k].log| ==>
              states[k].log[i].req.srvNonce == 0 || states[k].log[i].instance == states[k].log[i].req.srvNonce
  {
    TraceInv(states, events, k);
    var log := states[k].log;
    forall i, j | 0 <= i < j < |log| && log[i].req.clt == log[j].req.clt && log[i].req.xid == log[j].req.xid
      ensures log[i].instance != log[j].instance
    {
      assert KeyOf(log[i]) != KeyOf(log[j]);
    }
  }

  /** And that is all there is to promise: any request without a server nonce, as every bind is, can run on one
      instance and again on the next. */
  lemma UnstampedRunsOnEachInstance(n: nat, m: nat, req: Request) returns (states: seq<Server>, events: seq<Event>)
    requires n != 0 && m != 0 && n != m && req.clt != 0 && req.srvNonce == 0 && req.xidRep <= req.xid
    ensures Trace(states, events) && events == [Arrive(req), Restart(m), Arrive(req)]
    ensures states[3].log == [Execution(n, req), Execution(m, req)]
  {
    events := [Arrive(req), Restart(m), Arrive(req)];
    var s1 := Accept(FreshServer(n), req);
    var s2 := After(s1, Restart(m));
    states := [FreshServer(n), s1, s2, Accept(s2, req)];
    assert Scan([], req.xid, req.xidRep).0 == New;
  }

  /** In every reachable state the pruned server answers exactly as a server that remembers every reply of this
      instance for ever and refuses only what lies below the watermark. */
  lemma AnswersLikeFullMemory(states: seq<Server>, events: seq<Event>, k: nat, req: Request)
    requires Trace(states, events) && k < |states|
    ensures VerdictOn(states[k], req) ==
            FullAnswer(states[k].seen, req.clt, req.xid, Max(Mark(states[k].win, req.clt), req.xidRep))
  {
    TraceInv(states, events, k);
    CheckRefines(states[k].win, states[k].seen, req.clt, req.xid, req.xidRep);
  }

  /** The server aborts on a completion exactly when the placeholder has been pruned, which takes a watermark above
      the xid of the running call. */
  lemma AbortsOnlyWhenPruned(states: seq<Server>, events: seq<Event>, k: nat, clt: nat, xid: nat, reply: Reply)
    requires Trace(states, events) && k < |states|
    requires CanHappen(states[k], Complete(clt, xid, reply))
    ensures var s := states[k];
            && (After(s, Complete(clt, xid, reply)).halted <==> xid !in Saved(List(s.win, clt)))
            && (After(s, Complete(clt, xid, reply)).halted ==> xid < Mark(s.win, clt))
  {
    TraceInv(states, events, k);
    SavedReplyRefines(states[k].win, states[k].seen, clt, xid, reply);
  }

  /** Each client's list never holds two entries with one xid, in any reachable state. */
  lemma ListsAreDistinct(states: seq<Server>, events: seq<Event>, k: nat, clt: nat)
    requires Trace(states, events) && k < |states|
    ensures Distinct(List(states[k].win, clt))
    ensures |Saved(List(states[k].win, clt)).Keys| == |List(states[k].win, clt)|
  {
    TraceInv(states, events, k);
    assert Distinct(List(states[k].win, clt));
    SavedSize(List(states[k].win, clt));
  }
}
