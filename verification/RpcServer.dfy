/** The server endpoint (rpcs): the part of dispatch that classifies a request, and the part that saves a reply. */
module RpcServer {
  import opened Common
  import opened ReplyWindow
  import opened ServerMachine

  class Rpcs {
    const nonce: nat
    const cache: ReplyCache
    var halted: bool
    ghost var used: set<nat>
    ghost var seen: map<(nat, nat), Option<Reply>>
    ghost var log: seq<Execution>
    ghost var completed: map<ExecutionKey, Reply>

    ghost function State(): Server
      reads this, cache
    {
      Server(nonce, cache.Value(), halted, used, seen, log, completed)
    }

    constructor (n: nat)
      ensures State() == FreshServer(n) && fresh(cache)
    {
      nonce := n;
      cache := new ReplyCache();
      halted := false;
      used, seen, log, completed := {n}, map[], [], map[];
    }

    /** rpcs::dispatch for a registered procedure, up to the call of its handler. Where the handler is not run, `send`
        is the return code and body of the reply that goes out at once, if one does. A client with nonce 0 asks for no
        more than the test for an old server: the handler runs, and nothing is remembered. */
    method Classify(req: Request) returns (run: bool, send: Option<Reply>)
      modifies this, cache
      ensures req.clt == 0 ==> State() == old(State()) && run == !ForOldServer(old(State()), req)
      ensures req.clt == 0 ==> send == if run then None else Some(Reply(OLDSRV_FAILURE, []))
      ensures req.clt != 0 ==> State() == Accept(old(State()), req)
      ensures req.clt != 0 ==> run == Starts(old(State()), req)
      ensures req.clt != 0 ==> send == Response(old(State()), req)
    {
      if req.srvNonce != 0 && req.srvNonce != nonce {
        return false, Some(Reply(OLDSRV_FAILURE, []));
      }
      if req.clt == 0 {
        return true, None;
      }
      cache.KnowClient(req.clt);
      KnowingFirst(old(cache.Value()), req.clt, req.xid, req.xidRep);
      var verdict := cache.CheckDuplicateAndUpdate(req.clt, req.xid, req.xidRep);
      match verdict
      case New =>
        seen := seen[(req.clt, req.xid) := None];
        log := log + [Execution(nonce, req)];
        return true, None;
      case InProgress => return false, None;
      case Done(reply) => return false, Some(reply);
      case Forgotten => return false, Some(Reply(ATMOSTONCE_FAILURE, []));
    }

    /** rpcs::dispatch after the handler returned. Nothing is sent where the source aborts, and nothing is saved for a
        client with nonce 0. */
    method HandlerReturned(clt: nat, xid: nat, reply: Reply) returns (sent: bool)
      requires clt != 0 ==> clt in cache.replyWindow
      modifies this, cache
      ensures clt == 0 ==> sent && State() == old(State())
      ensures clt != 0 ==> State() == Answered(old(State()), clt, xid, reply)
      ensures clt != 0 && !old(halted) ==> sent == !halted
    {
      if clt == 0 {
        return true;
      }
      sent := cache.AddReply(clt, xid, reply);
      if sent {
        seen := seen[(clt, xid) := Some(reply)];
        completed := completed[ExecutionKey(nonce, clt, xid) := reply];
      } else {
        halted := true;
      }
    }
  }
}
