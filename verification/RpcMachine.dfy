/** Clients, network and server as one machine. The network is the set of everything ever sent: a message may be
    delivered never, once or many times, and in any order. */
module RpcMachine {
  import opened Common
  import opened ReplyWindow
  import opened ServerMachine
  import opened RpcClient

  const UNMARSHAL_ARGS_FAILURE := -2

  /** A reply on its way to a client. */
  datatype Message = Message(clt: nat, xid: nat, reply: Reply)

  datatype System = System(clients: map<nat, Client>, requests: set<Request>, replies: set<Message>, server: Server)

  datatype Step =
    | NewClient(clt: nat)
    | Invoke(clt: nat, proc: nat, args: Bytes)
    | Transmit(clt: nat, xid: nat)
    | Receive(req: Request)
    | Return(clt: nat, xid: nat, reply: Reply)
    | Deliver(msg: Message)
    | EndCall(clt: nat, xid: nat)
    | BindDone(clt: nat, xid: nat)
    | Cancel(clt: nat)
    | Reboot(nonce: uint32)

  function Start(nonce: nat): System {
    System(map[], {}, {}, FreshServer(nonce))
  }

  predicate Known(s: System, clt: nat, xid: nat) {
    clt in s.clients && xid in s.clients[clt].issued
  }

  function Issued(s: System, clt: nat, xid: nat): Request
    requires Known(s, clt, xid)
  {
    s.clients[clt].issued[xid]
  }

  /** What dispatch accepts from a handler; the handler of bind returns the nonce of its instance. */
  predicate HandlerMayReturn(s: System, clt: nat, xid: nat, reply: Reply) {
    && Known(s, clt, xid)
    && (reply.ret >= 0 || reply.ret == UNMARSHAL_ARGS_FAILURE)
    && (Issued(s, clt, xid).proc == BIND ==> 0 <= s.server.nonce < TWO_TO_THE_32 && reply == Reply(0, Be32(s.server.nonce)))
  }

  /** The message dispatch sends right away, if it sends one. */
  function ImmediateReplies(sv: Server, req: Request): set<Message> {
    match Response(sv, req)
    case None => {}
    case Some(reply) => {Message(req.clt, req.xid, reply)}
  }

  predicate Enabled(s: System, step: Step) {
    match step
    case NewClient(clt) => clt != 0 && clt !in s.clients
    case Invoke(clt, proc, args) => clt in s.clients && s.clients[clt].window != [] && Refusal(s.clients[clt], proc) == 0
    case Transmit(clt, xid) => Known(s, clt, xid) && xid in s.clients[clt].calls
    case Receive(req) => req in s.requests && CanHappen(s.server, Arrive(req))
    case Return(clt, xid, reply) =>
      HandlerMayReturn(s, clt, xid, reply) && CanHappen(s.server, Complete(clt, xid, reply))
    case Deliver(msg) => msg in s.replies && msg.clt in s.clients && s.clients[msg.clt].window != []
    case EndCall(clt, xid) => clt in s.clients && s.clients[clt].window != [] && xid in s.clients[clt].calls
    case BindDone(clt, xid) =>
      && Known(s, clt, xid) && xid in s.clients[clt].outcomes && Issued(s, clt, xid).proc == BIND
      && s.clients[clt].outcomes[xid].ret == 0 && |s.clients[clt].outcomes[xid].body| == 4
    case Cancel(clt) => clt in s.clients
    case Reboot(nonce) => CanHappen(s.server, Restart(nonce))
  }

  function Apply(s: System, step: Step): System
    requires Enabled(s, step)
  {
    match step
    case NewClient(clt) => s.(clients := s.clients[clt := FRESH_CLIENT])
    case Invoke(clt, proc, args) => s.(clients := s.clients[clt := Begin(s.clients[clt], clt, proc, args)])
    case Transmit(clt, xid) => s.(requests := s.requests + {Issued(s, clt, xid)})
    case Receive(req) =>
      s.(server := Accept(s.server, req), replies := s.replies + ImmediateReplies(s.server, req))
    case Return(clt, xid, reply) =>
      var sv := Answered(s.server, clt, xid, reply);
      s.(server := sv, replies := if sv.halted then s.replies else s.replies + {Message(clt, xid, reply)})
    case Deliver(msg) => s.(clients := s.clients[msg.clt := GotPdu(s.clients[msg.clt], msg.xid, msg.reply)])
    case EndCall(clt, xid) => s.(clients := s.clients[clt := End(s.clients[clt], xid)])
    case BindDone(clt, xid) =>
      s.(clients := s.clients[clt := Bound(s.clients[clt], FromBe32(s.clients[clt].outcomes[xid].body))])
    case Cancel(clt) => s.(clients := s.clients[clt := CancelAll(s.clients[clt])])
    case Reboot(nonce) => s.(server := After(s.server, Restart(nonce)))
  }

  ghost predicate Behaviour(states: seq<System>, steps: seq<Step>) {
    && |states| == |steps| + 1
    && 0 < states[0].server.nonce < TWO_TO_THE_32 && states[0] == Start(states[0].server.nonce)
    && forall i :: 0 <= i < |steps| ==> Enabled(states[i], steps[i]) && states[i + 1] == Apply(states[i], steps[i])
  }
}
