/** Lock clients, the RPC protocol and the lock server as one machine. Clients only make the calls of lock_client, their
    threads release only locks they hold, and there are no timeouts, cancels or server restarts. */
module LockSystem {
  import opened Common
  import opened ReplyWindow
  import opened ServerMachine
  import opened RpcClient
  import opened RpcMachine
  import opened RpcTheorems
  import M = LockServer

  const ACQUIRE := 0x7001
  const RELEASE := 0x7002
  const TWO_TO_THE_64 := 0x1_0000_0000_0000_0000

  /** A call by the nonce of its client and its xid; also the name of the possession that an acquire call creates. */
  type CallId = (nat, nat)

  // ---------------------------------------------------------------------------------------------
  // Arguments of acquire and release: the client's nonce and the lock, marshalled
  // ---------------------------------------------------------------------------------------------

  function LockArgs(clt: uint32, lid: nat): (args: Bytes)
    requires lid < TWO_TO_THE_64
    ensures |args| == 12
  {
    Be32(clt) + Be32(lid / TWO_TO_THE_32) + Be32(lid % TWO_TO_THE_32)
  }

  /** What the handler wrapper reads; None is unmarshal_args_failure. */
  function ReadLockArgs(args: Bytes): Option<(nat, nat)> {
    if |args| == 12 then
      Some((FromBe32(args[..4]), FromBe32(args[4..8]) * TWO_TO_THE_32 + FromBe32(args[8..])))
    else None
  }

  lemma LockArgsRoundTrip(clt: uint32, lid: nat)
    requires lid < TWO_TO_THE_64
    ensures ReadLockArgs(LockArgs(clt, lid)) == Some((clt as nat, lid))
  {
    var hi, lo := lid / TWO_TO_THE_32, lid % TWO_TO_THE_32;
    Be32Decodes(clt);
    Be32Decodes(hi);
    Be32Decodes(lo);
    var args := LockArgs(clt, lid);
    assert args[..4] == Be32(clt) && args[4..8] == Be32(hi) && args[8..] == Be32(lo);
  }

  // ---------------------------------------------------------------------------------------------
  // State and steps
  // ---------------------------------------------------------------------------------------------

  /** What a client thread meant by a call. */
  datatype Op = Acquire(lid: nat) | Release(lid: nat, token: nat)

  /** The life of a possession: asked for; executed at the server; acquire has returned; release has been called;
      release executed at the server. */
  datatype Token = Wanted | Granted | Held | Releasing(rel: nat) | Freed(rel: nat)

  /** How far the handler of a call has come. */
  datatype Phase = Entered(req: Request) | Blocked | Completed

  datatype LockSys = LockSys(
    rpc: System,
    mon: M.Monitor,
    phase: map<CallId, Phase>,
    // history
    ops: map<CallId, Op>,
    tokens: map<CallId, Token>,
    holder: map<nat, CallId>)    // whose grant each locked lock goes back to

  datatype LockStep =
    | Protocol(step: RpcMachine.Step)
    | CallAcquire(clt: nat, lid: nat)
    | CallRelease(clt: nat, token: nat)
    | HandlerAcquires(call: CallId)
    | HandlerResumes(call: CallId)
    | HandlerReleases(call: CallId, wake: Option<M.Worker>)
    | Spurious(call: CallId)
    | HandlerReturns(call: CallId, reply: Reply)

  function LockStart(nonce: nat): LockSys {
    LockSys(Start(nonce), M.EMPTY, map[], map[], map[], map[])
  }

  predicate IsLockProc(proc: nat) {
    proc == ACQUIRE || proc == RELEASE
  }

  /** The steps of the protocol that are not calls or handlers of the lock service. */
  predicate OwnStep(s: LockSys, step: RpcMachine.Step) {
    match step
    case NewClient(clt) => clt < TWO_TO_THE_32
    case Invoke(_, proc, _) => proc == BIND
    case Return(clt, xid, _) => Known(s.rpc, clt, xid) && !IsLockProc(Issued(s.rpc, clt, xid).proc)
    case _ => true
  }

  predicate EnteredFor(s: LockSys, call: CallId, proc: nat) {
    && call in s.phase && s.phase[call].Entered? && s.phase[call].req.proc == proc
    && ReadLockArgs(s.phase[call].req.args).Some?
  }

  function ArgsOf(s: LockSys, call: CallId): (nat, nat)
    requires call in s.phase && s.phase[call].Entered? && ReadLockArgs(s.phase[call].req.args).Some?
  {
    ReadLockArgs(s.phase[call].req.args).value
  }

  ghost predicate LockEnabled(s: LockSys, step: LockStep) {
    match step
    case Protocol(step) => Enabled(s.rpc, step) && Patient(s.rpc, step) && OwnStep(s, step)
    case CallAcquire(clt, lid) =>
      clt < TWO_TO_THE_32 && lid < TWO_TO_THE_64 && Enabled(s.rpc, Invoke(clt, ACQUIRE, LockArgs(clt, lid)))
    case CallRelease(clt, token) =>
      && (clt, token) in s.tokens && s.tokens[(clt, token)].Held?
      && (clt, token) in s.ops && clt < TWO_TO_THE_32 && s.ops[(clt, token)].lid < TWO_TO_THE_64
      && Enabled(s.rpc, Invoke(clt, RELEASE, LockArgs(clt, s.ops[(clt, token)].lid)))
    case HandlerAcquires(call) => !s.rpc.server.halted && EnteredFor(s, call, ACQUIRE)
    case HandlerResumes(call) => !s.rpc.server.halted && call in s.mon.woken
    case HandlerReleases(call, wake) =>
      !s.rpc.server.halted && EnteredFor(s, call, RELEASE) && M.MayWake(s.mon, ArgsOf(s, call).1, wake)
    case Spurious(call) => !s.rpc.server.halted && call in s.mon.waiting
    case HandlerReturns(call, reply) =>
      && Enabled(s.rpc, Return(call.0, call.1, reply)) && call in s.phase
      && match s.phase[call]
         case Entered(req) => ReadLockArgs(req.args).None? && reply.ret == UNMARSHAL_ARGS_FAILURE
         case Blocked => false
         case Completed => reply.ret == 0
  }

  /** A request that starts a handler of the lock service; a second start would begin that handler afresh. */
  function PhaseAfter(s: LockSys, step: RpcMachine.Step): map<CallId, Phase> {
    match step
    case Receive(req) =>
      if IsLockProc(req.proc) && Starts(s.rpc.server, req) then s.phase[(req.clt, req.xid) := Entered(req)] else s.phase
    case _ => s.phase
  }

  /** When acquire returns OK its thread holds the lock. */
  function TokensAfter(s: LockSys, step: RpcMachine.Step): map<CallId, Token>
    requires Enabled(s.rpc, step)
  {
    match step
    case EndCall(clt, xid) =>
      if (clt, xid) in s.ops && s.ops[(clt, xid)].Acquire? && ResultOf(s.rpc.clients[clt].calls[xid]).ret == 0 then
        s.tokens[(clt, xid) := Held]
      else s.tokens
    case _ => s.tokens
  }

  function Granting(s: LockSys, call: CallId, mon: M.Monitor, lid: nat): LockSys {
    s.(mon := mon, phase := s.phase[call := Completed], tokens := s.tokens[call := Granted],
       holder := s.holder[lid := call])
  }

  ghost function LockApply(s: LockSys, step: LockStep): LockSys
    requires LockEnabled(s, step)
  {
    match step
    case Protocol(step) =>
      s.(rpc := Apply(s.rpc, step), phase := PhaseAfter(s, step), tokens := TokensAfter(s, step))
    case CallAcquire(clt, lid) =>
      var xid := s.rpc.clients[clt].nextXid;
      s.(rpc := Apply(s.rpc, Invoke(clt, ACQUIRE, LockArgs(clt, lid))),
         ops := s.ops[(clt, xid) := Acquire(lid)],
         tokens := s.tokens[(clt, xid) := Wanted])
    case CallRelease(clt, token) =>
      var xid, lid := s.rpc.clients[clt].nextXid, s.ops[(clt, token)].lid;
      s.(rpc := Apply(s.rpc, Invoke(clt, RELEASE, LockArgs(clt, lid))),
         ops := s.ops[(clt, xid) := Release(lid, token)],
         tokens := s.tokens[(clt, token) := Releasing(xid)])
    case HandlerAcquires(call) =>
      var (clt, lid) := ArgsOf(s, call);
      var mon := M.Enter(s.mon, call, clt, lid);
      if M.IsLocked(s.mon, lid) then s.(mon := mon, phase := s.phase[call := Blocked])
      else Granting(s, call, mon, lid)
    case HandlerResumes(call) =>
      var lid := s.mon.woken[call].lid;
      var mon := M.Resume(s.mon, call);
      if M.IsLocked(s.mon, lid) then s.(mon := mon) else Granting(s, call, mon, lid)
    case HandlerReleases(call, wake) =>
      var (clt, lid) := ArgsOf(s, call);
      s.(mon := M.Release(s.mon, clt, lid, wake),
         phase := s.phase[call := Completed],
         tokens := if call in s.ops && s.ops[call].Release? then s.tokens[(call.0, s.ops[call].token) := Freed(call.1)]
                   else s.tokens,
         holder := if M.OwnedBy(s.mon, lid, clt) then s.holder - {lid} else s.holder)
    case Spurious(call) => s.(mon := M.Wake(s.mon, call))
    case HandlerReturns(call, reply) => s.(rpc := Apply(s.rpc, Return(call.0, call.1, reply)))
  }

  ghost predicate LockBehaviour(states: seq<LockSys>, steps: seq<LockStep>) {
    && |states| == |steps| + 1
    && 0 < states[0].rpc.server.nonce < TWO_TO_THE_32 && states[0] == LockStart(states[0].rpc.server.nonce)
    && forall i :: 0 <= i < |steps| ==> LockEnabled(states[i], steps[i]) && states[i + 1] == LockApply(states[i], steps[i])
  }

  /** Acquire has executed, and the release that goes with it, if there is one, has not. */
  predicate Live(s: LockSys, token: CallId) {
    token in s.tokens && (s.tokens[token].Granted? || s.tokens[token].Held? || s.tokens[token].Releasing?)
  }
}
