/** What lock clients can rely on, over the whole stack and in every state of every behaviour. */
module LockTheorems {
  import opened Common
  import opened ServerMachine
  import opened RpcClient
  import opened RpcMachine
  import opened RpcInvariant
  import opened RpcTheorems
  import opened LockSystem
  import opened LockSafety
  import M = LockServer

  /** End-to-end lock exclusion: whatever the network drops, repeats and reorders, each lock is possessed at most once,
      also by threads that share a client; it is possessed exactly while the server has it LOCKED; and the owner the
      server has noted is the client of the possession. */
  lemma Exclusion(states: seq<LockSys>, steps: seq<LockStep>, k: nat)
    requires LockBehaviour(states, steps) && k < |states|
    ensures var s := states[k];
            && (forall t :: Live(s, t) ==> t in s.ops)
            && (forall t, u :: Live(s, t) && Live(s, u) && s.ops[t].lid == s.ops[u].lid ==> t == u)
            && (forall t :: Live(s, t) ==>
                  M.IsLocked(s.mon, s.ops[t].lid) && s.mon.locks[s.ops[t].lid].owner == t.0)
            && (forall lid: nat :: M.IsLocked(s.mon, lid) ==> exists t :: Live(s, t) && s.ops[t].lid == lid)
  {
    LockBehaviourInv(states, steps, k);
    var s := states[k];
    LiveHolds(s);
    forall lid: nat | M.IsLocked(s.mon, lid) ensures exists t :: Live(s, t) && s.ops[t].lid == lid {
      assert Live(s, s.holder[lid]);
    }
  }

  lemma LiveHolds(s: LockSys)
    requires LockInv(s)
    ensures forall t :: Live(s, t) ==>
              && t in s.ops && s.ops[t].Acquire?
              && s.ops[t].lid in s.holder && s.holder[s.ops[t].lid] == t
              && M.IsLocked(s.mon, s.ops[t].lid) && s.mon.locks[s.ops[t].lid].owner == t.0
  {
    hide M.MonitorInv, PhasesOk, TokensOk, Inv, Untroubled, OpOk;
    forall t | Live(s, t)
      ensures t in s.ops && s.ops[t].Acquire? && s.ops[t].lid in s.holder && s.holder[s.ops[t].lid] == t
    {}
  }

  /** The step that runs the release handler of this possession's own release call. */
  predicate IsOwnRelease(s: LockSys, step: LockStep, t: CallId) {
    && step.HandlerReleases? && step.call in s.ops && s.ops[step.call].Release?
    && t == (step.call.0, s.ops[step.call].token)
  }

  /** Nothing but the release that goes with it ends a possession: no repeated, late or foreign release, no second run
      of any handler, and nothing another thread does. */
  lemma OnlyItsOwnReleaseEnds(states: seq<LockSys>, steps: seq<LockStep>, k: nat, t: CallId)
    requires LockBehaviour(states, steps) && k < |steps|
    requires Live(states[k], t) && !IsOwnRelease(states[k], steps[k], t)
    ensures StillLive(states[k], states[k + 1], t)
    ensures M.IsLocked(states[k + 1].mon, states[k].ops[t].lid)
  {
    LockBehaviourInv(states, steps, k);
    LockBehaviourInv(states, steps, k + 1);
    LiveHolds(states[k]);
    forall c: nat | c in states[k].rpc.clients ensures (c, states[k].rpc.clients[c].nextXid) !in states[k].ops {
      NextCallIsNew(states[k], c);
    }
    hide LockInv, LockEnabled, LockApply, Live, IsOwnRelease;
    StaysLive(states[k], steps[k], t);
    LiveHolds(states[k + 1]);
  }

  ghost predicate StillLive(s: LockSys, s': LockSys, t: CallId) {
    Live(s', t) && t in s.ops && t in s'.ops && s'.ops[t] == s.ops[t]
  }

  /** A step that neither issues a call nor ends a possession. */
  lemma StaysLiveOtherwise(s: LockSys, step: LockStep, t: CallId)
    requires LockEnabled(s, step) && Live(s, t) && t in s.ops
    requires !step.CallAcquire? && !step.CallRelease? && !step.HandlerReleases?
    ensures StillLive(s, LockApply(s, step), t)
  {
    hide Apply, Enabled, Patient, M.Enter, M.Resume, M.Wake, ReadLockArgs;
  }

  lemma StaysLiveOnRelease(s: LockSys, call: CallId, wake: Option<M.Worker>, t: CallId)
    requires LockEnabled(s, HandlerReleases(call, wake)) && Live(s, t) && t in s.ops
    requires !IsOwnRelease(s, HandlerReleases(call, wake), t)
    ensures StillLive(s, LockApply(s, HandlerReleases(call, wake)), t)
  {
    hide M.Release, M.MayWake, ReadLockArgs;
  }

  ghost predicate NextCallsAreNew(s: LockSys) {
    forall c: nat :: c in s.rpc.clients ==> (c, s.rpc.clients[c].nextXid) !in s.ops
  }

  lemma StaysLiveOnCall(s: LockSys, step: LockStep, t: CallId)
    requires LockEnabled(s, step) && Live(s, t) && t in s.ops
    requires step.CallAcquire? || step.CallRelease?
    requires NextCallsAreNew(s)
    ensures StillLive(s, LockApply(s, step), t)
  {
    hide Apply, LockArgs;
    assert step.clt in s.rpc.clients;
  }

  lemma StaysLive(s: LockSys, step: LockStep, t: CallId)
    requires NextCallsAreNew(s) && t in s.ops
    requires LockEnabled(s, step) && Live(s, t) && !IsOwnRelease(s, step, t)
    ensures StillLive(s, LockApply(s, step), t)
  {
    hide LockEnabled, LockApply, Live, IsOwnRelease, StillLive, NextCallsAreNew;
    match step
    case CallAcquire(_, _) => StaysLiveOnCall(s, step, t);
    case CallRelease(_, _) => StaysLiveOnCall(s, step, t);
    case HandlerReleases(call, wake) => StaysLiveOnRelease(s, call, wake, t);
    case _ => StaysLiveOtherwise(s, step, t);
  }

  lemma NextCallIsNew(s: LockSys, c: nat)
    requires LockInv(s) && c in s.rpc.clients
    ensures (c, s.rpc.clients[c].nextXid) !in s.ops
  {
    hide M.MonitorInv, PhasesOk, TokensOk, HolderOk, Untroubled, ServerInv, StampsOk, RequestsOk, RepliesOk, AllResultsOk;
    hide MarksOk, HaltOk, ClientsOk, RunsOk;
    NextIsFresh(s.rpc, c);
    var call := (c, s.rpc.clients[c].nextXid);
    assert call in s.ops ==> OpOk(s, call);
  }

  /** The acquire calls that have had no answer yet. */
  function UnansweredAcquires(s: LockSys): set<CallId> {
    set c, x | c in s.rpc.clients && x in s.rpc.clients[c].calls && Unfinished(s.rpc.clients[c], x)
               && Known(s.rpc, c, x) && Issued(s.rpc, c, x).proc == ACQUIRE :: (c, x)
  }

  /** The worker threads inside acquire's wait. */
  function BlockedWorkers(s: LockSys): set<CallId> {
    s.mon.waiting.Keys + s.mon.woken.Keys
  }

  /** Retransmissions take up no workers: at any time the blocked workers serve different calls, all of them acquires
      that are still unanswered. */
  lemma BlockedWorkersAreUnanswered(states: seq<LockSys>, steps: seq<LockStep>, k: nat)
    requires LockBehaviour(states, steps) && k < |states|
    ensures BlockedWorkers(states[k]) <= UnansweredAcquires(states[k])
    ensures |BlockedWorkers(states[k])| <= |UnansweredAcquires(states[k])|
  {
    LockBehaviourInv(states, steps, k);
    forall w | w in BlockedWorkers(states[k]) ensures w in UnansweredAcquires(states[k]) {
      BlockedIsUnanswered(states[k], w);
    }
    SubsetSize(BlockedWorkers(states[k]), UnansweredAcquires(states[k]));
  }

  lemma SubsetSize<T>(a: set<T>, b: set<T>)
    requires a <= b
    ensures |a| <= |b|
  {
    assert b == a + (b - a);
  }

  lemma BlockedIsRunning(s: LockSys, w: CallId)
    requires OpsOk(s) && PhasesOk(s) && w in BlockedWorkers(s)
    ensures Known(s.rpc, w.0, w.1) && Issued(s.rpc, w.0, w.1).proc == ACQUIRE && Running(s.rpc.server, w.0, w.1)
  {
    assert exists want :: WaiterOk(s, w, want) by {
      if w in s.mon.waiting { assert WaiterOk(s, w, s.mon.waiting[w]); }
      else { assert WaiterOk(s, w, s.mon.woken[w]); }
    }
    assert PhaseOk(s, w) && OpOk(s, w);
  }

  lemma RunningIsUnfinished(r: System, c: nat, x: nat)
    requires Inv(r) && Untroubled(r) && Running(r.server, c, x)
    ensures c in r.clients && Unfinished(r.clients[c], x)
  {
    assert RunOk(r, r.server.nonce, c, x) && ClientInv(c, r.clients[c]) && Content(r.clients[c]);
    hide ClientInv, ClientsOk, StampsOk, RequestsOk, MarksOk, HaltOk;
    assert !GaveUp(r.clients[c], x);
    if !Unfinished(r.clients[c], x) {
      AnsweredElsewhere(r, c, x);
      assert false;
    }
  }

  lemma BlockedIsUnanswered(s: LockSys, w: CallId)
    requires LockInv(s) && w in BlockedWorkers(s)
    ensures w in UnansweredAcquires(s)
  {
    hide Inv, Untroubled, OpsOk, PhasesOk, TokensOk, HolderOk, M.MonitorInv;
    BlockedIsRunning(s, w);
    RunningIsUnfinished(s.rpc, w.0, w.1);
  }

  /** Over the whole stack the lock server's monitor keeps its promises, and the RPC server does not abort. */
  lemma ServerStaysUp(states: seq<LockSys>, steps: seq<LockStep>, k: nat)
    requires LockBehaviour(states, steps) && k < |states|
    ensures M.MonitorInv(states[k].mon) && !states[k].rpc.server.halted
  {
    LockBehaviourInv(states, steps, k);
    UntroubledDoesNotHalt(states[k].rpc);
  }

  lemma UntroubledDoesNotHalt(r: System)
    requires Inv(r) && Untroubled(r)
    ensures !r.server.halted
  {
    forall c: nat, x: nat | Known(r, c, x) ensures !Excused(r, c, x) {
      assert Content(r.clients[c]);
    }
  }
}
