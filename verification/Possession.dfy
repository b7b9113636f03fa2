/** What a caller of acquire may rely on: from the return with OK until it calls release itself, the lock is its own.
    */
module Possession {
  import opened Common
  import FinishedWindow
  import opened ServerMachine
  import opened RpcClient
  import opened RpcMachine
  import opened RpcInvariant
  import opened RpcTheorems
  import opened CallLife
  import opened LockSystem
  import opened LockSafety
  import opened LockTheorems
  import M = LockServer

  /** This acquire has returned OK. */
  ghost predicate GotIt(s: LockSys, t: CallId) {
    && t in s.ops && s.ops[t].Acquire?
    && Over(s.rpc, t.0, t.1) && s.rpc.clients[t.0].outcomes[t.1].ret == 0
  }

  /** Its thread has called release for it. */
  ghost predicate GaveBack(s: LockSys, t: CallId) {
    exists r :: r in s.ops && s.ops[r].Release? && r.0 == t.0 && s.ops[r].token == t.1
  }

  /** A returned acquire is no longer asked for, or merely granted. */
  ghost predicate ReturnedOk(s: LockSys, t: CallId) {
    GotIt(s, t) ==> t in s.tokens && !s.tokens[t].Wanted? && !s.tokens[t].Granted?
  }

  /** Only a release of its own takes it further. */
  ghost predicate GivenBackOk(s: LockSys, t: CallId) {
    t in s.tokens && (s.tokens[t].Releasing? || s.tokens[t].Freed?) ==> GaveBack(s, t)
  }

  lemma OutcomeStays(r: System, step: RpcMachine.Step, c: nat, x: nat)
    requires Enabled(r, step) && (c in r.clients ==> ClientInv(c, r.clients[c])) && Over(Apply(r, step), c, x)
    ensures || (Over(r, c, x) && Apply(r, step).clients[c].outcomes[x] == r.clients[c].outcomes[x])
            || (step == EndCall(c, x) && Apply(r, step).clients[c].outcomes[x] == ResultOf(r.clients[c].calls[x]))
  {
    if Concerns(step, c) {
      hide FinishedWindow.Report, FinishedWindow.Compressed, FinishedWindow.Finished;
    } else {
      Unconcerned(r, step, c);
      hide Apply, Enabled;
    }
  }

  /** Calls stay what they are. */
  lemma OpsStay(s: LockSys, step: LockStep, t: CallId)
    requires LockEnabled(s, step) && NextCallsAreNew(s) && t in s.ops
    ensures t in LockApply(s, step).ops && LockApply(s, step).ops[t] == s.ops[t]
  {
    if step.CallAcquire? || step.CallRelease? { assert step.clt in s.rpc.clients; }
    hide Apply, Patient, ReadLockArgs, LockArgs, M.Enter, M.Resume, M.Release, M.Wake, M.MayWake;
  }

  lemma GaveBackStays(s: LockSys, step: LockStep, t: CallId)
    requires LockEnabled(s, step) && NextCallsAreNew(s) && GaveBack(s, t)
    ensures GaveBack(LockApply(s, step), t)
  {
    var r :| r in s.ops && s.ops[r].Release? && r.0 == t.0 && s.ops[r].token == t.1;
    OpsStay(s, step, r);
    hide LockEnabled, LockApply;
  }

  /** New calls have not returned. */
  lemma NewOpsAreOpen(s: LockSys, step: LockStep, t: CallId)
    requires LockEnabled(s, step) && t in LockApply(s, step).ops && t !in s.ops
    requires t.0 in s.rpc.clients ==> ClientInv(t.0, s.rpc.clients[t.0])
    ensures !Over(s.rpc, t.0, t.1) && !step.Protocol?
  {
    hide Apply, Patient, ReadLockArgs, LockArgs, M.Enter, M.Resume, M.Release, M.Wake, M.MayWake;
  }

  /** An acquire has returned OK if it had before, or returns OK now. */
  lemma GotItNow(s: LockSys, step: LockStep, t: CallId)
    requires LockEnabled(s, step) && NextCallsAreNew(s) && GotIt(LockApply(s, step), t)
    requires t.0 in s.rpc.clients ==> ClientInv(t.0, s.rpc.clients[t.0])
    ensures GotIt(s, t) || (step == Protocol(EndCall(t.0, t.1)) && t in s.ops && s.ops[t].Acquire?
                            && Outstanding(s.rpc, t.0, t.1) && ResultOf(s.rpc.clients[t.0].calls[t.1]).ret == 0)
  {
    OnlyProtocolChanges(s, step);
    if t in s.ops { OpsStay(s, step, t); } else { NewOpsAreOpen(s, step, t); }
    var inner := ProtocolStep(s, step);
    if inner.Some? {
      OutcomeStays(s.rpc, inner.value, t.0, t.1);
      EndsOutstanding(s.rpc, inner.value, t.0, t.1);
      assert inner.value == EndCall(t.0, t.1) ==> step == Protocol(inner.value);
    }
    hide LockEnabled, LockApply, Enabled, Apply, ClientInv, ResultOf;
  }

  lemma EndsOutstanding(r: System, step: RpcMachine.Step, c: nat, x: nat)
    requires Enabled(r, step)
    ensures step == EndCall(c, x) ==> Outstanding(r, c, x)
  {
  }

  /** How a step moves one token. */
  lemma TokenMoves(s: LockSys, step: LockStep, t: CallId)
    requires LockEnabled(s, step) && NextCallsAreNew(s)
    ensures var s' := LockApply(s, step);
      || ((t in s'.tokens <==> t in s.tokens) && (t in s.tokens ==> s'.tokens[t] == s.tokens[t]))
      || (step.Protocol? && t in s'.tokens && s'.tokens[t].Held?)
      || (step.CallAcquire? && t !in s.ops && t in s'.tokens && s'.tokens[t].Wanted?)
      || (step.CallRelease? && t in s'.tokens && s'.tokens[t].Releasing? && GaveBack(s', t))
      || ((step.HandlerAcquires? || step.HandlerResumes?) && t == step.call && t in s'.tokens && s'.tokens[t].Granted?)
      || (step.HandlerReleases? && t in s'.tokens && s'.tokens[t].Freed? && GaveBack(s', t))
  {
    var s' := LockApply(s, step);
    if step.CallRelease? {
      var r := (step.clt, s.rpc.clients[step.clt].nextXid);
      assert r in s'.ops && s'.ops[r] == Release(s.ops[(step.clt, step.token)].lid, step.token);
    }
    hide Apply, Patient, ReadLockArgs, LockArgs, M.Enter, M.Resume, M.Release, M.Wake, M.MayWake;
  }

  /** A handler of acquire that comes to its grant serves a call that is still asked for. */
  lemma GrantsWanted(s: LockSys, step: LockStep)
    requires OpsOk(s) && PhasesOk(s) && TokensOk(s) && LockEnabled(s, step)
    requires (step.HandlerAcquires? || step.HandlerResumes?)
    ensures step.call in s.tokens && s.tokens[step.call].Wanted?
  {
    var call := step.call;
    if step.HandlerResumes? {
      assert WaiterOk(s, call, s.mon.woken[call]);
    }
    assert PhaseOk(s, call) && OpOk(s, call);
    assert TokenOk(s, call);
    hide ReadLockArgs, LockArgs;
  }

  lemma NotTwiceGranted(s: LockSys, step: LockStep, t: CallId)
    requires OpsOk(s) && PhasesOk(s) && TokensOk(s) && LockEnabled(s, step) && ReturnedOk(s, t)
    requires step.HandlerAcquires? || step.HandlerResumes?
    ensures GotIt(s, t) ==> t != step.call
  {
    GrantsWanted(s, step);
    hide OpsOk, PhasesOk, TokensOk, LockEnabled, GotIt;
  }

  lemma StaysGivenBack(s: LockSys, step: LockStep, t: CallId)
    requires LockEnabled(s, step) && NextCallsAreNew(s) && GivenBackOk(s, t)
    ensures GivenBackOk(LockApply(s, step), t)
  {
    hide LockEnabled, LockApply, GaveBack, NextCallsAreNew;
    TokenMoves(s, step, t);
    if GaveBack(s, t) { GaveBackStays(s, step, t); }
  }

  /** What it was taken for before the step, it is not asked for or merely granted after it. */
  lemma MovesOn(s: LockSys, step: LockStep, t: CallId)
    requires OpsOk(s) && PhasesOk(s) && TokensOk(s) && LockEnabled(s, step) && NextCallsAreNew(s)
    requires GotIt(s, t) && ReturnedOk(s, t)
    ensures ReturnedOk(LockApply(s, step), t)
  {
    hide LockEnabled, LockApply, NextCallsAreNew, OpsOk, PhasesOk, TokensOk, GotIt, GaveBack;
    GotItIsOld(s, t);
    TokenMoves(s, step, t);
    if step.HandlerAcquires? || step.HandlerResumes? { NotTwiceGranted(s, step, t); }
  }

  lemma JustReturned(s: LockSys, step: LockStep, t: CallId)
    requires LockEnabled(s, step) && step == Protocol(EndCall(t.0, t.1)) && t in s.ops && s.ops[t].Acquire?
    requires Outstanding(s.rpc, t.0, t.1) && ResultOf(s.rpc.clients[t.0].calls[t.1]).ret == 0
    ensures ReturnedOk(LockApply(s, step), t)
  {
    ReturnsHeld(s, t);
    hide LockEnabled, LockApply, GotIt, Outstanding, ResultOf;
  }

  lemma ClientOf(s: System, c: nat)
    requires ClientsOk(s)
    ensures c in s.clients ==> ClientInv(c, s.clients[c])
  {
  }

  lemma StaysReturned(s: LockSys, step: LockStep, t: CallId)
    requires ClientsOk(s.rpc) && OpsOk(s) && PhasesOk(s) && TokensOk(s)
    requires LockEnabled(s, step) && NextCallsAreNew(s) && ReturnedOk(s, t)
    ensures ReturnedOk(LockApply(s, step), t)
  {
    hide LockEnabled, LockApply, NextCallsAreNew, OpsOk, PhasesOk, TokensOk, ClientInv, ClientsOk, Outstanding, ResultOf;
    ClientOf(s.rpc, t.0);
    if GotIt(s, t) {
      MovesOn(s, step, t);
    } else if GotIt(LockApply(s, step), t) {
      GotItNow(s, step, t);
      JustReturned(s, step, t);
    }
  }

  lemma GotItIsOld(s: LockSys, t: CallId)
    requires GotIt(s, t)
    ensures t in s.ops
  {
  }

  /** The return of an acquire with OK makes it held. */
  lemma ReturnsHeld(s: LockSys, t: CallId)
    requires LockEnabled(s, Protocol(EndCall(t.0, t.1))) && t in s.ops && s.ops[t].Acquire?
    requires Outstanding(s.rpc, t.0, t.1) && ResultOf(s.rpc.clients[t.0].calls[t.1]).ret == 0
    ensures t in LockApply(s, Protocol(EndCall(t.0, t.1))).tokens
    ensures LockApply(s, Protocol(EndCall(t.0, t.1))).tokens[t].Held?
  {
    hide Apply, ResultOf;
  }

  lemma LockParts(s: LockSys)
    requires LockInv(s)
    ensures ClientsOk(s.rpc) && OpsOk(s) && PhasesOk(s) && TokensOk(s) && NextCallsAreNew(s)
  {
    forall c: nat | c in s.rpc.clients ensures (c, s.rpc.clients[c].nextXid) !in s.ops {
      NextCallIsNew(s, c);
    }
    hide ServerInv, ClientsOk, OpsOk, PhasesOk, TokensOk, HolderOk, Untroubled, M.MonitorInv, StampsOk, RequestsOk;
    hide RepliesOk, AllResultsOk, RunsOk, MarksOk, HaltOk;
  }

  lemma {:induction false} PossessionsAreOk(states: seq<LockSys>, steps: seq<LockStep>, k: nat, t: CallId)
    requires LockBehaviour(states, steps) && k < |states|
    ensures ReturnedOk(states[k], t) && GivenBackOk(states[k], t)
  {
    hide LockInv, LockEnabled, LockApply, ReturnedOk, GivenBackOk, LockStart;
    if k == 0 {
      NothingYet(states[0], t);
    } else {
      PossessionsAreOk(states, steps, k - 1, t);
      LockBehaviourInv(states, steps, k - 1);
      PossessionsStayOk(states[k - 1], steps[k - 1], t);
    }
  }

  lemma NothingYet(s: LockSys, t: CallId)
    requires s == LockStart(s.rpc.server.nonce)
    ensures ReturnedOk(s, t) && GivenBackOk(s, t)
  {
  }

  lemma PossessionsStayOk(s: LockSys, step: LockStep, t: CallId)
    requires LockInv(s) && LockEnabled(s, step) && ReturnedOk(s, t) && GivenBackOk(s, t)
    ensures ReturnedOk(LockApply(s, step), t) && GivenBackOk(LockApply(s, step), t)
  {
    hide LockInv, LockEnabled, LockApply, OpsOk, PhasesOk, TokensOk, ClientsOk, NextCallsAreNew, ReturnedOk, GivenBackOk;
    LockParts(s);
    StaysReturned(s, step, t);
    StaysGivenBack(s, step, t);
  }

  /** In every state: an acquire that has returned OK, and for which its thread has not called release, possesses its
      lock. The server has it LOCKED for that client, and no other call has it. */
  lemma WhoeverGotItHasIt(states: seq<LockSys>, steps: seq<LockStep>, k: nat, t: CallId)
    requires LockBehaviour(states, steps) && k < |states| && GotIt(states[k], t) && !GaveBack(states[k], t)
    ensures var s := states[k];
      && Live(s, t) && s.tokens[t].Held?
      && M.IsLocked(s.mon, s.ops[t].lid) && s.mon.locks[s.ops[t].lid].owner == t.0
      && forall u :: u in s.ops && Live(s, u) && s.ops[u].lid == s.ops[t].lid ==> u == t
  {
    PossessionsAreOk(states, steps, k, t);
    Exclusion(states, steps, k);
    hide LockBehaviour, GaveBack;
  }
}
