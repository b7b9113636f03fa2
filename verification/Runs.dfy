/** Runs of the whole protocol with one client, put together step by step. */
module Runs {
  import opened Common
  import opened ReplyWindow
  import opened ServerMachine
  import opened RpcClient
  import opened RpcMachine

  /** What is kept out of a run. */
  datatype Ban = Restarts | GivingUp

  predicate Allowed(ban: Ban, step: Step) {
    match ban
    case Restarts => !step.Reboot? && !step.Cancel?
    case GivingUp => !step.EndCall? && !step.Cancel?
  }

  datatype Run = Run(states: seq<System>, steps: seq<Step>)

  /** Client 7 alone with the network and the server. */
  datatype View = View(cl: Client, requests: set<Request>, replies: set<Message>, sv: Server)

  function Alone(v: View): System {
    System(map[7 := v.cl], v.requests, v.replies, v.sv)
  }

  ghost predicate RunTo(r: Run, s: System, ban: Ban) {
    && Behaviour(r.states, r.steps) && r.states[|r.steps|] == s
    && forall i :: 0 <= i < |r.steps| ==> Allowed(ban, r.steps[i])
  }

  lemma IsRun(r: Run, v: View, ban: Ban)
    requires RunTo(r, Alone(v), ban)
    ensures Behaviour(r.states, r.steps) && r.states[|r.steps|].server == v.sv
    ensures forall i :: 0 <= i < |r.steps| ==> Allowed(ban, r.steps[i])
  {
  }

  lemma Extend(r: Run, s: System, ban: Ban, step: Step) returns (r': Run)
    requires RunTo(r, s, ban) && Enabled(s, step) && Allowed(ban, step)
    ensures RunTo(r', Apply(s, step), ban)
  {
    r' := Run(r.states + [Apply(s, step)], r.steps + [step]);
    hide Enabled, Apply;
    forall i | 0 <= i < |r'.steps|
      ensures Enabled(r'.states[i], r'.steps[i]) && r'.states[i + 1] == Apply(r'.states[i], r'.steps[i])
    {
      if i < |r.steps| { assert r'.states[i + 1] == r.states[i + 1]; }
    }
  }

  lemma Starts7(ban: Ban) returns (r: Run)
    ensures RunTo(r, Alone(View(FRESH_CLIENT, {}, {}, FreshServer(5))), ban)
  {
    r := Extend(Run([Start(5)], []), Start(5), ban, NewClient(7));
  }

  lemma SetsAlone(v: View, cl: Client)
    ensures Alone(v).(clients := Alone(v).clients[7 := cl]) == Alone(v.(cl := cl))
  {
    assert map[7 := v.cl][7 := cl] == map[7 := cl];
  }

  lemma Invokes(r: Run, v: View, ban: Ban) returns (r': Run)
    requires RunTo(r, Alone(v), ban) && v.cl.window != [] && Refusal(v.cl, BIND) == 0
    ensures RunTo(r', Alone(v.(cl := Begin(v.cl, 7, BIND, []))), ban)
  {
    hide RunTo;
    SetsAlone(v, Begin(v.cl, 7, BIND, []));
    r' := Extend(r, Alone(v), ban, Invoke(7, BIND, []));
  }

  lemma Transmits(r: Run, v: View, ban: Ban, x: nat) returns (r': Run)
    requires RunTo(r, Alone(v), ban) && x in v.cl.issued && x in v.cl.calls
    ensures RunTo(r', Alone(v.(requests := v.requests + {v.cl.issued[x]})), ban)
  {
    hide RunTo;
    r' := Extend(r, Alone(v), ban, Transmit(7, x));
  }

  lemma Ends(r: Run, v: View, ban: Ban, x: nat) returns (r': Run)
    requires RunTo(r, Alone(v), ban) && v.cl.window != [] && x in v.cl.calls && ban.Restarts?
    ensures RunTo(r', Alone(v.(cl := End(v.cl, x))), ban)
  {
    hide RunTo;
    SetsAlone(v, End(v.cl, x));
    r' := Extend(r, Alone(v), ban, EndCall(7, x));
  }

  lemma Receives(r: Run, v: View, ban: Ban, req: Request) returns (r': Run)
    requires RunTo(r, Alone(v), ban)
    requires req in v.requests && !v.sv.halted && req.clt != 0 && ImmediateReplies(v.sv, req) == {}
    ensures RunTo(r', Alone(v.(sv := Accept(v.sv, req))), ban)
  {
    hide RunTo, ImmediateReplies, Accept;
    assert v.replies + {} == v.replies;
    r' := Extend(r, Alone(v), ban, Receive(req));
  }

  /** The handler of a bind returns the nonce of its instance. */
  lemma Returns(r: Run, v: View, ban: Ban, x: nat) returns (r': Run)
    requires RunTo(r, Alone(v), ban)
    requires x in v.cl.issued && v.cl.issued[x].proc == BIND && v.sv.nonce < TWO_TO_THE_32
    requires !v.sv.halted && Running(v.sv, 7, x)
    ensures var reply := Reply(0, Be32(v.sv.nonce)); var sv := Answered(v.sv, 7, x, reply);
      RunTo(r', Alone(v.(sv := sv, replies := if sv.halted then v.replies else v.replies + {Message(7, x, reply)})), ban)
  {
    hide RunTo, Answered, Be32;
    r' := Extend(r, Alone(v), ban, Return(7, x, Reply(0, Be32(v.sv.nonce))));
  }

  lemma Delivers(r: Run, v: View, ban: Ban, m: Message) returns (r': Run)
    requires RunTo(r, Alone(v), ban) && m in v.replies && m.clt == 7 && v.cl.window != []
    ensures RunTo(r', Alone(v.(cl := GotPdu(v.cl, m.xid, m.reply))), ban)
  {
    hide RunTo, GotPdu;
    SetsAlone(v, GotPdu(v.cl, m.xid, m.reply));
    r' := Extend(r, Alone(v), ban, Deliver(m));
  }

  lemma Reboots(r: Run, v: View, ban: Ban, nonce: uint32) returns (r': Run)
    requires RunTo(r, Alone(v), ban) && nonce != 0 && nonce !in v.sv.used && ban.GivingUp?
    ensures RunTo(r', Alone(v.(sv := After(v.sv, Restart(nonce)))), ban)
  {
    hide RunTo;
    r' := Extend(r, Alone(v), ban, Reboot(nonce));
  }
}
