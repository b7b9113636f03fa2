/** The life of a call at its client, told from the steps that were taken: what it was issued with, what it is given
    to return, and what the client knows to be finished. */
module CallLife {
  import opened Common
  import opened FinishedWindow
  import opened ReplyWindow
  import opened ServerMachine
  import opened RpcClient
  import opened RpcMachine
  import opened RpcInvariant

  const CANCELLED := Reply(CANCEL_FAILURE, [])
  const TIMED_OUT := Reply(TIMEOUT_FAILURE, [])

  /** The steps that touch this client. */
  predicate Concerns(step: Step, c: nat) {
    match step
    case Invoke(clt, proc, args) => clt == c
    case Deliver(msg) => msg.clt == c
    case EndCall(clt, xid) => clt == c
    case BindDone(clt, xid) => clt == c
    case Cancel(clt) => clt == c
    case NewClient(clt) => clt == c
    case _ => false
  }

  lemma Unconcerned(s: System, step: Step, c: nat)
    requires Enabled(s, step) && !Concerns(step, c)
    ensures c in Apply(s, step).clients <==> c in s.clients
    ensures c in s.clients ==> Apply(s, step).clients[c] == s.clients[c]
  {
    hide Begin, GotPdu, End, CancelAll, Bound, Accept, Answered, ImmediateReplies;
  }

  lemma StaysKnown(s: System, step: Step, c: nat)
    requires Enabled(s, step) && c in s.clients
    ensures c in Apply(s, step).clients
  {
    hide Begin, GotPdu, End, CancelAll, Bound, Accept, Answered, ImmediateReplies;
  }

  lemma ClientIsOk(states: seq<System>, steps: seq<Step>, k: nat, c: nat)
    requires Behaviour(states, steps) && k < |states| && c in states[k].clients
    ensures ClientInv(c, states[k].clients[c])
  {
    BehaviourInv(states, steps, k);
    hide ClientInv, ServerInv, StampsOk, RequestsOk, RepliesOk, AllResultsOk, RunsOk, MarksOk, HaltOk;
  }

  // --- what a call is given ---

  /** Issued, and not yet returned. */
  predicate Outstanding(s: System, c: nat, x: nat) {
    c in s.clients && x in s.clients[c].calls
  }

  predicate Over(s: System, c: nat, x: nat) {
    c in s.clients && x in s.clients[c].outcomes
  }

  /** What the call has been given to return, or has returned. */
  function Given(s: System, c: nat, x: nat): Option<Reply> {
    if Outstanding(s, c, x) then
      if s.clients[c].calls[x].done then Some(s.clients[c].calls[x].result) else None
    else if Over(s, c, x) then Some(s.clients[c].outcomes[x])
    else None
  }

  /** What a step tells an outstanding call: a reply counts if it is the first, a cancel always, and the end of the
      call without either is a timeout. */
  function Hears(given: Option<Reply>, step: Step, c: nat, x: nat): Option<Reply> {
    match step
    case Cancel(clt) => if clt == c then Some(CANCELLED) else given
    case Deliver(msg) => if msg.clt == c && msg.xid == x && given.None? then Some(msg.reply) else given
    case EndCall(clt, xid) => if clt == c && xid == x && given.None? then Some(TIMED_OUT) else given
    case _ => given
  }

  /** What the steps have told the call while it was outstanding. */
  ghost function Told(states: seq<System>, steps: seq<Step>, c: nat, x: nat): Option<Reply>
    requires |states| == |steps| + 1
  {
    if steps == [] then None
    else
      var n := |steps| - 1;
      var before := Told(states[..n + 1], steps[..n], c, x);
      if Outstanding(states[n], c, x) then Hears(before, steps[n], c, x) else before
  }

  lemma TellsOne(s: System, step: Step, c: nat, x: nat)
    requires Enabled(s, step) && (c in s.clients ==> ClientInv(c, s.clients[c]))
    ensures Given(Apply(s, step), c, x) ==
            if Outstanding(s, c, x) then Hears(Given(s, c, x), step, c, x) else Given(s, c, x)
  {
    if Concerns(step, c) {
      hide Report, Compressed, Finished;
    } else {
      Unconcerned(s, step, c);
      hide Apply, Enabled;
    }
  }

  lemma ToldOneMore(states: seq<System>, steps: seq<Step>, k: nat, c: nat, x: nat)
    requires |states| == |steps| + 1 && 0 < k <= |steps|
    ensures Told(states[..k + 1], steps[..k], c, x) ==
      var before := Told(states[..k], steps[..k - 1], c, x);
      if Outstanding(states[k - 1], c, x) then Hears(before, steps[k - 1], c, x) else before
  {
    assert states[..k + 1][..k] == states[..k] && steps[..k][..k - 1] == steps[..k - 1];
  }

  /** In every state, what a call has been given, and what it has returned, is what the steps have told it. */
  lemma {:induction false} CallsReturnWhatTheyAreTold(states: seq<System>, steps: seq<Step>, k: nat, c: nat, x: nat)
    requires Behaviour(states, steps) && k < |states|
    ensures Given(states[k], c, x) == Told(states[..k + 1], steps[..k], c, x)
  {
    if k > 0 {
      CallsReturnWhatTheyAreTold(states, steps, k - 1, c, x);
      if c in states[k - 1].clients {
        ClientIsOk(states, steps, k - 1, c);
      }
      TellsOne(states[k - 1], steps[k - 1], c, x);
      ToldOneMore(states, steps, k, c, x);
    }
    hide Told, Given, Hears, Apply, Enabled, ClientInv;
  }

  lemma CancelTellsAll(s: System, c: nat)
    requires Enabled(s, Cancel(c))
    ensures forall x :: Outstanding(s, c, x) ==> Given(Apply(s, Cancel(c)), c, x) == Some(CANCELLED)
    ensures forall x: nat :: !Unfinished(Apply(s, Cancel(c)).clients[c], x)
  {
  }

  lemma StaysCancelled(s: System, step: Step, c: nat, x: nat)
    requires Enabled(s, step) && (c in s.clients ==> ClientInv(c, s.clients[c])) && Given(s, c, x) == Some(CANCELLED)
    ensures Given(Apply(s, step), c, x) == Some(CANCELLED)
  {
    TellsOne(s, step, c, x);
    hide Given, Apply, Enabled, ClientInv;
  }

  /** cancel reaches every call: after it no call of the client is unfinished, and each that was outstanding is from
      then on done with cancel_failure, or has returned it, whatever replies still come in. */
  lemma {:induction false} CancelReachesEveryCall(states: seq<System>, steps: seq<Step>, i: nat, k: nat, c: nat, x: nat)
    requires Behaviour(states, steps) && i < k <= |steps| && steps[i] == Cancel(c)
    ensures c in states[i + 1].clients && !Unfinished(states[i + 1].clients[c], x)
    ensures c in states[i].clients && c in states[k].clients
    ensures x in states[i].clients[c].calls ==>
              || (x in states[k].clients[c].calls && states[k].clients[c].calls[x] == Call(true, CANCELLED))
              || (x in states[k].clients[c].outcomes && states[k].clients[c].outcomes[x] == CANCELLED)
  {
    assert Enabled(states[i], Cancel(c)) && states[i + 1] == Apply(states[i], Cancel(c));
    CancelTellsAll(states[i], c);
    hide Apply, Enabled;
    if k > i + 1 {
      CancelReachesEveryCall(states, steps, i, k - 1, c, x);
      StaysKnown(states[k - 1], steps[k - 1], c);
      ClientIsOk(states, steps, k - 1, c);
      if x in states[i].clients[c].calls {
        StaysCancelled(states[k - 1], steps[k - 1], c, x);
      }
      hide ClientInv;
    }
  }

  // --- what it was issued with ---

  /** This step issues call x of client c. */
  predicate Issues(s: System, step: Step, c: nat, x: nat) {
    step.Invoke? && step.clt == c && c in s.clients && s.clients[c].nextXid == x && s.clients[c].window != []
  }

  /** The request it makes: with the arguments it was given, and what the client knows at that time. */
  function RequestMade(s: System, step: Step, c: nat, x: nat): Request
    requires Issues(s, step, c, x)
  {
    Request(c, x, step.proc, s.clients[c].srvNonce, s.clients[c].window[0], step.args)
  }

  lemma IssuesOne(s: System, step: Step, c: nat, x: nat)
    requires Enabled(s, step) && (c in s.clients ==> ClientInv(c, s.clients[c]))
    ensures Known(Apply(s, step), c, x) <==> Known(s, c, x) || Issues(s, step, c, x)
    ensures Known(s, c, x) ==> !Issues(s, step, c, x) && Issued(Apply(s, step), c, x) == Issued(s, c, x)
    ensures Issues(s, step, c, x) ==> Issued(Apply(s, step), c, x) == RequestMade(s, step, c, x)
  {
    if Concerns(step, c) {
      hide Report, Compressed, Finished;
    } else {
      Unconcerned(s, step, c);
      hide Apply, Enabled;
    }
  }

  lemma IssuesAt(states: seq<System>, steps: seq<Step>, k: nat, c: nat, x: nat)
    requires Behaviour(states, steps) && k < |steps|
    ensures Known(states[k + 1], c, x) <==> Known(states[k], c, x) || Issues(states[k], steps[k], c, x)
    ensures Known(states[k], c, x) ==>
              !Issues(states[k], steps[k], c, x) && Issued(states[k + 1], c, x) == Issued(states[k], c, x)
    ensures Issues(states[k], steps[k], c, x) ==> Issued(states[k + 1], c, x) == RequestMade(states[k], steps[k], c, x)
  {
    if c in states[k].clients {
      ClientIsOk(states, steps, k, c);
    }
    IssuesOne(states[k], steps[k], c, x);
    hide Apply, Enabled, ClientInv, Known, Issues;
  }

  lemma {:induction false} IssuedOnce(states: seq<System>, steps: seq<Step>, j: nat, k: nat, c: nat, x: nat)
    requires Behaviour(states, steps) && j < k < |states| && Issues(states[j], steps[j], c, x)
    ensures Known(states[k], c, x) && Issued(states[k], c, x) == RequestMade(states[j], steps[j], c, x)
    ensures k < |steps| ==> !Issues(states[k], steps[k], c, x)
  {
    assert |states| == |steps| + 1;
    hide Behaviour, Known, Issues;
    IssuesAt(states, steps, k - 1, c, x);
    if k > j + 1 {
      IssuedOnce(states, steps, j, k - 1, c, x);
    }
    if k < |steps| {
      IssuesAt(states, steps, k, c, x);
    }
  }

  lemma {:induction false} IssuedSomewhere(states: seq<System>, steps: seq<Step>, k: nat, c: nat, x: nat) returns (j: nat)
    requires Behaviour(states, steps) && k < |states| && Known(states[k], c, x)
    ensures j < k && Issues(states[j], steps[j], c, x)
  {
    assert k > 0 && |states| == |steps| + 1;
    hide Behaviour, Known, Issues;
    IssuesAt(states, steps, k - 1, c, x);
    if Known(states[k - 1], c, x) {
      j := IssuedSomewhere(states, steps, k - 1, c, x);
    } else {
      j := k - 1;
    }
  }

  /** Every run of a handler, on any instance, is for a call that was made exactly once, and it runs with the
      procedure and the arguments that were given there, under the client's xid, stamp and window front of that time.
      */
  lemma RunsAreInvoked(states: seq<System>, steps: seq<Step>, k: nat, e: nat) returns (j: nat)
    requires Behaviour(states, steps) && k < |states| && e < |states[k].server.log|
    ensures var req := states[k].server.log[e].req;
      && j < k && Issues(states[j], steps[j], req.clt, req.xid) && req == RequestMade(states[j], steps[j], req.clt, req.xid)
      && forall i :: 0 <= i < k && Issues(states[i], steps[i], req.clt, req.xid) ==> i == j
  {
    var req := states[k].server.log[e].req;
    BehaviourInv(states, steps, k);
    assert RequestOk(states[k], req);
    hide Inv, Behaviour, Known, Issues;
    j := IssuedSomewhere(states, steps, k, req.clt, req.xid);
    IssuedOnce(states, steps, j, k, req.clt, req.xid);
    forall i | 0 <= i < k && Issues(states[i], steps[i], req.clt, req.xid) ensures i == j {
      if i < j { IssuedOnce(states, steps, i, j, req.clt, req.xid); }
      if j < i { IssuedOnce(states, steps, j, i, req.clt, req.xid); }
    }
  }

  // --- what the client knows ---

  /** The client hears of the end of call x: by a reply, or by ending the call itself. */
  predicate HearsOf(step: Step, c: nat, x: nat) {
    step == EndCall(c, x) || (step.Deliver? && step.msg.clt == c && step.msg.xid == x)
  }

  predicate KnowsFinished(s: System, c: nat, x: nat) {
    c in s.clients && x != 0 && Finished(s.clients[c].window, x)
  }

  predicate IsBound(s: System, c: nat) {
    c in s.clients && s.clients[c].bindDone
  }

  predicate IsClosing(s: System, c: nat) {
    c in s.clients && s.clients[c].destroyWait
  }

  /** A cancel that finds calls outstanding. */
  predicate Closes(s: System, step: Step, c: nat) {
    step == Cancel(c) && c in s.clients && s.clients[c].calls != map[]
  }

  predicate Binds(step: Step, c: nat) {
    step.BindDone? && step.clt == c
  }

  lemma LearnsOne(s: System, step: Step, c: nat, x: nat)
    requires Enabled(s, step) && (c in s.clients ==> ClientInv(c, s.clients[c]))
    ensures KnowsFinished(Apply(s, step), c, x) <==> KnowsFinished(s, c, x) || (x != 0 && HearsOf(step, c, x))
    ensures IsBound(Apply(s, step), c) <==> IsBound(s, c) || Binds(step, c)
    ensures IsClosing(Apply(s, step), c) <==> IsClosing(s, c) || Closes(s, step, c)
    ensures Over(Apply(s, step), c, x) <==> Over(s, c, x) || step == EndCall(c, x)
  {
    if Concerns(step, c) {
      match step
      case Deliver(m) => ReportMeaning(s.clients[c].window, m.xid);
      case EndCall(clt, y) => ReportMeaning(s.clients[c].window, y);
      case _ =>
      hide Report, Compressed;
    } else {
      Unconcerned(s, step, c);
      hide Apply, Enabled;
    }
  }

  ghost predicate HeardOf(steps: seq<Step>, k: nat, c: nat, x: nat)
    requires k <= |steps|
  {
    exists j :: 0 <= j < k && HearsOf(steps[j], c, x)
  }

  ghost predicate HasBound(steps: seq<Step>, k: nat, c: nat)
    requires k <= |steps|
  {
    exists j :: 0 <= j < k && Binds(steps[j], c)
  }

  ghost predicate HasClosed(states: seq<System>, steps: seq<Step>, k: nat, c: nat)
    requires k <= |steps| < |states|
  {
    exists j :: 0 <= j < k && Closes(states[j], steps[j], c)
  }

  lemma OneMore(states: seq<System>, steps: seq<Step>, k: nat, c: nat, x: nat)
    requires 0 < k <= |steps| < |states|
    ensures HeardOf(steps, k, c, x) <==> HeardOf(steps, k - 1, c, x) || HearsOf(steps[k - 1], c, x)
    ensures HasBound(steps, k, c) <==> HasBound(steps, k - 1, c) || Binds(steps[k - 1], c)
    ensures HasClosed(states, steps, k, c) <==>
              HasClosed(states, steps, k - 1, c) || Closes(states[k - 1], steps[k - 1], c)
    ensures EndCall(c, x) in steps[..k] <==> EndCall(c, x) in steps[..k - 1] || steps[k - 1] == EndCall(c, x)
  {
    hide HearsOf, Binds, Closes;
    assert steps[..k] == steps[..k - 1] + [steps[k - 1]];
  }

  /** In every state: the window says finished of exactly those calls of which a reply came in or that were ended
      here; a call has returned exactly if it was ended; the client is bound exactly if a bind was done; and it takes
      no more calls exactly if a cancel has found calls outstanding. */
  lemma {:induction false} ClientsKnowTheirHistory(states: seq<System>, steps: seq<Step>, k: nat, c: nat, x: nat)
    requires Behaviour(states, steps) && k <= |steps| < |states|
    ensures KnowsFinished(states[k], c, x) <==> x != 0 && HeardOf(steps, k, c, x)
    ensures IsBound(states[k], c) <==> HasBound(steps, k, c)
    ensures IsClosing(states[k], c) <==> HasClosed(states, steps, k, c)
    ensures Over(states[k], c, x) <==> EndCall(c, x) in steps[..k]
  {
    if k > 0 {
      hide HeardOf, HasBound, HasClosed;
      hide Apply, Enabled, ClientInv, KnowsFinished, IsBound, IsClosing, Over, HearsOf, Binds, Closes;
      ClientsKnowTheirHistory(states, steps, k - 1, c, x);
      OneMore(states, steps, k, c, x);
      if c in states[k - 1].clients {
        ClientIsOk(states, steps, k - 1, c);
      }
      LearnsOne(states[k - 1], steps[k - 1], c, x);
    }
  }

  /** Which calls go ahead: a bind before the client is bound and any other afterwards, as long as no cancel has found
      calls outstanding; the others are refused, with the code of the first reason. */
  lemma CallsGoAhead(states: seq<System>, steps: seq<Step>, k: nat, c: nat, proc: nat, args: Bytes)
    requires Behaviour(states, steps) && k <= |steps| < |states| && c in states[k].clients
    ensures var bound, closing := HasBound(steps, k, c), HasClosed(states, steps, k, c);
      && (Enabled(states[k], Invoke(c, proc, args)) <==> (proc == BIND <==> !bound) && !closing)
      && Refusal(states[k].clients[c], proc) ==
           if proc == BIND <==> bound then BIND_FAILURE else if closing then CANCEL_FAILURE else 0
  {
    ClientsKnowTheirHistory(states, steps, k, c, 0);
    ClientIsOk(states, steps, k, c);
    hide Behaviour, HasClosed, HasBound;
  }

  /** A bind that is done has given the client the nonce of an instance that ran it. */
  lemma BoundToItsServer(states: seq<System>, steps: seq<Step>, k: nat, c: nat, x: nat) returns (n: nat)
    requires Behaviour(states, steps) && k < |steps| && steps[k] == BindDone(c, x)
    ensures c in states[k + 1].clients && states[k + 1].clients[c].srvNonce == n && n in states[k].server.used
    ensures ExecutionKey(n, c, x) in states[k].server.completed
    ensures states[k].server.completed[ExecutionKey(n, c, x)] == states[k].clients[c].outcomes[x]
  {
    var s := states[k];
    BehaviourInv(states, steps, k);
    ClientIsOk(states, steps, k, c);
    ServerParts(s.server);
    var m := Message(c, x, s.clients[c].outcomes[x]);
    assert ResultsOk(c, s.clients[c], s.replies);
    assert x !in s.clients[c].calls && !GaveUp(s.clients[c], x);
    n := HandlerReply(s, m);
    Be32Decodes(n);
    hide ServerInv, ClientsOk, StampsOk, RequestsOk, RepliesOk, MarksOk, HaltOk, ClientInv, Be32, FromBe32;
  }
}
