/** What the poll loop does for those who have asked: select is asked about what is watched, a new descriptor is
    noticed, and every callback of a ready descriptor is called. */
module PollService {
  import opened SelectAio
  import opened PollManager

  // ---------------------------------------------------------------------------------------------
  // A round of callbacks
  // ---------------------------------------------------------------------------------------------

  lemma {:induction false} CalledJoins(callbacks: map<Fd, Handler>, a: seq<Fd>, b: seq<Fd>)
    ensures Called(callbacks, a + b) == Called(callbacks, a) + Called(callbacks, b)
  {
    if b == [] {
      assert a + b == a;
    } else {
      var n := |b| - 1;
      CalledJoins(callbacks, a, b[..n]);
      assert (a + b)[..|a + b| - 1] == a + b[..n];
    }
  }

  /** The i-th call is for the place `places[i]` of the list; all the places with a callback are there, and no others.
      */
  ghost predicate InOrder(callbacks: map<Fd, Handler>, fds: seq<Fd>, called: seq<Fd>, places: seq<nat>) {
    && |places| == |called|
    && (forall i :: 0 <= i < |places| ==> places[i] < |fds| && fds[places[i]] == called[i])
    && (forall i, j :: 0 <= i < j < |places| ==> places[i] < places[j])
    && (forall k: nat :: k < |fds| ==> (k in places <==> fds[k] in callbacks))
  }

  lemma OneMoreCalled(callbacks: map<Fd, Handler>, fds: seq<Fd>, called: seq<Fd>, places: seq<nat>, fd: Fd)
    requires InOrder(callbacks, fds, called, places) && fd in callbacks
    ensures InOrder(callbacks, fds + [fd], called + [fd], places + [|fds|])
  {
    assert forall i :: 0 <= i < |places| ==> places[i] < |fds|;
    assert |fds| !in places;
  }

  lemma OneLessCalled(callbacks: map<Fd, Handler>, fds: seq<Fd>, called: seq<Fd>, places: seq<nat>, fd: Fd)
    requires InOrder(callbacks, fds, called, places) && fd !in callbacks
    ensures InOrder(callbacks, fds + [fd], called, places)
  {
    assert forall i :: 0 <= i < |places| ==> places[i] < |fds|;
    assert |fds| !in places;
  }

  /** Exactly the descriptors with a callback are called, once for each of their places in the list, and in its order.
      */
  lemma {:induction false} CalledInOrder(callbacks: map<Fd, Handler>, fds: seq<Fd>) returns (places: seq<nat>)
    ensures InOrder(callbacks, fds, Called(callbacks, fds), places)
  {
    places := [];
    if fds != [] {
      var n := |fds| - 1;
      places := CalledInOrder(callbacks, fds[..n]);
      assert fds == fds[..n] + [fds[n]];
      var called := Called(callbacks, fds[..n]);
      if fds[n] in callbacks {
        OneMoreCalled(callbacks, fds[..n], called, places, fds[n]);
        places := places + [n];
      } else {
        OneLessCalled(callbacks, fds[..n], called, places, fds[n]);
        assert called + [] == called;
      }
      hide InOrder;
    }
  }

  /** The descriptors that the loop still has before it in this round. */
  function Ahead(l: Loop): seq<Fd> {
    match l
    case Serving(r, w) => r + w
    case Calling(fd, r, w) => r + w
    case _ => []
  }

  /** The callbacks that have started, in order. */
  ghost function Started(states: seq<Poll>, steps: seq<Step>): seq<Fd>
    requires |states| == |steps| + 1
  {
    if steps == [] then []
    else
      var n := |steps| - 1;
      Started(states[..n + 1], steps[..n])
        + if steps[n].Serve? && states[n + 1].loop.Calling? then [states[n + 1].loop.fd] else []
  }

  lemma CalledFirst(callbacks: map<Fd, Handler>, fds: seq<Fd>)
    requires fds != []
    ensures Called(callbacks, fds) == (if fds[0] in callbacks then [fds[0]] else []) + Called(callbacks, fds[1..])
  {
    assert fds == [fds[0]] + fds[1..];
    CalledJoins(callbacks, [fds[0]], fds[1..]);
    var none: seq<Fd> := [];
    assert [fds[0]][..0] == none;
  }

  lemma ServesTheFirst(p: Poll)
    requires p.loop.Serving?
    ensures var l := Apply(p, Serve).loop;
      Called(p.callbacks, Ahead(p.loop)) == (if l.Calling? then [l.fd] else []) + Called(p.callbacks, Ahead(l))
  {
    var all, l := Ahead(p.loop), Apply(p, Serve).loop;
    if all != [] {
      assert all[1..] == Ahead(l);
      CalledFirst(p.callbacks, all);
      hide Called;
    }
  }

  lemma OthersLeaveIt(p: Poll, step: Step)
    requires Enabled(p, step) && (p.loop.Serving? || p.loop.Calling?) && !step.Serve?
    ensures var l := Apply(p, step).loop; (l.Serving? || l.Calling?) && Ahead(l) == Ahead(p.loop)
  {
    hide Watch, Unwatch;
  }

  lemma ServedOn(p: Poll)
    requires p.loop.Serving?
    ensures var l := Apply(p, Serve).loop; l.Serving? || l.Calling? || l.Top?
  {
  }

  /** One step in the middle of a round. */
  lemma RoundGoesOn(p: Poll, step: Step)
    requires Enabled(p, step) && (p.loop.Serving? || p.loop.Calling?)
    ensures var l := Apply(p, step).loop;
      && (l.Serving? || l.Calling? || l.Top?)
      && Called(p.callbacks, Ahead(p.loop))
         == (if step.Serve? && l.Calling? then [l.fd] else []) + Called(p.callbacks, Ahead(l))
  {
    if step.Serve? {
      ServesTheFirst(p);
      ServedOn(p);
    } else {
      OthersLeaveIt(p, step);
    }
    hide Called, Apply, Enabled, Ahead;
  }

  lemma StartedOne(states: seq<Poll>, steps: seq<Step>)
    requires |states| == |steps| + 1 && steps != []
    ensures var n := |steps| - 1;
      Started(states, steps) == Started(states[..n + 1], steps[..n])
        + if steps[n].Serve? && states[n + 1].loop.Calling? then [states[n + 1].loop.fd] else []
  {
  }

  /** A round of the loop, with any other threads at work that leave the callbacks alone: at any point of it, what has
      been called and what is ahead and has a callback are together what had one at the beginning. */
  lemma {:induction false} RoundCallsAll(states: seq<Poll>, steps: seq<Step>, callbacks: map<Fd, Handler>)
    requires Moves(states, steps) && states[0].loop.Serving?
    requires forall m :: 0 <= m < |steps| ==> states[m].callbacks == callbacks && !states[m].loop.Top?
    ensures states[|steps|].loop.Serving? || states[|steps|].loop.Calling? || states[|steps|].loop.Top?
    ensures Started(states, steps) + Called(callbacks, Ahead(states[|steps|].loop))
            == Called(callbacks, Ahead(states[0].loop))
  {
    hide Called, Apply, Enabled, Ahead;
    var n := |steps| - 1;
    if steps != [] {
      RoundCallsAll(states[..n + 1], steps[..n], callbacks);
      StartedOne(states, steps);
      hide Started;
      var l := states[n].loop;
      assert l.Serving? || l.Calling?;
      RoundGoesOn(states[n], steps[n]);
    }
  }

  /** The descriptors that have had their turn, in order. */
  ghost function Turns(states: seq<Poll>, steps: seq<Step>): seq<Fd>
    requires |states| == |steps| + 1
  {
    if steps == [] then []
    else
      var n := |steps| - 1;
      Turns(states[..n + 1], steps[..n])
        + if steps[n].Serve? && Ahead(states[n].loop) != [] then [Ahead(states[n].loop)[0]] else []
  }

  /** A turn: the callback of the first descriptor starts if and only if it has one at this moment, and no other does. */
  ghost predicate FairTurn(p: Poll, p': Poll)
    requires Ahead(p.loop) != []
  {
    var fd := Ahead(p.loop)[0];
    (p'.loop.Calling? <==> fd in p.callbacks) && (p'.loop.Calling? ==> p'.loop.fd == fd)
  }

  lemma TurnCalls(p: Poll)
    requires p.loop.Serving? && Ahead(p.loop) != []
    ensures var p' := Apply(p, Serve);
      FairTurn(p, p') && Ahead(p'.loop) == Ahead(p.loop)[1..] && (p'.loop.Calling? || p'.loop.Serving?)
  {
  }

  lemma TurnsGoOn(p: Poll, step: Step)
    requires Enabled(p, step) && (p.loop.Serving? || p.loop.Calling?)
    ensures var l := Apply(p, step).loop;
      && (l.Serving? || l.Calling? || l.Top?)
      && Ahead(p.loop) == (if step.Serve? && Ahead(p.loop) != [] then [Ahead(p.loop)[0]] else []) + Ahead(l)
  {
    if step.Serve? {
      ServedOn(p);
      if Ahead(p.loop) != [] { TurnCalls(p); }
    } else {
      OthersLeaveIt(p, step);
    }
  }

  lemma {:induction false} AllHaveTheirTurn(states: seq<Poll>, steps: seq<Step>)
    requires Moves(states, steps) && states[0].loop.Serving?
    requires forall m :: 0 <= m < |steps| ==> !states[m].loop.Top?
    ensures states[|steps|].loop.Serving? || states[|steps|].loop.Calling? || states[|steps|].loop.Top?
    ensures Turns(states, steps) + Ahead(states[|steps|].loop) == Ahead(states[0].loop)
  {
    hide Apply, Enabled, Ahead;
    var n := |steps| - 1;
    if steps != [] {
      AllHaveTheirTurn(states[..n + 1], steps[..n]);
      TurnsGoOn(states[n], steps[n]);
    }
  }

  lemma ReadyOnes(a: Aio, r: set<Fd>, w: set<Fd>, high: Fd)
    requires a.pipe !in w
    ensures Ahead(AfterSelect(a, r, w, high)) == Listed(r - {a.pipe}, high + 1) + Listed(w, high + 1)
    ensures AfterSelect(a, r, w, high).Serving? || AfterSelect(a, r, w, high).Top?
  {
    assert w - {a.pipe} == w;
  }

  /** The pipe is watched for reading only. */
  ghost predicate PipeOk(p: Poll) {
    p.aio.pipe !in p.aio.wfds && (p.loop.InSelect? ==> p.aio.pipe !in p.loop.tw)
  }

  lemma PipeStaysOk(p: Poll, step: Step)
    requires PipeOk(p) && Enabled(p, step)
    ensures PipeOk(Apply(p, step)) && Apply(p, step).aio.pipe == p.aio.pipe
  {
    hide Listed, Rescan;
  }

  lemma {:induction false} PipeIsOnlyRead(states: seq<Poll>, steps: seq<Step>, k: nat)
    requires Behaviour(states, steps) && k < |states|
    ensures PipeOk(states[k]) && states[k].aio.pipe == states[0].aio.pipe
  {
    hide Apply, Enabled;
    if k > 0 {
      PipeIsOnlyRead(states, steps, k - 1);
      PipeStaysOk(states[k - 1], steps[k - 1]);
    }
  }

  /** The part of a behaviour from step i + 1 up to state k. */
  lemma Segment(states: seq<Poll>, steps: seq<Step>, i: nat, k: nat)
    requires Moves(states, steps) && i < k <= |steps|
    ensures var ss, ts := states[i + 1..k + 1], steps[i + 1..k];
      && |ss| == |ts| + 1 && Moves(ss, ts) && ss[0] == states[i + 1] && ss[|ts|] == states[k]
      && (forall m :: 0 <= m < |ts| ==> ss[m] == states[i + 1 + m])
      && Enabled(states[i], steps[i]) && states[i + 1] == Apply(states[i], steps[i])
  {
    hide Enabled, Apply;
  }

  /** From the return of select to the next pass through the mutex, with other threads leaving the callbacks alone:
      every descriptor reported readable and then every one reported writable, each in ascending order, has its
      callback called, once for each report, unless it has none; and nothing else is called. */
  lemma ReadyAreServed(states: seq<Poll>, steps: seq<Step>, i: nat, k: nat, r: set<Fd>, w: set<Fd>)
    requires Behaviour(states, steps) && i < k <= |steps| && steps[i] == SelectReturns(r, w)
    requires forall m :: i < m < k ==> states[m].callbacks == states[i].callbacks && !states[m].loop.Top?
    requires states[k].loop.Top?
    ensures var high, pipe, callbacks := states[i].loop.high, states[i].aio.pipe, states[i].callbacks;
      Started(states[i + 1..k + 1], steps[i + 1..k])
        == Called(callbacks, Listed(r - {pipe}, high + 1)) + Called(callbacks, Listed(w, high + 1))
  {
    var p := states[i];
    var ss, ts := states[i + 1..k + 1], steps[i + 1..k];
    PipeIsOnlyRead(states, steps, i);
    SelectGives(p, r, w);
    Segment(states, steps, i, k);
    hide Called, Listed, Enabled, Apply, AfterSelect, Moves, Behaviour, Started;
    CalledJoins(p.callbacks, Listed(r - {p.aio.pipe}, p.loop.high + 1), Listed(w, p.loop.high + 1));
    NoneAhead(p.callbacks, states[k]);
    if k > i + 1 {
      RoundCallsAll(ss, ts, p.callbacks);
    } else {
      NothingStarted(ss, ts);
    }
  }

  lemma NothingStarted(states: seq<Poll>, steps: seq<Step>)
    requires steps == [] && |states| == 1
    ensures Started(states, steps) == [] && Turns(states, steps) == []
  {
  }

  /** Whatever other threads do in the meantime: from the return of select to the next pass through the mutex every
      descriptor reported readable and then every one reported writable has its turn, in ascending order, and at its turn
      its callback is called if and only if it has one. */
  lemma ReadyHaveTheirTurn(states: seq<Poll>, steps: seq<Step>, i: nat, k: nat, r: set<Fd>, w: set<Fd>)
    requires Behaviour(states, steps) && i < k <= |steps| && steps[i] == SelectReturns(r, w)
    requires (forall m :: i < m < k ==> !states[m].loop.Top?) && states[k].loop.Top?
    ensures var high, pipe := states[i].loop.high, states[i].aio.pipe;
      Turns(states[i + 1..k + 1], steps[i + 1..k]) == Listed(r - {pipe}, high + 1) + Listed(w, high + 1)
    ensures forall m :: i < m < k && steps[m].Serve? && Ahead(states[m].loop) != [] ==>
              FairTurn(states[m], states[m + 1])
  {
    var p := states[i];
    var ss, ts := states[i + 1..k + 1], steps[i + 1..k];
    PipeIsOnlyRead(states, steps, i);
    SelectGives(p, r, w);
    forall m | i < m < k && steps[m].Serve? && Ahead(states[m].loop) != []
      ensures FairTurn(states[m], states[m + 1])
    {
      assert Enabled(states[m], Serve) && states[m + 1] == Apply(states[m], Serve);
      TurnCalls(states[m]);
    }
    NoneAhead(p.callbacks, states[k]);
    Segment(states, steps, i, k);
    hide Listed, Enabled, Apply, AfterSelect, Moves, Behaviour, Turns;
    if k > i + 1 {
      AllHaveTheirTurn(ss, ts);
    } else {
      NothingStarted(ss, ts);
    }
  }

  lemma SelectGives(p: Poll, r: set<Fd>, w: set<Fd>)
    requires Enabled(p, SelectReturns(r, w)) && PipeOk(p)
    ensures var p' := Apply(p, SelectReturns(r, w));
      && p'.callbacks == p.callbacks && (p'.loop.Serving? || p'.loop.Top?)
      && Ahead(p'.loop) == Listed(r - {p.aio.pipe}, p.loop.high + 1) + Listed(w, p.loop.high + 1)
  {
    ReadyOnes(p.aio, r, w, p.loop.high);
    hide Listed, AfterSelect;
  }

  lemma NoneAhead(callbacks: map<Fd, Handler>, p: Poll)
    requires p.loop.Top?
    ensures Called(callbacks, Ahead(p.loop)) == [] && Ahead(p.loop) == []
  {
  }

  // ---------------------------------------------------------------------------------------------
  // What is watched
  // ---------------------------------------------------------------------------------------------

  predicate Covers(flag: Flag, kind: Flag) {
    flag == kind || flag == ReadWrite
  }

  /** The last word on fd, for reading or for writing. */
  function AskedFor(steps: seq<Step>, fd: Fd, kind: Flag): bool {
    if steps == [] then false
    else
      var before := AskedFor(steps[..|steps| - 1], fd, kind);
      match steps[|steps| - 1]
      case AddBegin(g, flag, h) => before || (g == fd && Covers(flag, kind))
      case DelBegin(g, flag) => before && !(g == fd && Covers(flag, kind))
      case RemoveBegin(t, g) => before && g != fd
      case _ => before
  }

  lemma AskedOneMore(steps: seq<Step>, step: Step, fd: Fd, kind: Flag)
    ensures AskedFor(steps + [step], fd, kind) ==
      match step
      case AddBegin(g, flag, h) => AskedFor(steps, fd, kind) || (g == fd && Covers(flag, kind))
      case DelBegin(g, flag) => AskedFor(steps, fd, kind) && !(g == fd && Covers(flag, kind))
      case RemoveBegin(t, g) => AskedFor(steps, fd, kind) && g != fd
      case _ => AskedFor(steps, fd, kind)
  {
    assert (steps + [step])[..|steps|] == steps;
  }

  /** A descriptor is watched for reading, or for writing, if and only if the last call about that asked for it. */
  lemma {:induction false} WatchedAsAsked(states: seq<Poll>, steps: seq<Step>, k: nat, fd: Fd)
    requires Behaviour(states, steps) && k < |states| && fd != states[0].aio.pipe
    ensures fd in states[k].aio.rfds <==> AskedFor(steps[..k], fd, ReadOnly)
    ensures fd in states[k].aio.wfds <==> AskedFor(steps[..k], fd, WriteOnly)
  {
    if k > 0 {
      WatchedAsAsked(states, steps, k - 1, fd);
      AskedOneMore(steps[..k - 1], steps[k - 1], fd, ReadOnly);
      AskedOneMore(steps[..k - 1], steps[k - 1], fd, WriteOnly);
      assert steps[..k] == steps[..k - 1] + [steps[k - 1]];
      hide AskedFor, ServeNext, AfterSelect, Rescan;
      assert states[k] == Apply(states[k - 1], steps[k - 1]);
    }
  }

  /** While the loop is in select, whatever is watched but was not when it copied the sets has left a byte in the
      pipe; and select looks far enough to see all it was given. */
  ghost predicate Noticed(p: Poll) {
    p.loop.InSelect? ==>
      && (forall fd :: fd in p.loop.tr || fd in p.loop.tw ==> fd <= p.loop.high)
      && ((exists fd :: (fd in p.aio.rfds && fd !in p.loop.tr) || (fd in p.aio.wfds && fd !in p.loop.tw)) ==>
            p.aio.bytes > 0)
  }

  lemma StaysNoticed(p: Poll, step: Step)
    requires Noticed(p) && AioOk(p.aio) && Enabled(p, step)
    ensures Noticed(Apply(p, step))
  {
    hide Rescan, Listed;
  }

  lemma {:induction false} NewWatchIsNoticed(states: seq<Poll>, steps: seq<Step>, k: nat)
    requires Behaviour(states, steps) && k < |states|
    ensures Noticed(states[k])
  {
    if k > 0 {
      BehaviourOk(states, steps, k - 1);
      NewWatchIsNoticed(states, steps, k - 1);
      StaysNoticed(states[k - 1], steps[k - 1]);
    }
  }

  /** What a step does to the number of bytes in the pipe. */
  predicate WritesByte(step: Step) {
    step.AddBegin? || step.RemoveBegin? || (step.DelBegin? && step.flag == ReadWrite)
  }

  predicate ReadsByte(step: Step, pipe: Fd) {
    step.SelectReturns? && pipe in step.r
  }

  function Balance(steps: seq<Step>, pipe: Fd): int {
    if steps == [] then 0
    else
      var last := steps[|steps| - 1];
      Balance(steps[..|steps| - 1], pipe) + (if WritesByte(last) then 1 else 0) - if ReadsByte(last, pipe) then 1 else 0
  }

  /** The pipe holds a byte for each call that wrote one, less one for each round in which select reported the pipe.
      */
  lemma {:induction false} PipeIsBalanced(states: seq<Poll>, steps: seq<Step>, k: nat)
    requires Behaviour(states, steps) && k < |states|
    ensures states[k].aio.bytes == Balance(steps[..k], states[0].aio.pipe)
  {
    if k > 0 {
      PipeIsBalanced(states, steps, k - 1);
      PipeIsOnlyRead(states, steps, k - 1);
      assert steps[..k][..k - 1] == steps[..k - 1] && steps[..k][k - 1] == steps[k - 1];
      hide Balance, ServeNext, AfterSelect, Rescan;
      BytesOnce(states[k - 1], steps[k - 1]);
      BalanceOne(steps[..k], states[0].aio.pipe);
      hide Apply, Enabled, WritesByte, ReadsByte;
    }
  }

  lemma BytesOnce(p: Poll, step: Step)
    requires Enabled(p, step)
    ensures Apply(p, step).aio.bytes ==
      p.aio.bytes + (if WritesByte(step) then 1 else 0) - if ReadsByte(step, p.aio.pipe) then 1 else 0
  {
    hide ServeNext, AfterSelect, Rescan;
  }

  lemma BalanceOne(steps: seq<Step>, pipe: Fd)
    requires steps != []
    ensures var last := steps[|steps| - 1];
      Balance(steps, pipe) == Balance(steps[..|steps| - 1], pipe) + (if WritesByte(last) then 1 else 0)
                              - if ReadsByte(last, pipe) then 1 else 0
  {
  }

  // ---------------------------------------------------------------------------------------------
  // What has a callback
  // ---------------------------------------------------------------------------------------------

  /** Some thread is in block_remove_fd(fd). */
  ghost predicate BeingRemoved(p: Poll, fd: Fd) {
    || (p.owner.Removing? && p.owner.fd == fd)
    || (exists t :: t in p.waiting && p.waiting[t] == fd)
    || (exists t :: t in p.woken && p.woken[t] == fd)
  }

  /** What is watched has its callback, or is about to get it. */
  ghost predicate HasCallback(p: Poll, fd: Fd) {
    Watched(p.aio, fd) && fd != p.aio.pipe ==> fd in p.callbacks || (p.owner.Adding? && p.owner.fd == fd)
  }

  /** A callback is there only for what is watched, or is on its way out. */
  ghost predicate CallbackHasReason(p: Poll, fd: Fd) {
    fd in p.callbacks ==> Watched(p.aio, fd) || p.owner == Clearing(fd) || BeingRemoved(p, fd)
  }

  ghost predicate OwnersOk(p: Poll) {
    && (p.owner.Adding? ==> Watched(p.aio, p.owner.fd))
    && (p.owner.Clearing? ==> !Watched(p.aio, p.owner.fd))
    && (p.owner.Removing? ==> p.owner.t !in p.waiting && p.owner.t !in p.woken)
    && p.waiting.Keys !! p.woken.Keys
  }

  lemma OwnersStayOk(p: Poll, step: Step)
    requires OwnersOk(p) && Enabled(p, step)
    ensures OwnersOk(Apply(p, step))
  {
    hide ServeNext, AfterSelect, Rescan;
  }

  /** A removal that returns when its descriptor is being watched again. */
  predicate RemovesAnew(p: Poll, step: Step, fd: Fd) {
    step.RemoveReturn? && step.t in p.woken && p.woken[step.t] == fd && Watched(p.aio, fd) && fd != p.aio.pipe
  }

  lemma CallbackStays(p: Poll, step: Step, fd: Fd)
    requires OwnersOk(p) && HasCallback(p, fd) && Enabled(p, step)
    ensures HasCallback(Apply(p, step), fd) <==> !RemovesAnew(p, step, fd)
  {
    hide ServeNext, AfterSelect, Rescan;
  }

  lemma RemovalStays(p: Poll, step: Step, fd: Fd)
    requires OwnersOk(p) && BeingRemoved(p, fd) && Enabled(p, step)
    requires !(step.RemoveReturn? && p.woken[step.t] == fd)
    ensures BeingRemoved(Apply(p, step), fd)
  {
    hide ServeNext, AfterSelect, Unwatch, Watch;
    var p' := Apply(p, step);
    if p.owner.Removing? && p.owner.fd == fd {
      assert step.RemoveWait? ==> p.owner.t in p'.waiting && p'.waiting[p.owner.t] == fd;
    } else if t :| t in p.waiting && p.waiting[t] == fd {
      assert (t in p'.waiting && p'.waiting[t] == fd) || (t in p'.woken && p'.woken[t] == fd);
    } else {
      var t :| t in p.woken && p.woken[t] == fd;
      assert t in p'.woken && p'.woken[t] == fd;
    }
  }

  lemma ReasonStays(p: Poll, step: Step, fd: Fd)
    requires OwnersOk(p) && CallbackHasReason(p, fd) && Enabled(p, step)
    ensures CallbackHasReason(Apply(p, step), fd)
  {
    if BeingRemoved(p, fd) && !(step.RemoveReturn? && p.woken[step.t] == fd) {
      RemovalStays(p, step, fd);
    }
    hide ServeNext, AfterSelect, Rescan, BeingRemoved;
    if step.RemoveBegin? && step.fd == fd {
      BeginsRemoval(p, step, fd);
    }
  }

  lemma BeginsRemoval(p: Poll, step: Step, fd: Fd)
    requires Enabled(p, step) && step.RemoveBegin? && step.fd == fd
    ensures BeingRemoved(Apply(p, step), fd)
  {
  }

  lemma {:induction false} OwnersAreOk(states: seq<Poll>, steps: seq<Step>, k: nat)
    requires Behaviour(states, steps) && k < |states|
    ensures OwnersOk(states[k])
  {
    hide Apply, Enabled;
    if k > 0 {
      OwnersAreOk(states, steps, k - 1);
      OwnersStayOk(states[k - 1], steps[k - 1]);
    }
  }

  /** No callback is left behind: in every state each one is for a watched descriptor, or is about to go. */
  lemma {:induction false} CallbacksHaveReasons(states: seq<Poll>, steps: seq<Step>, k: nat, fd: Fd)
    requires Behaviour(states, steps) && k < |states|
    ensures CallbackHasReason(states[k], fd)
  {
    hide Apply, Enabled, OwnersOk;
    if k > 0 {
      CallbacksHaveReasons(states, steps, k - 1, fd);
      OwnersAreOk(states, steps, k - 1);
      ReasonStays(states[k - 1], steps[k - 1], fd);
    }
  }

  /** And none is missing, unless a removal returns while its descriptor is watched anew. */
  lemma {:induction false} WatchedHasCallback(states: seq<Poll>, steps: seq<Step>, k: nat, fd: Fd)
    requires Behaviour(states, steps) && k < |states|
    requires forall m :: 0 <= m < k ==> !RemovesAnew(states[m], steps[m], fd)
    ensures HasCallback(states[k], fd)
    ensures k < |steps| ==> (HasCallback(states[k + 1], fd) <==> !RemovesAnew(states[k], steps[k], fd))
  {
    hide Apply, Enabled, OwnersOk, HasCallback, RemovesAnew;
    if k > 0 {
      WatchedHasCallback(states, steps, k - 1, fd);
    } else {
      NothingWatched(states[0], fd);
    }
    if k < |steps| {
      OwnersAreOk(states, steps, k);
      CallbackStays(states[k], steps[k], fd);
    }
  }

  lemma NothingWatched(p: Poll, fd: Fd)
    requires p == Start(p.aio.pipe)
    ensures HasCallback(p, fd)
  {
  }

  /** An add that is through has its callback in place, and its descriptor is watched as asked. */
  lemma {:induction false} AddTakesEffect(states: seq<Poll>, steps: seq<Step>, i: nat, j: nat,
        fd: Fd, flag: Flag, h: Handler)
    requires Behaviour(states, steps) && i < j < |steps| && steps[i] == AddBegin(fd, flag, h)
    requires forall m :: i < m < j ==> steps[m] != AddEnd
    ensures states[j].owner == Adding(fd, h)
    ensures steps[j] == AddEnd ==> fd in states[j + 1].callbacks && states[j + 1].callbacks[fd] == h
    ensures Covers(flag, ReadOnly) ==> fd in states[j].aio.rfds
    ensures Covers(flag, WriteOnly) ==> fd in states[j].aio.wfds
  {
    if j > i + 1 {
      AddTakesEffect(states, steps, i, j - 1, fd, flag, h);
    }
    hide ServeNext, AfterSelect, Rescan;
    assert states[j] == Apply(states[j - 1], steps[j - 1]);
    assert states[j + 1] == Apply(states[j], steps[j]);
  }

  const LEAVING := ADDED.(aio := Aio(0, {0}, {}, 0, 2), owner := Removing(7, 1))
  const WAITS := LEAVING.(pending := true, owner := Free, waiting := map[7 := 1])
  const ANEW := WAITS.(aio := Aio(0, {0, 1}, {}, 1, 3))
  const PASSED := ANEW.(pending := false, waiting := map[], woken := map[7 := 1], loop := Ready)

  lemma AddedDuringRemoval()
    ensures IsStep(ADDED, RemoveBegin(7, 1), LEAVING) && IsStep(LEAVING, RemoveWait, WAITS)
    ensures IsStep(WAITS, AddBegin(1, ReadOnly, 9), ANEW.(owner := Adding(1, 9)))
    ensures IsStep(ANEW.(owner := Adding(1, 9)), AddEnd, ANEW)
    ensures IsStep(ANEW, LoopTop, PASSED) && IsStep(PASSED, RemoveReturn(7), PASSED.(callbacks := map[], woken := map[]))
  {
    RemovalReturnsEarly();
    assert map[1 := 9][1 := 9] == map[1 := 9];
    var r: set<Fd> := {0, 1};
    assert r == {0} + {1} && Watch(WAITS.aio, 1, ReadOnly) == ANEW.aio;
  }

  /** A descriptor that is added while a removal of it waits ends up watched without a callback. */
  lemma AddDuringRemovalIsLost() returns (states: seq<Poll>, steps: seq<Step>)
    ensures Behaviour(states, steps) && |steps| == 8
    ensures steps[2] == RemoveBegin(7, 1) && steps[4] == AddBegin(1, ReadOnly, 9) && steps[7] == RemoveReturn(7)
    ensures RemovesAnew(states[7], steps[7], 1) && Watched(states[8].aio, 1) && 1 !in states[8].callbacks
  {
    steps := [AddBegin(1, ReadOnly, 9), AddEnd, RemoveBegin(7, 1), RemoveWait, AddBegin(1, ReadOnly, 9), AddEnd, LoopTop,
              RemoveReturn(7)];
    states := [Start(0), ADDING, ADDED, LEAVING, WAITS, ANEW.(owner := Adding(1, 9)), ANEW, PASSED,
               PASSED.(callbacks := map[], woken := map[])];
    CallbackAdded();
    AddedDuringRemoval();
    hide Apply, Enabled;
  }
}
