/** The poll manager (PollMgr): one thread in wait_loop calls the callbacks without the mutex; any other thread may add,
    delete and remove them. A removal waits for the loop to come round once. */
module PollManager {
  import opened SelectAio

  type Handler = nat
  type Thread = nat

  const MAX_POLL_FDS := 128

  /** Who holds the manager's mutex, and what is left to do under it. */
  datatype Owner =
    | Free
    | Adding(fd: Fd, h: Handler)        // watched, callback not yet set
    | Clearing(fd: Fd)                  // no longer watched, callback not yet cleared
    | Removing(t: Thread, fd: Fd)       // no longer watched, not yet waiting

  datatype Loop =
    | Top                                                    // about to take the mutex
    | Ready                                                  // about to copy the descriptor sets
    | InSelect(tr: set<Fd>, tw: set<Fd>, high: Fd)
    | Serving(readable: seq<Fd>, writable: seq<Fd>)
    | Calling(fd: Fd, readable: seq<Fd>, writable: seq<Fd>)  // in a callback of fd

  datatype Poll = Poll(
    aio: Aio,
    callbacks: map<Fd, Handler>,      // the descriptors with a callback that is not NULL
    pending: bool,
    owner: Owner,
    waiting: map<Thread, Fd>,         // in the wait of block_remove_fd
    woken: map<Thread, Fd>,           // past it, but not yet back in the mutex
    loop: Loop)

  function Start(pipe: Fd): Poll {
    Poll(Fresh(pipe), map[], false, Free, map[], map[], Top)
  }

  datatype Step =
    | AddBegin(fd: Fd, flag: Flag, h: Handler)
    | AddEnd
    | DelBegin(fd: Fd, flag: Flag)
    | DelEnd
    | RemoveBegin(t: Thread, fd: Fd)
    | RemoveWait
    | RemoveReturn(t: Thread)
    | Spurious(t: Thread)
    | LoopTop
    | LoopCopy
    | SelectReturns(r: set<Fd>, w: set<Fd>)
    | SelectInterrupted
    | Serve
    | CallReturns

  predicate ByLoop(step: Step) {
    step.LoopTop? || step.LoopCopy? || step.SelectReturns? || step.SelectInterrupted? || step.Serve? || step.CallReturns?
  }

  /** select reports only descriptors that it was asked about, at least one, and the pipe only if there is a byte in
      it. */
  predicate MayReport(p: Poll, r: set<Fd>, w: set<Fd>) {
    && p.loop.InSelect?
    && r <= p.loop.tr && w <= p.loop.tw && r + w != {}
    && (forall fd :: fd in r + w ==> fd <= p.loop.high)
    && (p.aio.pipe in r ==> p.aio.bytes > 0)
  }

  predicate Enabled(p: Poll, step: Step) {
    match step
    case AddBegin(fd, flag, h) => p.owner.Free? && fd != p.aio.pipe && fd < MAX_POLL_FDS
    case AddEnd => p.owner.Adding? && (p.owner.fd in p.callbacks ==> p.callbacks[p.owner.fd] == p.owner.h)
    case DelBegin(fd, flag) => p.owner.Free? && fd != p.aio.pipe
    case DelEnd => p.owner.Clearing?
    case RemoveBegin(t, fd) => p.owner.Free? && fd != p.aio.pipe && t !in p.waiting && t !in p.woken
    case RemoveWait => p.owner.Removing?
    case RemoveReturn(t) => p.owner.Free? && t in p.woken
    case Spurious(t) => t in p.waiting
    case LoopTop => p.owner.Free? && p.loop.Top?
    case LoopCopy => p.loop.Ready?
    case SelectReturns(r, w) => MayReport(p, r, w)
    case SelectInterrupted => p.loop.InSelect?
    case Serve => p.loop.Serving?
    case CallReturns => p.loop.Calling?
  }

  /** The loop's next move through what select reported: it looks the callback up at the last moment, without the
      mutex. */
  function ServeNext(callbacks: map<Fd, Handler>, readable: seq<Fd>, writable: seq<Fd>): Loop {
    if readable != [] then
      if readable[0] in callbacks then Calling(readable[0], readable[1..], writable) else Serving(readable[1..], writable)
    else if writable != [] then
      if writable[0] in callbacks then Calling(writable[0], [], writable[1..]) else Serving([], writable[1..])
    else Top
  }

  function AfterSelect(a: Aio, r: set<Fd>, w: set<Fd>, high: Fd): Loop {
    var readable := Listed(r - {a.pipe}, high + 1);
    var writable := Listed(if a.pipe in r then w - {a.pipe} else w, high + 1);
    if readable == [] && writable == [] then Top else Serving(readable, writable)
  }

  function Apply(p: Poll, step: Step): Poll
    requires Enabled(p, step)
  {
    match step
    case AddBegin(fd, flag, h) => p.(aio := Watch(p.aio, fd, flag), owner := Adding(fd, h))
    case AddEnd => p.(callbacks := p.callbacks[p.owner.fd := p.owner.h], owner := Free)
    case DelBegin(fd, flag) =>
      var aio := Unwatch(p.aio, fd, flag);
      p.(aio := aio, owner := if Watched(aio, fd) then Free else Clearing(fd))
    case DelEnd => p.(callbacks := p.callbacks - {p.owner.fd}, owner := Free)
    case RemoveBegin(t, fd) => p.(aio := Unwatch(p.aio, fd, ReadWrite), owner := Removing(t, fd))
    case RemoveWait => p.(pending := true, waiting := p.waiting[p.owner.t := p.owner.fd], owner := Free)
    case RemoveReturn(t) => p.(callbacks := p.callbacks - {p.woken[t]}, woken := p.woken - {t})
    case Spurious(t) => p.(waiting := p.waiting - {t}, woken := p.woken[t := p.waiting[t]])
    case LoopTop =>
      if p.pending then p.(pending := false, waiting := map[], woken := p.woken + p.waiting, loop := Ready)
      else p.(loop := Ready)
    case LoopCopy => p.(loop := InSelect(p.aio.rfds, p.aio.wfds, p.aio.high))
    case SelectReturns(r, w) =>
      p.(aio := p.aio.(bytes := if p.aio.pipe in r then p.aio.bytes - 1 else p.aio.bytes),
         loop := AfterSelect(p.aio, r, w, p.loop.high))
    case SelectInterrupted => p.(loop := Top)
    case Serve => p.(loop := ServeNext(p.callbacks, p.loop.readable, p.loop.writable))
    case CallReturns => p.(loop := Serving(p.loop.readable, p.loop.writable))
  }

  ghost predicate Moves(states: seq<Poll>, steps: seq<Step>) {
    && |states| == |steps| + 1
    && forall i :: 0 <= i < |steps| ==> Enabled(states[i], steps[i]) && states[i + 1] == Apply(states[i], steps[i])
  }

  ghost predicate Behaviour(states: seq<Poll>, steps: seq<Step>) {
    Moves(states, steps) && states[0] == Start(states[0].aio.pipe)
  }

  // --- no wakeup is lost ---

  /** While a removal is under way, a loop that is on its way into select, or in it, has a byte to come out for. */
  ghost predicate WakeupDue(p: Poll) {
    && (p.waiting != map[] ==> p.pending)
    && (p.pending || p.owner.Removing? ==>
          (p.loop.Ready? || p.loop.InSelect? ==> p.aio.bytes >= 1))
  }

  ghost predicate PollOk(p: Poll) {
    && AioOk(p.aio)
    && (p.loop.InSelect? ==> p.aio.pipe in p.loop.tr && p.aio.pipe <= p.loop.high)
    && WakeupDue(p)
  }

  lemma StepKeeps(p: Poll, step: Step)
    requires PollOk(p) && Enabled(p, step)
    ensures PollOk(Apply(p, step)) && Apply(p, step).aio.pipe == p.aio.pipe
  {
    match step
    case AddBegin(fd, flag, h) => WatchKeeps(p.aio, fd, flag);
    case DelBegin(fd, flag) => UnwatchKeeps(p.aio, fd, flag);
    case RemoveBegin(t, fd) => UnwatchKeeps(p.aio, fd, ReadWrite);
    case _ =>
  }

  lemma {:induction false} BehaviourOk(states: seq<Poll>, steps: seq<Step>, k: nat)
    requires Behaviour(states, steps) && k < |states|
    ensures PollOk(states[k])
  {
    if k > 0 {
      BehaviourOk(states, steps, k - 1);
      StepKeeps(states[k - 1], steps[k - 1]);
    }
  }

  /** How far the loop is from its next pass through the mutex: the stage, then what is left to serve. */
  function Stage(l: Loop): nat {
    match l
    case Top => 0
    case Ready => 3
    case InSelect(tr, tw, high) => 2
    case Serving(r, w) => 1
    case Calling(fd, r, w) => 1
  }

  function Left(l: Loop): nat {
    match l
    case Serving(r, w) => 2 * (|r| + |w|)
    case Calling(fd, r, w) => 2 * (|r| + |w|) + 1
    case _ => 0
  }

  predicate Nearer(l: Loop, m: Loop) {
    Stage(l) < Stage(m) || (Stage(l) == Stage(m) && Left(l) < Left(m))
  }

  /** A waiting remover always brings the loop round: wherever the loop is, it can move (in select, because of the
      pipe), every move takes it nearer to the mutex, nobody else's move takes it away again, and there it wakes all
      that wait. */
  lemma RemoversAreWoken(states: seq<Poll>, steps: seq<Step>, k: nat) returns (step: Step)
    requires Behaviour(states, steps) && k < |states| && states[k].waiting != map[]
    ensures ByLoop(step)
    ensures states[k].owner.Free? || !states[k].loop.Top? ==> Enabled(states[k], step)
    ensures forall s :: Enabled(states[k], s) && ByLoop(s) && !states[k].loop.Top? ==>
                    Nearer(Apply(states[k], s).loop, states[k].loop)
    ensures forall s :: Enabled(states[k], s) && !ByLoop(s) ==> Apply(states[k], s).loop == states[k].loop
    ensures Enabled(states[k], LoopTop) ==>
              var p := Apply(states[k], LoopTop);
              p.waiting == map[] && forall t :: t in states[k].waiting ==> t in p.woken && p.woken[t] == states[k].waiting[t]
  {
    BehaviourOk(states, steps, k);
    match states[k].loop
    case Top => step := LoopTop;
    case Ready => step := LoopCopy;
    case InSelect(tr, tw, high) => step := SelectReturns({states[k].aio.pipe}, {});
    case Serving(r, w) => step := Serve;
    case Calling(fd, r, w) => step := CallReturns;
  }

  // --- a removed descriptor is left alone ---

  ghost predicate Unwatched(p: Poll, fd: Fd) {
    !Watched(p.aio, fd) && !(p.owner.Adding? && p.owner.fd == fd)
  }

  /** Nothing that the loop has in hand leads to a callback of `fd`. */
  ghost predicate OutOfLoop(l: Loop, fd: Fd) {
    match l
    case Top => true
    case Ready => true
    case InSelect(tr, tw, high) => fd !in tr && fd !in tw
    case Serving(r, w) => fd !in r && fd !in w
    case Calling(g, r, w) => g != fd && fd !in r && fd !in w
  }

  lemma LoopStaysOut(p: Poll, step: Step, fd: Fd)
    requires Unwatched(p, fd) && OutOfLoop(p.loop, fd) && Enabled(p, step) && !(step.AddBegin? && step.fd == fd)
    ensures OutOfLoop(Apply(p, step).loop, fd)
  {
    if step.SelectReturns? {
      ListedMembers(step.r - {p.aio.pipe}, p.loop.high + 1, fd);
      ListedMembers(if p.aio.pipe in step.r then step.w - {p.aio.pipe} else step.w, p.loop.high + 1, fd);
    }
  }

  lemma StaysUnwatched(p: Poll, step: Step, fd: Fd)
    requires Unwatched(p, fd) && Enabled(p, step) && !(step.AddBegin? && step.fd == fd)
    ensures Unwatched(Apply(p, step), fd)
  {
  }

  /** Thread `t` is in block_remove_fd(fd): it holds the mutex, or waits, or has been woken by the loop. */
  ghost predicate Inside(p: Poll, t: Thread, fd: Fd) {
    if p.owner.Removing? && p.owner.t == t then p.owner.fd == fd && t !in p.waiting && t !in p.woken
    else if t in p.waiting then p.waiting[t] == fd && t !in p.woken
    else t in p.woken && p.woken[t] == fd
  }

  lemma StaysInside(p: Poll, step: Step, t: Thread, fd: Fd)
    requires Inside(p, t, fd) && Enabled(p, step) && step != RemoveReturn(t)
    ensures Inside(Apply(p, step), t, fd)
    ensures step != Spurious(t) && t in Apply(p, step).woken ==> t in p.woken || Apply(p, step).loop.Ready?
  {
  }

  lemma UnwatchedNow(a: Aio, fd: Fd)
    ensures !Watched(Unwatch(a, fd, ReadWrite), fd)
  {
  }

  predicate InCallback(p: Poll, fd: Fd) {
    p.loop.Calling? && p.loop.fd == fd
  }

  /** No callback of fd can be found any more. */
  ghost predicate Cut(p: Poll, fd: Fd) {
    Unwatched(p, fd) && fd !in p.callbacks
  }

  lemma StaysCut(p: Poll, step: Step, fd: Fd)
    requires Cut(p, fd) && Enabled(p, step) && !(step.AddBegin? && step.fd == fd)
    ensures Cut(Apply(p, step), fd)
    ensures InCallback(Apply(p, step), fd) ==> InCallback(p, fd)
  {
    StaysUnwatched(p, step, fd);
  }

  lemma {:induction false} UnderWay(states: seq<Poll>, steps: seq<Step>, i: nat, k: nat, t: Thread, fd: Fd)
    requires Moves(states, steps) && i < k <= |steps| && steps[i] == RemoveBegin(t, fd)
    requires forall m :: i < m < k ==> steps[m] != RemoveReturn(t)
    requires forall m :: i < m < k ==> !(steps[m].AddBegin? && steps[m].fd == fd)
    ensures Inside(states[k], t, fd) && Unwatched(states[k], fd)
  {
    if k > i + 1 {
      UnderWay(states, steps, i, k - 1, t, fd);
      StaysInside(states[k - 1], steps[k - 1], t, fd);
      StaysUnwatched(states[k - 1], steps[k - 1], fd);
    } else {
      assert states[k] == Apply(states[i], steps[i]);
      UnwatchedNow(states[i].aio, fd);
    }
  }

  lemma ReturnCuts(p: Poll, t: Thread, fd: Fd)
    requires Inside(p, t, fd) && Unwatched(p, fd) && Enabled(p, RemoveReturn(t))
    ensures Cut(Apply(p, RemoveReturn(t)), fd)
    ensures InCallback(Apply(p, RemoveReturn(t)), fd) <==> InCallback(p, fd)
  {
    StaysUnwatched(p, RemoveReturn(t), fd);
  }

  /** However the wait in block_remove_fd(fd) has ended: after the return, and until somebody adds a callback for fd
      again, fd is not watched, its callback is gone, and no callback of fd starts that was not running when the
      removal returned. */
  lemma {:induction false} RemovedIsCut(
      states: seq<Poll>, steps: seq<Step>, i: nat, j: nat, k: nat, t: Thread, fd: Fd)
    requires Moves(states, steps) && i < j < k <= |steps|
    requires steps[i] == RemoveBegin(t, fd) && steps[j] == RemoveReturn(t)
    requires forall m :: i < m < j ==> steps[m] != RemoveReturn(t)
    requires forall m :: i < m < k ==> !(steps[m].AddBegin? && steps[m].fd == fd)
    ensures Cut(states[k], fd)
    ensures InCallback(states[k], fd) ==> InCallback(states[k - 1], fd) && InCallback(states[j], fd)
  {
    hide Apply, Enabled, Cut, Unwatched, Inside, InCallback;
    if k > j + 1 {
      RemovedIsCut(states, steps, i, j, k - 1, t, fd);
      StaysCut(states[k - 1], steps[k - 1], fd);
    } else {
      UnderWay(states, steps, i, j, t, fd);
      ReturnCuts(states[j], t, fd);
    }
  }

  /** So the promise of block_remove_fd, that no callback of fd is active after it, holds if and only if the loop is
      not in one at the very return. */
  lemma ActiveExactlyIfActiveAtReturn(
      states: seq<Poll>, steps: seq<Step>, i: nat, j: nat, n: nat, t: Thread, fd: Fd)
    requires Moves(states, steps) && i < j < n <= |steps|
    requires steps[i] == RemoveBegin(t, fd) && steps[j] == RemoveReturn(t)
    requires forall m :: i < m < j ==> steps[m] != RemoveReturn(t)
    requires forall m :: i < m < n ==> !(steps[m].AddBegin? && steps[m].fd == fd)
    ensures (exists k :: j < k <= n && InCallback(states[k], fd)) <==> InCallback(states[j], fd)
  {
    forall k | j < k <= n && InCallback(states[k], fd) ensures InCallback(states[j], fd) {
      RemovedIsCut(states, steps, i, j, k, t, fd);
    }
    assert states[j + 1].loop == states[j].loop;
    assert InCallback(states[j], fd) ==> InCallback(states[j + 1], fd);
  }

  /** A remover that the broadcast has woken has seen the loop come round with nothing in hand. */
  ghost predicate Removal(p: Poll, t: Thread, fd: Fd) {
    Inside(p, t, fd) && Unwatched(p, fd) && (t in p.woken ==> OutOfLoop(p.loop, fd))
  }

  lemma RemovalGoesOn(p: Poll, step: Step, t: Thread, fd: Fd)
    requires Removal(p, t, fd) && Enabled(p, step) && step != RemoveReturn(t)
    requires step != Spurious(t) && !(step.AddBegin? && step.fd == fd)
    ensures Removal(Apply(p, step), t, fd)
  {
    StaysUnwatched(p, step, fd);
    StaysInside(p, step, t, fd);
    if t in p.woken {
      LoopStaysOut(p, step, fd);
    }
    hide Unwatched;
  }

  lemma {:induction false} RemovalSoFar(states: seq<Poll>, steps: seq<Step>, i: nat, k: nat, t: Thread, fd: Fd)
    requires Moves(states, steps) && i < k <= |steps| && steps[i] == RemoveBegin(t, fd)
    requires forall m :: i < m < k ==> steps[m] != RemoveReturn(t) && steps[m] != Spurious(t)
    requires forall m :: i < m < k ==> !(steps[m].AddBegin? && steps[m].fd == fd)
    ensures Removal(states[k], t, fd)
  {
    if k > i + 1 {
      RemovalSoFar(states, steps, i, k - 1, t, fd);
      RemovalGoesOn(states[k - 1], steps[k - 1], t, fd);
    } else {
      UnderWay(states, steps, i, k, t, fd);
      assert states[k] == Apply(states[i], steps[i]);
    }
  }

  /** When the wait has ended by the broadcast, the loop is not in a callback of fd at the return, and has fd nowhere
      in hand: the promise holds. */
  lemma {:induction false} RemovedIsLeftAlone(
      states: seq<Poll>, steps: seq<Step>, i: nat, j: nat, k: nat, t: Thread, fd: Fd)
    requires Moves(states, steps) && i < j < k <= |steps|
    requires steps[i] == RemoveBegin(t, fd) && steps[j] == RemoveReturn(t)
    requires forall m :: i < m < j ==> steps[m] != RemoveReturn(t) && steps[m] != Spurious(t)
    requires forall m :: i < m < k ==> !(steps[m].AddBegin? && steps[m].fd == fd)
    ensures Cut(states[k], fd) && OutOfLoop(states[k].loop, fd)
    ensures !InCallback(states[k], fd)
  {
    RemovedIsCut(states, steps, i, j, k, t, fd);
    if k > j + 1 {
      RemovedIsLeftAlone(states, steps, i, j, k - 1, t, fd);
    } else {
      RemovalSoFar(states, steps, i, j, t, fd);
    }
    LoopStaysOut(states[k - 1], steps[k - 1], fd);
  }

  // --- the object ---

  /** Each method is what one thread does from taking the mutex to giving it up; `loop`, `waiting` and `woken` say
      where the threads are. */
  class PollMgr {
    const aio: SelectAIO
    var callbacks: map<Fd, Handler>
    var pendingChange: bool
    ghost var waiting: map<Thread, Fd>
    ghost var woken: map<Thread, Fd>
    ghost var loop: Loop

    ghost function Value(): Poll
      reads this, aio
    {
      Poll(aio.Value(), callbacks, pendingChange, Free, waiting, woken, loop)
    }

    constructor (pipe: Fd)
      ensures Value() == Start(pipe) && fresh(aio) && PollOk(Value())
    {
      aio := new SelectAIO(pipe);
      callbacks, pendingChange, waiting, woken, loop := map[], false, map[], map[], Top;
    }

    method AddCallback(fd: Fd, flag: Flag, ch: Handler)
      requires PollOk(Value()) && fd != aio.pipefd && fd < MAX_POLL_FDS
      requires fd in callbacks ==> callbacks[fd] == ch
      modifies this, aio
      ensures Value() == Apply(Apply(old(Value()), AddBegin(fd, flag, ch)), AddEnd)
      ensures PollOk(Value())
    {
      StepKeeps(Value(), AddBegin(fd, flag, ch));
      StepKeeps(Apply(Value(), AddBegin(fd, flag, ch)), AddEnd);
      aio.WatchFd(fd, flag);
      callbacks := callbacks[fd := ch];
    }

    method DelCallback(fd: Fd, flag: Flag)
      requires PollOk(Value()) && fd != aio.pipefd
      modifies this, aio
      ensures var p := Apply(old(Value()), DelBegin(fd, flag));
        Value() == (if p.owner.Clearing? then Apply(p, DelEnd) else p)
      ensures PollOk(Value())
    {
      ghost var p := Apply(Value(), DelBegin(fd, flag));
      StepKeeps(Value(), DelBegin(fd, flag));
      if p.owner.Clearing? { StepKeeps(p, DelEnd); }
      var gone := aio.UnwatchFd(fd, flag);
      if gone {
        callbacks := callbacks - {fd};
      }
    }

    method HasCallback(fd: Fd, flag: Flag, c: Handler) returns (r: bool)
      ensures r <==> fd in callbacks && callbacks[fd] == c
                     && (flag != WriteOnly ==> fd in aio.rfds) && (flag != ReadOnly ==> fd in aio.wfds)
    {
      if fd !in callbacks || callbacks[fd] != c {
        return false;
      }
      r := aio.IsWatched(fd, flag);
    }

    /** block_remove_fd up to its wait. */
    method BlockRemoveWaits(t: Thread, fd: Fd)
      requires PollOk(Value()) && Enabled(Value(), RemoveBegin(t, fd))
      modifies this, aio
      ensures Value() == Apply(Apply(old(Value()), RemoveBegin(t, fd)), RemoveWait)
      ensures PollOk(Value())
    {
      StepKeeps(Value(), RemoveBegin(t, fd));
      StepKeeps(Apply(Value(), RemoveBegin(t, fd)), RemoveWait);
      var gone := aio.UnwatchFd(fd, ReadWrite);
      pendingChange := true;
      waiting := waiting[t := fd];
    }

    /** ... and after it. */
    method BlockRemoveReturns(t: Thread, fd: Fd)
      requires Enabled(Value(), RemoveReturn(t)) && woken[t] == fd
      modifies this
      ensures Value() == Apply(old(Value()), RemoveReturn(t))
    {
      callbacks := callbacks - {fd};
      woken := woken - {t};
    }

    /** The part of wait_loop under the mutex. */
    method PassChanges()
      requires Enabled(Value(), LoopTop)
      modifies this
      ensures Value() == Apply(old(Value()), LoopTop)
    {
      if pendingChange {
        pendingChange := false;
        woken, waiting := woken + waiting, map[];
      }
      loop := Ready;
    }

    /** One of the two loops at the end of a round of wait_loop, for callbacks that leave the manager alone: which
        ones are called, in order. */
    method ServeAll(fds: seq<Fd>) returns (called: seq<Fd>)
      ensures called == Called(callbacks, fds)
    {
      called := [];
      var i := 0;
      while i < |fds|
        invariant i <= |fds|
        invariant called == Called(callbacks, fds[..i])
      {
        assert fds[..i + 1][..i] == fds[..i];
        var fd := fds[i];
        if fd in callbacks {
          called := called + [fd];
        }
        i := i + 1;
      }
      assert fds[..i] == fds;
    }

    /** The round from the return of select on. */
    method ServeRound(tr: set<Fd>, tw: set<Fd>, high: Fd) returns (readCalls: seq<Fd>, writeCalls: seq<Fd>)
      requires aio.pipefd in tr && aio.pipefd <= high ==> aio.bytes > 0
      modifies aio`bytes
      ensures readCalls == Called(callbacks, Listed(tr - {aio.pipefd}, high + 1))
      ensures writeCalls == Called(callbacks, Listed(if aio.pipefd in tr then tw - {aio.pipefd} else tw, high + 1))
    {
      var readable, writable := aio.Collect(tr, tw, high);
      if |readable| == 0 && |writable| == 0 {
        return [], [];
      }
      readCalls := ServeAll(readable);
      writeCalls := ServeAll(writable);
    }
  }

  function Called(callbacks: map<Fd, Handler>, fds: seq<Fd>): seq<Fd> {
    if fds == [] then []
    else Called(callbacks, fds[..|fds| - 1]) + if fds[|fds| - 1] in callbacks then [fds[|fds| - 1]] else []
  }

  // --- why the wait must not end early ---

  const ADDING := Poll(Aio(0, {0, 1}, {}, 1, 1), map[], false, Adding(1, 9), map[], map[], Top)
  const ADDED := ADDING.(callbacks := map[1 := 9], owner := Free)
  const CALLING := ADDED.(loop := Calling(1, [], []))
  const REMOVING := CALLING.(aio := Aio(0, {0}, {}, 0, 2), owner := Removing(7, 1))
  const WAITING := REMOVING.(pending := true, owner := Free, waiting := map[7 := 1])
  const WOKEN := WAITING.(waiting := map[], woken := map[7 := 1])
  const RETURNED := WOKEN.(callbacks := map[], woken := map[])

  predicate IsStep(p: Poll, step: Step, p': Poll) {
    Enabled(p, step) && Apply(p, step) == p'
  }

  lemma CallbackAdded()
    ensures IsStep(Start(0), AddBegin(1, ReadOnly, 9), ADDING) && IsStep(ADDING, AddEnd, ADDED)
    ensures IsStep(ADDED, LoopTop, ADDED.(loop := Ready))
    ensures IsStep(ADDED.(loop := Ready), LoopCopy, ADDED.(loop := InSelect({0, 1}, {}, 1)))
  {
  }

  lemma CallbackStarts()
    ensures IsStep(ADDED.(loop := InSelect({0, 1}, {}, 1)), SelectReturns({1}, {}), ADDED.(loop := Serving([1], [])))
    ensures IsStep(ADDED.(loop := Serving([1], [])), Serve, CALLING)
  {
    var s, none: set<Fd> := {1} - {0}, {};
    assert Listed(s, 0) == [] && Listed(none, 0) == [];
    assert Listed(s, 1) == [] && Listed(none, 1) == [];
    assert Listed(s, 2) == [1] && Listed(none, 2) == [];
    var readable: seq<Fd> := [1];
    assert readable[1..] == [];
  }

  lemma RemovalReturnsEarly()
    ensures IsStep(CALLING, RemoveBegin(7, 1), REMOVING) && IsStep(REMOVING, RemoveWait, WAITING)
    ensures IsStep(WAITING, Spurious(7), WOKEN) && IsStep(WOKEN, RemoveReturn(7), RETURNED)
  {
    var r, w: set<Fd> := {0, 1}, {};
    assert r - {1} == {0} && w - {1} == {};
    assert CALLING.aio.rfds == r && CALLING.aio.wfds == w;
    var b := Aio(0, {0}, {}, 1, 2);
    assert Rescan(b, 0) == 0;
    assert Rescan(b, 1) == 0;
    assert Unwatch(CALLING.aio, 1, ReadWrite) == REMOVING.aio;
  }

  /** With one spurious wakeup the removal can return while the loop is inside the callback. */
  lemma SpuriousWakeupBreaksRemoval() returns (states: seq<Poll>, steps: seq<Step>)
    ensures Behaviour(states, steps) && |steps| == 10
    ensures steps[6] == RemoveBegin(7, 1) && steps[8] == Spurious(7) && steps[9] == RemoveReturn(7)
    ensures states[10].loop == Calling(1, [], [])
  {
    steps := [AddBegin(1, ReadOnly, 9), AddEnd, LoopTop, LoopCopy, SelectReturns({1}, {}), Serve,
              RemoveBegin(7, 1), RemoveWait, Spurious(7), RemoveReturn(7)];
    states := [Start(0), ADDING, ADDED, ADDED.(loop := Ready), ADDED.(loop := InSelect({0, 1}, {}, 1)),
               ADDED.(loop := Serving([1], [])), CALLING, REMOVING, WAITING, WOKEN, RETURNED];
    CallbackAdded();
    CallbackStarts();
    RemovalReturnsEarly();
    hide Apply, Enabled;
  }
}
