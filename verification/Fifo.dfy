/** A condition variable, as far as its users can tell the threads in it apart. */
module Condition {
  import opened Common

  type Thread = nat

  datatype Cond = Cond(
    waiting: set<Thread>,
    woken: set<Thread>)    // signalled, but not yet back in the mutex

  const NOBODY := Cond({}, {})

  ghost predicate CondOk(c: Cond) {
    c.waiting !! c.woken
  }

  /** pthread_cond_signal picks one of the waiters, if there are any. */
  predicate MayWake(c: Cond, wake: Option<Thread>) {
    match wake
    case None => c.waiting == {}
    case Some(t) => t in c.waiting
  }

  predicate Outside(c: Cond, t: Thread) {
    t !in c.waiting && t !in c.woken
  }

  function Wait(c: Cond, t: Thread): Cond {
    c.(waiting := c.waiting + {t})
  }

  function Signal(c: Cond, wake: Option<Thread>): Cond {
    if wake.Some? then Cond(c.waiting - {wake.value}, c.woken + {wake.value}) else c
  }

  function Resume(c: Cond, t: Thread): Cond {
    c.(woken := c.woken - {t})
  }

  /** While some thread waits, at least `n` others have been signalled and are on their way. */
  ghost predicate Matched(c: Cond, n: int) {
    c.waiting != {} ==> n <= |c.woken|
  }

  lemma SignalMatches(c: Cond, wake: Option<Thread>, n: int)
    requires CondOk(c) && Matched(c, n) && MayWake(c, wake)
    ensures CondOk(Signal(c, wake)) && Matched(Signal(c, wake), n + 1)
    ensures |Signal(c, wake).woken| == |c.woken| + (if wake.Some? then 1 else 0)
  {
  }

  lemma ResumeMatches(c: Cond, t: Thread, n: int)
    requires CondOk(c) && Matched(c, n) && t in c.woken
    ensures CondOk(Resume(c, t)) && Matched(Resume(c, t), n - 1) && Outside(Resume(c, t), t)
    ensures |Resume(c, t).woken| == |c.woken| - 1
  {
  }
}

/** The bounded queue (fifo<T>): one mutex and two condition variables, used by any number of threads. A call that
    waits is a few sections under the mutex, and any thread may come in between a signal and the signalled thread. */
module Fifo {
  import opened Common
  import opened Condition

  datatype Queue<T> = Queue(
    limit: nat,                 // 0 means no limit
    q: seq<T>,
    nonEmpty: Cond,
    hasSpace: Cond,
    wants: map<Thread, T>,      // the argument of each enq that had to wait
    entered: seq<T>,            // history: all values put in, and all taken out
    left: seq<T>)

  function Empty<T>(limit: nat): Queue<T> {
    Queue(limit, [], NOBODY, NOBODY, map[], [], [])
  }

  predicate HasRoom<T>(f: Queue<T>) {
    f.limit == 0 || |f.q| < f.limit
  }

  /** One round of the loop in enq: put the value in and signal, or wait. */
  function TryEnq<T>(f: Queue<T>, t: Thread, v: T, wake: Option<Thread>): Queue<T> {
    if HasRoom(f) then f.(q := f.q + [v], entered := f.entered + [v], nonEmpty := Signal(f.nonEmpty, wake))
    else f.(hasSpace := Wait(f.hasSpace, t), wants := f.wants[t := v])
  }

  /** One round of the loop in deq. */
  function TryDeq<T>(f: Queue<T>, t: Thread, wake: Option<Thread>): Queue<T> {
    if f.q == [] then f.(nonEmpty := Wait(f.nonEmpty, t))
    else
      f.(q := f.q[1..], left := f.left + [f.q[0]],
         hasSpace := if f.limit != 0 && |f.q| - 1 < f.limit then Signal(f.hasSpace, wake) else f.hasSpace)
  }

  datatype Step<T> =
    | Enq(t: Thread, v: T, blocking: bool, wake: Option<Thread>)
    | EnqResumes(t: Thread, wake: Option<Thread>)
    | Deq(t: Thread, wake: Option<Thread>)
    | DeqResumes(t: Thread, wake: Option<Thread>)
    | SpuriousEnq(t: Thread)
    | SpuriousDeq(t: Thread)

  predicate Enabled<T>(f: Queue<T>, step: Step<T>) {
    match step
    case Enq(t, v, blocking, wake) =>
      Outside(f.nonEmpty, t) && Outside(f.hasSpace, t) && MayWake(f.nonEmpty, wake)
    case EnqResumes(t, wake) => t in f.hasSpace.woken && t in f.wants && MayWake(f.nonEmpty, wake)
    case Deq(t, wake) =>
      Outside(f.nonEmpty, t) && Outside(f.hasSpace, t) && MayWake(f.hasSpace, wake)
    case DeqResumes(t, wake) => t in f.nonEmpty.woken && MayWake(f.hasSpace, wake)
    case SpuriousEnq(t) => t in f.hasSpace.waiting
    case SpuriousDeq(t) => t in f.nonEmpty.waiting
  }

  function Apply<T>(f: Queue<T>, step: Step<T>): Queue<T>
    requires Enabled(f, step)
  {
    match step
    case Enq(t, v, blocking, wake) => if HasRoom(f) || blocking then TryEnq(f, t, v, wake) else f
    case EnqResumes(t, wake) => TryEnq(f.(hasSpace := Resume(f.hasSpace, t)), t, f.wants[t], wake)
    case Deq(t, wake) => TryDeq(f, t, wake)
    case DeqResumes(t, wake) => TryDeq(f.(nonEmpty := Resume(f.nonEmpty, t)), t, wake)
    case SpuriousEnq(t) => f.(hasSpace := Signal(f.hasSpace, Some(t)))
    case SpuriousDeq(t) => f.(nonEmpty := Signal(f.nonEmpty, Some(t)))
  }

  ghost predicate Behaviour<T>(states: seq<Queue<T>>, steps: seq<Step<T>>) {
    && |states| == |steps| + 1
    && states[0] == Empty(states[0].limit)
    && forall i :: 0 <= i < |steps| ==> Enabled(states[i], steps[i]) && states[i + 1] == Apply(states[i], steps[i])
  }

  /** First in, first out, and never over the limit. */
  ghost predicate Orderly<T>(f: Queue<T>) {
    && f.entered == f.left + f.q
    && (f.limit != 0 ==> |f.q| <= f.limit)
    && (f.hasSpace.waiting != {} ==> f.limit != 0)
    && f.hasSpace.waiting + f.hasSpace.woken <= f.wants.Keys
  }

  /** Apart from `deq` dequeuers and `enq` enqueuers that are in the mutex, every waiter that could go on is matched
      by a signalled thread. */
  ghost predicate NoLostWakeup<T>(f: Queue<T>, deq: nat, enq: nat) {
    && CondOk(f.nonEmpty) && Matched(f.nonEmpty, |f.q| - deq)
    && CondOk(f.hasSpace) && Matched(f.hasSpace, f.limit - |f.q| - enq)
  }

  ghost predicate QueueOk<T>(f: Queue<T>) {
    Orderly(f) && NoLostWakeup(f, 0, 0)
  }

  lemma TryEnqKeeps<T>(f: Queue<T>, t: Thread, v: T, wake: Option<Thread>)
    requires Orderly(f) && NoLostWakeup(f, 0, 1) && Outside(f.hasSpace, t) && MayWake(f.nonEmpty, wake)
    ensures QueueOk(TryEnq(f, t, v, wake))
  {
    if HasRoom(f) {
      assert f.left + (f.q + [v]) == (f.left + f.q) + [v];
      SignalMatches(f.nonEmpty, wake, |f.q|);
    }
  }

  lemma TryDeqKeeps<T>(f: Queue<T>, t: Thread, wake: Option<Thread>)
    requires Orderly(f) && NoLostWakeup(f, 1, 0) && Outside(f.nonEmpty, t) && MayWake(f.hasSpace, wake)
    ensures QueueOk(TryDeq(f, t, wake))
  {
    if f.q != [] {
      assert (f.left + [f.q[0]]) + f.q[1..] == f.left + f.q;
      SignalMatches(f.hasSpace, wake, f.limit - |f.q|);
    }
  }

  lemma StepKeeps<T>(f: Queue<T>, step: Step<T>)
    requires QueueOk(f) && Enabled(f, step)
    ensures QueueOk(Apply(f, step)) && Apply(f, step).limit == f.limit
  {
    match step
    case Enq(t, v, blocking, wake) =>
      if HasRoom(f) || blocking { TryEnqKeeps(f, t, v, wake); }
    case EnqResumes(t, wake) =>
      ResumeMatches(f.hasSpace, t, f.limit - |f.q|);
      TryEnqKeeps(f.(hasSpace := Resume(f.hasSpace, t)), t, f.wants[t], wake);
    case Deq(t, wake) =>
      TryDeqKeeps(f, t, wake);
    case DeqResumes(t, wake) =>
      ResumeMatches(f.nonEmpty, t, |f.q|);
      TryDeqKeeps(f.(nonEmpty := Resume(f.nonEmpty, t)), t, wake);
    case SpuriousEnq(t) =>
      SignalMatches(f.hasSpace, Some(t), f.limit - |f.q|);
    case SpuriousDeq(t) =>
      SignalMatches(f.nonEmpty, Some(t), |f.q|);
  }

  /** For any number of threads, any barging and any spurious wakeups: values leave in the order in which they came, a
      limited queue never holds more than its limit, and no wakeup is lost. */
  lemma {:induction false} QueueIsSafe<T>(states: seq<Queue<T>>, steps: seq<Step<T>>, k: nat)
    requires Behaviour(states, steps) && k < |states|
    ensures states[k].entered == states[k].left + states[k].q
    ensures var m := states[0].limit; states[k].limit == m && (m != 0 ==> |states[k].q| <= m)
    ensures states[k].nonEmpty.waiting != {} ==> |states[k].q| <= |states[k].nonEmpty.woken|
    ensures states[k].hasSpace.waiting != {} ==> states[0].limit - |states[k].q| <= |states[k].hasSpace.woken|
    ensures QueueOk(states[k])
  {
    if k > 0 {
      QueueIsSafe(states, steps, k - 1);
      StepKeeps(states[k - 1], steps[k - 1]);
    }
  }

  /** So when nobody is on the way, a waiting dequeuer means an empty queue, and a waiting enqueuer a full one. */
  lemma WaitersHaveReason<T>(f: Queue<T>)
    requires QueueOk(f)
    ensures f.nonEmpty.waiting != {} && f.nonEmpty.woken == {} ==> f.q == []
    ensures f.hasSpace.waiting != {} && f.hasSpace.woken == {} ==> f.limit != 0 && |f.q| == f.limit
  {
  }

  predicate Full<T>(f: Queue<T>) {
    f.limit != 0 && |f.q| == f.limit
  }

  /** What enq does, in any state of any behaviour, at its first round or a later one: with room its value goes in and
      the thread goes on; a full queue makes it wait with its value if it is blocking, and changes nothing at all if
      it is not. So a non-blocking enq never waits. */
  lemma EnqAnswers<T>(states: seq<Queue<T>>, steps: seq<Step<T>>, k: nat,
        t: Thread, v: T, blocking: bool, wake: Option<Thread>)
    requires Behaviour(states, steps) && k < |steps|
    requires steps[k] == Enq(t, v, blocking, wake)
             || (steps[k] == EnqResumes(t, wake) && blocking && v == states[k].wants[t])
    ensures !Full(states[k]) ==>
              && states[k + 1].entered == states[k].entered + [v] && states[k + 1].q == states[k].q + [v]
              && Outside(states[k + 1].hasSpace, t) && states[k + 1].wants == states[k].wants
    ensures Full(states[k]) && blocking ==>
              && states[k + 1].entered == states[k].entered && states[k + 1].q == states[k].q
              && t in states[k + 1].hasSpace.waiting && states[k + 1].wants == states[k].wants[t := v]
    ensures Full(states[k]) && !blocking ==> states[k + 1] == states[k]
    ensures !blocking ==> Outside(states[k + 1].hasSpace, t)
  {
    QueueIsSafe(states, steps, k);
    hide Signal;
  }

  /** What deq does: it takes the first value if there is one, and waits otherwise. */
  lemma DeqAnswers<T>(states: seq<Queue<T>>, steps: seq<Step<T>>, k: nat, t: Thread, wake: Option<Thread>)
    requires Behaviour(states, steps) && k < |steps| && (steps[k] == Deq(t, wake) || steps[k] == DeqResumes(t, wake))
    ensures states[k].q != [] ==>
              && states[k + 1].left == states[k].left + [states[k].q[0]] && [states[k].q[0]] + states[k + 1].q == states[k].q
              && Outside(states[k + 1].nonEmpty, t)
    ensures states[k].q == [] ==>
              && states[k + 1].left == states[k].left && states[k + 1].q == []
              && t in states[k + 1].nonEmpty.waiting
  {
    QueueIsSafe(states, steps, k);
    hide Signal;
  }

  class Monitor<T(0)> {
    const limit: nat
    var q: seq<T>
    var nonEmpty: Cond
    var hasSpace: Cond
    ghost var wants: map<Thread, T>
    ghost var entered: seq<T>
    ghost var left: seq<T>

    ghost function Value(): Queue<T>
      reads this
    {
      Queue(limit, q, nonEmpty, hasSpace, wants, entered, left)
    }

    constructor (m: nat)
      ensures Value() == Empty(m)
    {
      limit := m;
      q, nonEmpty, hasSpace, wants, entered, left := [], NOBODY, NOBODY, map[], [], [];
    }

    /** One round of fifo::enq, from taking the mutex or coming back from the wait; `wake` is whom the signal picks.
        */
    method EnqRound(t: Thread, e: T, blocking: bool, resumed: bool, wake: Option<Thread>) returns (done: bool)
      requires Enabled(Value(), if resumed then EnqResumes(t, wake) else Enq(t, e, blocking, wake))
      requires resumed ==> e == wants[t] && blocking
      modifies this
      ensures done == HasRoom(old(Value()))
      ensures Value() == Apply(old(Value()), if resumed then EnqResumes(t, wake) else Enq(t, e, blocking, wake))
    {
      if resumed {
        hasSpace := Resume(hasSpace, t);
      }
      if limit == 0 || |q| < limit {
        q := q + [e];
        entered := entered + [e];
        nonEmpty := Signal(nonEmpty, wake);
        return true;
      }
      if blocking {
        hasSpace := Wait(hasSpace, t);
        wants := wants[t := e];
      }
      return false;
    }

    /** One round of fifo::deq. */
    method DeqRound(t: Thread, resumed: bool, wake: Option<Thread>) returns (e: Option<T>)
      requires Enabled(Value(), if resumed then DeqResumes(t, wake) else Deq(t, wake))
      modifies this
      ensures e == if old(q) == [] then None else Some(old(q)[0])
      ensures Value() == Apply(old(Value()), if resumed then DeqResumes(t, wake) else Deq(t, wake))
    {
      if resumed {
        nonEmpty := Resume(nonEmpty, t);
      }
      if q == [] {
        nonEmpty := Wait(nonEmpty, t);
        return None;
      }
      e := Some(q[0]);
      left := left + [q[0]];
      q := q[1..];
      if limit != 0 && |q| < limit {
        hasSpace := Signal(hasSpace, wake);
      }
    }
  }
}
