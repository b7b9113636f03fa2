/** The worker pool (ThrPool) over the bounded queue, and its shutdown by one poison pill for each worker. Workers are
    the threads 0 .. n - 1, the thread that runs the destructor is n, and all others may add jobs until it starts. */
module ThreadPool {
  import opened Common
  import opened Condition
  import Fifo

  datatype Job = Work(id: nat) | Pill

  datatype Phase = Ready | Waiting | Running(id: nat) | Exited

  datatype Destructor =
    | NotBegun
    | Adding(i: nat)      // about to enqueue pill i
    | Blocked(i: nat)     // waiting for room for pill i
    | Joining(i: nat)     // waiting for worker i; the destructor is through when i is the number of workers

  datatype Pool = Pool(
    blocking: bool,
    workers: seq<Phase>,
    jobs: Fifo.Queue<Job>,
    d: Destructor,
    ran: seq<nat>)        // history: the jobs whose functions have returned

  function Start(n: nat, blocking: bool): Pool {
    Pool(blocking, seq(n, i => Ready), Fifo.Empty(100 * n), NotBegun, [])
  }

  datatype Step =
    | AddJob(t: Thread, id: nat, wake: Option<Thread>)
    | AddResumes(t: Thread, wake: Option<Thread>)
    | BeginDestroy
    | AddPill(wake: Option<Thread>)
    | PillResumes(wake: Option<Thread>)
    | Join
    | Take(w: nat, wake: Option<Thread>)
    | TakeResumes(w: nat, wake: Option<Thread>)
    | Finish(w: nat)
    | SpuriousAdd(t: Thread)
    | SpuriousTake(t: Thread)

  /** What a step asks of the queue, if anything. */
  function OnQueue(p: Pool, step: Step): Option<Fifo.Step<Job>> {
    match step
    case AddJob(t, id, wake) => Some(Fifo.Enq(t, Work(id), p.blocking, wake))
    case AddResumes(t, wake) => Some(Fifo.EnqResumes(t, wake))
    case AddPill(wake) => Some(Fifo.Enq(|p.workers|, Pill, true, wake))
    case PillResumes(wake) => Some(Fifo.EnqResumes(|p.workers|, wake))
    case Take(w, wake) => Some(Fifo.Deq(w, wake))
    case TakeResumes(w, wake) => Some(Fifo.DeqResumes(w, wake))
    case SpuriousAdd(t) => Some(Fifo.SpuriousEnq(t))
    case SpuriousTake(t) => Some(Fifo.SpuriousDeq(t))
    case _ => None
  }

  predicate MayMove(p: Pool, step: Step) {
    var n := |p.workers|;
    match step
    case AddJob(t, id, wake) => t > n && p.d.NotBegun?
    case AddResumes(t, wake) => t > n
    case BeginDestroy => p.d.NotBegun? && p.jobs.hasSpace == NOBODY
    case AddPill(wake) => p.d.Adding?
    case PillResumes(wake) => p.d.Blocked?
    case Join => p.d.Joining? && p.d.i < n && p.workers[p.d.i].Exited?
    case Take(w, wake) => w < n && p.workers[w].Ready?
    case TakeResumes(w, wake) => w < n && p.workers[w].Waiting?
    case Finish(w) => w < n && p.workers[w].Running?
    case SpuriousAdd(t) => true
    case SpuriousTake(t) => true
  }

  predicate Enabled(p: Pool, step: Step) {
    && MayMove(p, step)
    && (OnQueue(p, step).Some? ==> Fifo.Enabled(p.jobs, OnQueue(p, step).value))
  }

  /** Where the destructor goes when `i` pills are in the queue. */
  function AfterPills(n: nat, i: nat): Destructor {
    if i < n then Adding(i) else Joining(0)
  }

  /** What a worker does after one round of deq on the queue `f`. */
  function AfterTake(f: Fifo.Queue<Job>): Phase {
    if f.q == [] then Waiting else match f.q[0] case Work(id) => Running(id) case Pill => Exited
  }

  function Queued(p: Pool, step: Step): Fifo.Queue<Job>
    requires Enabled(p, step)
  {
    if OnQueue(p, step).Some? then Fifo.Apply(p.jobs, OnQueue(p, step).value) else p.jobs
  }

  function Apply(p: Pool, step: Step): Pool
    requires Enabled(p, step)
  {
    var n := |p.workers|;
    var p' := p.(jobs := Queued(p, step));
    match step
    case BeginDestroy => p'.(d := AfterPills(n, 0))
    case AddPill(wake) => p'.(d := if Fifo.HasRoom(p.jobs) then AfterPills(n, p.d.i + 1) else Blocked(p.d.i))
    case PillResumes(wake) => p'.(d := if Fifo.HasRoom(p.jobs) then AfterPills(n, p.d.i + 1) else Blocked(p.d.i))
    case Join => p'.(d := Joining(p.d.i + 1))
    case Take(w, wake) => p'.(workers := p.workers[w := AfterTake(p.jobs)])
    case TakeResumes(w, wake) => p'.(workers := p.workers[w := AfterTake(p.jobs)])
    case Finish(w) => p'.(workers := p.workers[w := Ready], ran := p.ran + [p.workers[w].id])
    case _ => p'
  }

  ghost predicate Moves(states: seq<Pool>, steps: seq<Step>) {
    && |states| == |steps| + 1
    && forall i :: 0 <= i < |steps| ==> Enabled(states[i], steps[i]) && states[i + 1] == Apply(states[i], steps[i])
  }

  ghost predicate Behaviour(states: seq<Pool>, steps: seq<Step>) {
    && Moves(states, steps)
    && states[0] == Start(|states[0].workers|, states[0].blocking)
  }

  // --- counting ---

  function JobsOf(s: seq<Job>): seq<nat> {
    if s == [] then []
    else JobsOf(s[..|s| - 1]) + match s[|s| - 1] case Work(id) => [id] case Pill => []
  }

  function Tally(ws: seq<Phase>, g: Phase -> nat): nat {
    if ws == [] then 0 else Tally(ws[..|ws| - 1], g) + g(ws[|ws| - 1])
  }

  /** The tally for one job: is it running here? */
  function Runs(id: nat): Phase -> nat {
    (ph: Phase) => if ph == Running(id) then 1 else 0
  }

  function IsExit(ph: Phase): nat {
    if ph.Exited? then 1 else 0
  }

  lemma {:induction false} TallyUpdate(ws: seq<Phase>, g: Phase -> nat, w: nat, ph: Phase)
    requires w < |ws|
    ensures Tally(ws[w := ph], g) == Tally(ws, g) - g(ws[w]) + g(ph)
  {
    var last := |ws| - 1;
    if w < last {
      assert ws[w := ph][..last] == ws[..last][w := ph];
      TallyUpdate(ws[..last], g, w, ph);
    } else {
      assert ws[w := ph][..last] == ws[..last];
    }
  }

  lemma {:induction false} ExitsCount(ws: seq<Phase>)
    ensures Tally(ws, IsExit) <= |ws|
    ensures Tally(ws, IsExit) == |ws| <==> forall w :: 0 <= w < |ws| ==> ws[w].Exited?
  {
    if ws != [] {
      var last := |ws| - 1;
      ExitsCount(ws[..last]);
      if Tally(ws, IsExit) == |ws| {
        forall w | 0 <= w < |ws| ensures ws[w].Exited? {
          if w < last { assert ws[..last][w].Exited?; }
        }
      }
    }
  }

  lemma {:induction false} NoneTallied(ws: seq<Phase>, g: Phase -> nat)
    requires forall w :: 0 <= w < |ws| ==> g(ws[w]) == 0
    ensures Tally(ws, g) == 0
  {
    if ws != [] { NoneTallied(ws[..|ws| - 1], g); }
  }

  lemma JobsOfAppend(s: seq<Job>, j: Job)
    ensures JobsOf(s + [j]) == JobsOf(s) + match j case Work(id) => [id] case Pill => []
  {
    assert (s + [j])[..|s|] == s;
  }

  // --- the invariant ---

  /** How many pills the destructor has put in. */
  function Pills(p: Pool): nat {
    match p.d
    case NotBegun => 0
    case Adding(i) => i
    case Blocked(i) => i
    case Joining(i) => |p.workers|
  }

  /** The pills are the last things that entered the queue. */
  ghost predicate PillsLast(s: seq<Job>, pills: nat) {
    && pills <= |s|
    && forall k :: 0 <= k < |s| ==> (s[k].Pill? <==> |s| - pills <= k)
  }

  ghost predicate WorkersOk(p: Pool) {
    && (forall w :: 0 <= w < |p.workers| ==> (p.workers[w].Waiting? <==> !Outside(p.jobs.nonEmpty, w)))
    && (forall t :: t in p.jobs.nonEmpty.waiting || t in p.jobs.nonEmpty.woken ==> t < |p.workers|)
  }

  ghost predicate AddersOk(p: Pool) {
    && (forall t :: t in p.jobs.wants ==> (p.jobs.wants[t].Pill? <==> t == |p.workers|))
    && (forall t :: t in p.jobs.hasSpace.waiting || t in p.jobs.hasSpace.woken ==>
                      if p.d.NotBegun? then t > |p.workers| else t == |p.workers|)
    && (p.d.Blocked? <==> !Outside(p.jobs.hasSpace, |p.workers|))
  }

  ghost predicate DestructorOk(p: Pool) {
    match p.d
    case NotBegun => true
    case Adding(i) => i < |p.workers|
    case Blocked(i) => i < |p.workers|
    case Joining(i) => i <= |p.workers| && forall w :: 0 <= w < i ==> p.workers[w].Exited?
  }

  /** Every job taken has returned or is running, as often as it was taken. */
  ghost predicate JobAccounted(p: Pool, id: nat) {
    multiset(p.ran)[id] + Tally(p.workers, Runs(id)) == multiset(JobsOf(p.jobs.left))[id]
  }

  /** Every pill taken has ended one worker. */
  ghost predicate PillsAccounted(p: Pool) {
    Tally(p.workers, IsExit) + |JobsOf(p.jobs.left)| == |p.jobs.left|
  }

  ghost predicate PoolOk(p: Pool) {
    && Fifo.QueueOk(p.jobs) && p.jobs.limit == 100 * |p.workers|
    && PillsLast(p.jobs.entered, Pills(p))
    && WorkersOk(p) && AddersOk(p) && DestructorOk(p) && PillsAccounted(p)
    && (forall id: nat :: JobAccounted(p, id))
  }

  lemma QueuedOk(p: Pool, step: Step)
    requires Fifo.QueueOk(p.jobs) && Enabled(p, step)
    ensures Fifo.QueueOk(Apply(p, step).jobs) && Apply(p, step).jobs.limit == p.jobs.limit
    ensures |Apply(p, step).workers| == |p.workers|
  {
    if OnQueue(p, step).Some? {
      Fifo.StepKeeps(p.jobs, OnQueue(p, step).value);
    }
  }

  lemma PillsStayLast(p: Pool, step: Step)
    requires PillsLast(p.jobs.entered, Pills(p)) && AddersOk(p) && DestructorOk(p) && Enabled(p, step)
    ensures PillsLast(Apply(p, step).jobs.entered, Pills(Apply(p, step)))
  {
  }

  lemma WorkersStayOk(p: Pool, step: Step)
    requires WorkersOk(p) && CondOk(p.jobs.nonEmpty) && Enabled(p, step)
    ensures WorkersOk(Apply(p, step))
  {
  }

  lemma AddersStayOk(p: Pool, step: Step)
    requires AddersOk(p) && CondOk(p.jobs.hasSpace) && Enabled(p, step)
    ensures AddersOk(Apply(p, step))
  {
  }

  lemma DestructorStaysOk(p: Pool, step: Step)
    requires DestructorOk(p) && Enabled(p, step)
    ensures DestructorOk(Apply(p, step))
  {
  }

  /** What a taken job or pill does to the books. */
  lemma LeftGrows(f: Fifo.Queue<Job>, f': Fifo.Queue<Job>, id: nat)
    requires f'.left == f.left + if f.q == [] then [] else [f.q[0]]
    ensures multiset(JobsOf(f'.left))[id] == multiset(JobsOf(f.left))[id] + Runs(id)(AfterTake(f))
    ensures |f'.left| - |JobsOf(f'.left)| == |f.left| - |JobsOf(f.left)| + IsExit(AfterTake(f))
  {
    if f.q == [] {
      assert f'.left == f.left;
    } else {
      JobsOfAppend(f.left, f.q[0]);
    }
  }

  lemma TakeAccounted(p: Pool, w: nat, f: Fifo.Queue<Job>, id: nat)
    requires JobAccounted(p, id) && PillsAccounted(p) && w < |p.workers| && (p.workers[w].Ready? || p.workers[w].Waiting?)
    requires f.left == p.jobs.left + if p.jobs.q == [] then [] else [p.jobs.q[0]]
    ensures var p' := p.(jobs := f, workers := p.workers[w := AfterTake(p.jobs)]);
      JobAccounted(p', id) && PillsAccounted(p')
  {
    hide JobsOf, Tally, AfterTake;
    TallyUpdate(p.workers, IsExit, w, AfterTake(p.jobs));
    TallyUpdate(p.workers, Runs(id), w, AfterTake(p.jobs));
    LeftGrows(p.jobs, f, id);
  }

  lemma FinishAccounted(p: Pool, w: nat, id: nat)
    requires JobAccounted(p, id) && PillsAccounted(p) && Enabled(p, Finish(w))
    ensures var p' := Apply(p, Finish(w)); JobAccounted(p', id) && PillsAccounted(p')
  {
    hide JobsOf, Tally;
    TallyUpdate(p.workers, IsExit, w, Ready);
    TallyUpdate(p.workers, Runs(id), w, Ready);
  }

  lemma QueuedLeft(p: Pool, step: Step)
    requires Enabled(p, step)
    ensures Queued(p, step).left ==
      p.jobs.left + if (step.Take? || step.TakeResumes?) && p.jobs.q != [] then [p.jobs.q[0]] else []
  {
  }

  lemma StaysAccounted(p: Pool, step: Step, id: nat)
    requires JobAccounted(p, id) && PillsAccounted(p) && Enabled(p, step)
    ensures JobAccounted(Apply(p, step), id) && PillsAccounted(Apply(p, step))
  {
    QueuedLeft(p, step);
    if step.Finish? {
      FinishAccounted(p, step.w, id);
    } else if step.Take? || step.TakeResumes? {
      TakeAccounted(p, step.w, Queued(p, step), id);
      hide JobAccounted, PillsAccounted, AfterTake;
    } else {
      assert Apply(p, step).jobs.left == p.jobs.left && Apply(p, step).workers == p.workers && Apply(p, step).ran == p.ran;
    }
    hide JobsOf, Tally, Queued, OnQueue, Fifo.Enabled;
  }

  lemma StepKeeps(p: Pool, step: Step)
    requires PoolOk(p) && Enabled(p, step)
    ensures PoolOk(Apply(p, step))
    ensures |Apply(p, step).workers| == |p.workers|
  {
    QueuedOk(p, step);
    PillsStayLast(p, step);
    WorkersStayOk(p, step);
    AddersStayOk(p, step);
    DestructorStaysOk(p, step);
    StaysAccounted(p, step, 0);
    forall id: nat ensures JobAccounted(Apply(p, step), id) { StaysAccounted(p, step, id); }
    hide Apply, PillsLast, WorkersOk, AddersOk, DestructorOk, JobAccounted, PillsAccounted;
  }

  lemma {:induction false} BehaviourOk(states: seq<Pool>, steps: seq<Step>, k: nat)
    requires Behaviour(states, steps) && k < |states|
    ensures PoolOk(states[k]) && |states[k].workers| == |states[0].workers|
  {
    if k == 0 {
      var p := states[0];
      NoneTallied(p.workers, IsExit);
      forall id: nat ensures JobAccounted(p, id) { NoneTallied(p.workers, Runs(id)); }
    } else {
      BehaviourOk(states, steps, k - 1);
      StepKeeps(states[k - 1], steps[k - 1]);
    }
  }

  /** The pool as an object; each method is what one thread does between two points at which others can come in. */
  class ThrPool {
    const nthreads: nat
    const blockadd: bool
    const jobq: Fifo.Monitor<Job>
    var th: seq<Phase>
    var d: Destructor
    ghost var ran: seq<nat>

    ghost function Value(): Pool
      reads this, jobq
    {
      Pool(blockadd, th, jobq.Value(), d, ran)
    }

    constructor (sz: nat, blocking: bool)
      ensures Value() == Start(sz, blocking) && fresh(jobq) && nthreads == sz
    {
      nthreads, blockadd := sz, blocking;
      jobq := new Fifo.Monitor(100 * sz);
      th, d, ran := [], NotBegun, [];
      new;
      var i := 0;
      while i < sz
        invariant i <= sz && th == seq(i, k => Ready) && d == NotBegun && ran == []
        invariant jobq.Value() == Fifo.Empty(100 * sz) && nthreads == sz && blockadd == blocking
      {
        th := th + [Ready];
        i := i + 1;
      }
    }

    /** addJob, up to its first wait. */
    method AddJob(t: Thread, id: nat, wake: Option<Thread>) returns (done: bool)
      requires Enabled(Value(), Step.AddJob(t, id, wake))
      modifies jobq
      ensures Value() == Apply(old(Value()), Step.AddJob(t, id, wake))
      ensures done == Fifo.HasRoom(old(jobq.Value()))
    {
      done := jobq.EnqRound(t, Work(id), blockadd, false, wake);
    }

    /** takeJob in worker `w`, as far as it gets, and the exit of the worker's loop when it says no. */
    method TakeJob(w: nat, resumed: bool, wake: Option<Thread>)
      requires Enabled(Value(), if resumed then TakeResumes(w, wake) else Take(w, wake))
      modifies this, jobq
      ensures Value() == Apply(old(Value()), if resumed then TakeResumes(w, wake) else Take(w, wake))
    {
      var j := jobq.DeqRound(w, resumed, wake);
      if j.None? {
        th := th[w := Waiting];
      } else if j.value != Pill {
        th := th[w := Running(j.value.id)];
      } else {
        th := th[w := Exited];
      }
    }

    /** One turn of the destructor's first loop, as far as it gets. */
    method Poison(resumed: bool, wake: Option<Thread>)
      requires |th| == nthreads && (resumed ==> nthreads in jobq.wants && jobq.wants[nthreads] == Pill)
      requires Enabled(Value(), if resumed then PillResumes(wake) else AddPill(wake))
      modifies this, jobq
      ensures Value() == Apply(old(Value()), if resumed then PillResumes(wake) else AddPill(wake))
    {
      var i := d.i;
      var done := jobq.EnqRound(nthreads, Pill, true, resumed, wake);
      if !done {
        d := Blocked(i);
      } else if i + 1 < nthreads {
        d := Adding(i + 1);
      } else {
        d := Joining(0);
      }
    }
  }
}
