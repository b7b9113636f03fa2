/** What the pool's shutdown does, and that it ends. */
module PoolShutdown {
  import opened Common
  import opened Condition
  import Fifo
  import opened ThreadPool

  // --- what has happened when the destructor is through ---

  predicate Done(p: Pool) {
    p.d == Joining(|p.workers|)
  }

  function Accepted(p: Pool): seq<nat> {
    JobsOf(p.jobs.entered)
  }

  lemma {:induction false} JobsBeforePills(s: seq<Job>, pills: nat)
    requires PillsLast(s, pills)
    ensures |JobsOf(s)| == |s| - pills
    ensures forall k :: 0 <= k < |s| - pills ==> s[k] == Work(JobsOf(s)[k])
  {
    if s != [] {
      var front := s[..|s| - 1];
      JobsBeforePills(front, if pills == 0 then 0 else pills - 1);
      forall k | 0 <= k < |s| - pills ensures s[k] == Work(JobsOf(s)[k]) {
        if k < |s| - 1 { assert s[k] == front[k]; }
      }
    }
  }

  /** Jobs are taken in the order in which they were accepted, and no pill is taken while a job is left. */
  lemma JobsAreTakenBeforePills(states: seq<Pool>, steps: seq<Step>, k: nat)
    requires Behaviour(states, steps) && k < |states|
    ensures var p := states[k]; p.jobs.left <= p.jobs.entered
    ensures var p := states[k];
      forall i :: 0 <= i < |p.jobs.left| ==>
        p.jobs.left[i] == if i < |Accepted(p)| then Work(Accepted(p)[i]) else Pill
  {
    BehaviourOk(states, steps, k);
    JobsBeforePills(states[k].jobs.entered, Pills(states[k]));
  }

  lemma {:induction false} JobsOfPrefix(s: seq<Job>, n: nat)
    requires n <= |s|
    ensures |s[..n]| - |JobsOf(s[..n])| <= |s| - |JobsOf(s)|
  {
    if n < |s| {
      assert s[..|s| - 1][..n] == s[..n];
      JobsOfPrefix(s[..|s| - 1], n);
    } else {
      assert s[..n] == s;
    }
  }

  /** Once some pill is left in the queue, not every worker has had one. */
  lemma PillsLeft(p: Pool)
    requires PoolOk(p) && p.jobs.q != [] && p.jobs.q[|p.jobs.q| - 1].Pill?
    ensures Tally(p.workers, IsExit) < Pills(p)
  {
    var s := p.jobs.entered;
    var front := s[..|s| - 1];
    JobsBeforePills(s, Pills(p));
    assert p.jobs.left <= front by { assert s == p.jobs.left + p.jobs.q; }
    JobsOfPrefix(front, |p.jobs.left|);
    assert front[..|p.jobs.left|] == p.jobs.left;
  }

  lemma NobodyTakesInOneStep(p: Pool, step: Step)
    requires Enabled(p, step) && p.workers == []
    ensures var p' := Apply(p, step); p'.workers == [] && p'.jobs.left == p.jobs.left && p'.ran == p.ran
  {
  }

  lemma {:induction false} NobodyTakes(states: seq<Pool>, steps: seq<Step>, k: nat)
    requires Behaviour(states, steps) && k < |states| && states[0].workers == []
    ensures states[k].workers == [] && states[k].jobs.left == [] && states[k].ran == []
  {
    if k > 0 {
      NobodyTakes(states, steps, k - 1);
      NobodyTakesInOneStep(states[k - 1], steps[k - 1]);
    }
  }

  /** When the destructor is through, every worker has exited, each on a pill of its own. Every job that was ever
      accepted has then been run exactly once, unless the pool was made with no workers at all. */
  lemma ShutdownDrains(states: seq<Pool>, steps: seq<Step>, k: nat)
    requires Behaviour(states, steps) && k < |states| && Done(states[k])
    ensures var p := states[k];
      && (forall w :: 0 <= w < |p.workers| ==> p.workers[w].Exited?)
      && |p.jobs.left| - |JobsOf(p.jobs.left)| == |p.workers|
      && (multiset(p.ran) == multiset(Accepted(p)) && p.jobs.q == [] <==> p.workers != [] || Accepted(p) == [])
  {
    var p := states[k];
    BehaviourOk(states, steps, k);
    ExitsCount(p.workers);
    if p.workers == [] {
      NobodyTakes(states, steps, k);
      assert |multiset(p.ran)| == 0 && |multiset(Accepted(p))| == |Accepted(p)|;
      JobsBeforePills(p.jobs.entered, Pills(p));
    } else {
      hide Behaviour;
      AllAreRun(p);
    }
  }

  /** Before the joins are through with it, a queue of a pool that has workers holds no job behind the pills taken. */
  lemma AllAreTaken(p: Pool)
    requires PoolOk(p) && Done(p) && p.workers != []
    ensures p.jobs.q == [] && p.jobs.left == p.jobs.entered
  {
    ExitsCount(p.workers);
    if p.jobs.q != [] {
      assert p.jobs.entered[|p.jobs.entered| - 1] == p.jobs.q[|p.jobs.q| - 1];
      PillsLeft(p);
    }
  }

  lemma RunAsOftenAsTaken(p: Pool, id: nat)
    requires JobAccounted(p, id) && forall w :: 0 <= w < |p.workers| ==> p.workers[w].Exited?
    ensures multiset(p.ran)[id] == multiset(JobsOf(p.jobs.left))[id]
  {
    NoneTallied(p.workers, Runs(id));
  }

  lemma AllAreRun(p: Pool)
    requires PoolOk(p) && Done(p) && p.workers != []
    ensures p.jobs.q == [] && multiset(p.ran) == multiset(Accepted(p))
  {
    AllAreTaken(p);
    hide JobsOf, PillsLast, WorkersOk, AddersOk, JobAccounted, PillsAccounted, Fifo.QueueOk;
    forall id: nat ensures multiset(p.ran)[id] == multiset(Accepted(p))[id] {
      RunAsOftenAsTaken(p, id);
    }
  }

  /** A pool of no workers accepts a job and is through with its shutdown without running it. */
  lemma EmptyPoolLosesItsJob() returns (states: seq<Pool>, steps: seq<Step>)
    ensures |states| == 3 && Behaviour(states, steps) && Done(states[2])
    ensures Accepted(states[2]) == [7] && states[2].ran == []
  {
    var start := Start(0, true);
    var added := start.(jobs := start.jobs.(q := [Work(7)], entered := [Work(7)]));
    states := [start, added, added.(d := Joining(0))];
    steps := [AddJob(1, 7, None), BeginDestroy];
    assert start.jobs.q + [Work(7)] == [Work(7)] && start.jobs.entered + [Work(7)] == [Work(7)];
    assert states[1] == Apply(states[0], steps[0]);
    assert states[2] == Apply(states[1], steps[1]);
    assert states[2].jobs.entered[..0] == [];
    assert JobsOf([Work(7)]) == [7];
  }

  // --- it ends ---

  predicate Spurious(step: Step) {
    step.SpuriousAdd? || step.SpuriousTake?
  }

  function Load(ph: Phase): nat {
    match ph
    case Ready => 2
    case Waiting => 1
    case Running(id) => 3
    case Exited => 0
  }

  /** The steps that the destructor has before it, apart from those for the pills. */
  function AheadOfDestructor(p: Pool): nat
    requires DestructorOk(p) && !p.d.NotBegun?
  {
    var n := |p.workers|;
    match p.d
    case Adding(i) => n + 3
    case Blocked(i) => n + 2 + |p.jobs.hasSpace.woken|
    case Joining(i) => n - i
  }

  function Measure(p: Pool): nat
    requires DestructorOk(p) && !p.d.NotBegun?
  {
    5 * (|p.workers| - Pills(p)) + 3 * |p.jobs.q| + Tally(p.workers, Load) + |p.jobs.nonEmpty.woken| + AheadOfDestructor(p)
  }

  /** What one round of deq does to the queue's part of the measure. */
  lemma DeqLowers(f: Fifo.Queue<Job>, w: Thread, wake: Option<Thread>)
    requires CondOk(f.hasSpace) && MayWake(f.hasSpace, wake)
    ensures var f' := Fifo.TryDeq(f, w, wake);
      && |f'.nonEmpty.woken| == |f.nonEmpty.woken|
      && 3 * |f'.q| + |f'.hasSpace.woken| + Load(AfterTake(f)) <= 3 * |f.q| + |f.hasSpace.woken| + 1
  {
    SignalMatches(f.hasSpace, wake, 0);
  }

  lemma TakeLowers(p: Pool, step: Step)
    requires CondOk(p.jobs.hasSpace) && CondOk(p.jobs.nonEmpty)
    requires DestructorOk(p) && !p.d.NotBegun? && Enabled(p, step) && (step.Take? || step.TakeResumes?)
    ensures DestructorOk(Apply(p, step)) && Measure(Apply(p, step)) < Measure(p)
  {
    TallyUpdate(p.workers, Load, step.w, AfterTake(p.jobs));
    DestructorStaysOk(p, step);
    hide Tally, AfterTake, Fifo.TryDeq, DestructorOk, CondOk;
    if step.Take? {
      DeqLowers(p.jobs, step.w, step.wake);
    } else {
      ResumeMatches(p.jobs.nonEmpty, step.w, 0);
      DeqLowers(p.jobs.(nonEmpty := Resume(p.jobs.nonEmpty, step.w)), step.w, step.wake);
    }
  }

  /** What one round of enq does to the queue's part of the measure. */
  lemma EnqLowers(f: Fifo.Queue<Job>, t: Thread, wake: Option<Thread>)
    requires CondOk(f.nonEmpty) && MayWake(f.nonEmpty, wake)
    ensures var f' := Fifo.TryEnq(f, t, Pill, wake);
      && |f'.hasSpace.woken| == |f.hasSpace.woken|
      && |f'.nonEmpty.woken| <= |f.nonEmpty.woken| + (if Fifo.HasRoom(f) then 1 else 0)
      && |f'.q| == |f.q| + if Fifo.HasRoom(f) then 1 else 0
  {
    SignalMatches(f.nonEmpty, wake, 0);
  }

  lemma DestructorLowers(p: Pool, step: Step)
    requires CondOk(p.jobs.hasSpace) && CondOk(p.jobs.nonEmpty)
    requires DestructorOk(p) && !p.d.NotBegun? && Enabled(p, step) && (step.AddPill? || step.PillResumes? || step.Join?)
    requires p.d.Adding? ==> p.jobs.hasSpace.woken == {}
    ensures DestructorOk(Apply(p, step)) && Measure(Apply(p, step)) < Measure(p)
  {
    DestructorStaysOk(p, step);
    hide Tally, CondOk, Fifo.TryEnq;
    var n := |p.workers|;
    if step.AddPill? {
      EnqLowers(p.jobs, n, step.wake);
    } else if step.PillResumes? {
      ResumeMatches(p.jobs.hasSpace, n, 0);
      EnqLowers(p.jobs.(hasSpace := Resume(p.jobs.hasSpace, n)), n, step.wake);
    }
  }

  lemma OthersLower(p: Pool, step: Step)
    requires CondOk(p.jobs.hasSpace) && CondOk(p.jobs.nonEmpty)
    requires DestructorOk(p) && !p.d.NotBegun? && Enabled(p, step) && (step.Finish? || Spurious(step))
    ensures DestructorOk(Apply(p, step)) && !Apply(p, step).d.NotBegun?
    ensures Measure(Apply(p, step)) <= Measure(p) + (if Spurious(step) then 1 else -1)
  {
    DestructorStaysOk(p, step);
    hide Tally;
    match step
    case Finish(w) => TallyUpdate(p.workers, Load, w, Ready);
    case SpuriousAdd(t) => SignalMatches(p.jobs.hasSpace, Some(t), 0);
    case SpuriousTake(t) => SignalMatches(p.jobs.nonEmpty, Some(t), 0);
  }

  lemma NobodyElseAdds(p: Pool)
    requires AddersOk(p) && p.d.Adding?
    ensures p.jobs.hasSpace.woken == {}
  {
  }

  /** From the start of the shutdown on, every step but a spurious wakeup lowers the measure, and one of those raises
      it by no more than one. */
  lemma StepLowers(p: Pool, step: Step)
    requires PoolOk(p) && !p.d.NotBegun? && Enabled(p, step)
    ensures DestructorOk(Apply(p, step)) && !Apply(p, step).d.NotBegun?
    ensures Measure(Apply(p, step)) <= Measure(p) + (if Spurious(step) then 1 else -1)
  {
    if step.Take? || step.TakeResumes? {
      TakeLowers(p, step);
    } else if step.Finish? || Spurious(step) {
      OthersLower(p, step);
    } else if step.AddPill? || step.PillResumes? || step.Join? {
      if p.d.Adding? { NobodyElseAdds(p); }
      DestructorLowers(p, step);
    }
    hide Measure, Queued, DestructorOk;
  }

  function SpuriousIn(steps: seq<Step>): nat {
    if steps == [] then 0 else SpuriousIn(steps[..|steps| - 1]) + if Spurious(steps[|steps| - 1]) then 1 else 0
  }

  /** The shutdown takes a bounded number of steps: its measure at the start, and two for each spurious wakeup. */
  lemma {:induction false} ShutdownIsBounded(states: seq<Pool>, steps: seq<Step>)
    requires Moves(states, steps) && PoolOk(states[0]) && !states[0].d.NotBegun?
    ensures var p := states[|steps|]; PoolOk(p) && !p.d.NotBegun? && DestructorOk(p)
    ensures |steps| + Measure(states[|steps|]) <= Measure(states[0]) + 2 * SpuriousIn(steps)
  {
    if steps != [] {
      var k := |steps| - 1;
      ShutdownIsBounded(states[..k + 1], steps[..k]);
      StepKeeps(states[k], steps[k]);
      StepLowers(states[k], steps[k]);
    }
  }

  lemma SomeWaiter(c: Cond) returns (wake: Option<Thread>)
    ensures MayWake(c, wake)
  {
    if c.waiting == {} {
      wake := None;
    } else {
      var t :| t in c.waiting;
      wake := Some(t);
    }
  }

  lemma ExitsArePills(p: Pool)
    requires PoolOk(p)
    ensures Tally(p.workers, IsExit) <= Pills(p)
    ensures p.jobs.q == [] ==> Tally(p.workers, IsExit) == Pills(p)
  {
    var s := p.jobs.entered;
    JobsBeforePills(s, Pills(p));
    JobsOfPrefix(s, |p.jobs.left|);
    assert s[..|p.jobs.left|] == p.jobs.left;
    if p.jobs.q == [] { assert s == p.jobs.left; }
  }

  /** With all workers waiting or gone and none of them signalled, the destructor itself can go on. */
  lemma DestructorCanGoOn(p: Pool) returns (step: Step)
    requires PoolOk(p) && !p.d.NotBegun? && !Done(p)
    requires p.jobs.nonEmpty.woken == {}
    requires forall w :: 0 <= w < |p.workers| ==> p.workers[w].Waiting? || p.workers[w].Exited?
    ensures Enabled(p, step) && !Spurious(step)
  {
    var n := |p.workers|;
    ExitsCount(p.workers);
    ExitsArePills(p);
    assert p.jobs.q == [] || forall w :: 0 <= w < n ==> p.workers[w].Exited?;
    var wake := SomeWaiter(p.jobs.nonEmpty);
    if p.d.Adding? {
      step := AddPill(wake);
    } else if p.d.Blocked? {
      assert n in p.jobs.hasSpace.waiting ==> |p.jobs.q| >= p.jobs.limit || n in p.jobs.hasSpace.woken by {
        Fifo.WaitersHaveReason(p.jobs);
      }
      step := PillResumes(wake);
    } else {
      step := Join;
    }
  }

  /** The shutdown never gets stuck: until the destructor is through, some thread can take a step that is not a spurious
      wakeup. With the bound above, every join returns. */
  lemma ShutdownNeverSticks(p: Pool) returns (step: Step)
    requires PoolOk(p) && !p.d.NotBegun? && !Done(p)
    ensures Enabled(p, step) && !Spurious(step)
  {
    var wake := SomeWaiter(p.jobs.hasSpace);
    if w :| 0 <= w < |p.workers| && p.workers[w].Ready? {
      step := Take(w, wake);
    } else if w :| 0 <= w < |p.workers| && p.workers[w].Running? {
      step := Finish(w);
    } else if w :| w in p.jobs.nonEmpty.woken {
      step := TakeResumes(w, wake);
    } else {
      step := DestructorCanGoOn(p);
    }
  }
}
