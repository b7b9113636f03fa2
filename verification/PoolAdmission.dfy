/** Which jobs a pool accepts: one that is made to block its adders keeps every job, and one that is not turns a job
    away exactly when it is full, and never keeps its caller waiting. */
module PoolAdmission {
  import opened Common
  import opened Condition
  import Fifo
  import opened ThreadPool
  import opened PoolShutdown

  lemma SameKind(p: Pool, step: Step)
    requires Enabled(p, step)
    ensures Apply(p, step).blocking == p.blocking && |Apply(p, step).workers| == |p.workers|
  {
  }

  lemma {:induction false} StaysOfItsKind(states: seq<Pool>, steps: seq<Step>, k: nat)
    requires Behaviour(states, steps) && k < |states|
    ensures states[k].blocking == states[0].blocking && |states[k].workers| == |states[0].workers|
  {
    hide Apply, Enabled;
    if k > 0 {
      StaysOfItsKind(states, steps, k - 1);
      SameKind(states[k - 1], steps[k - 1]);
    }
  }

  ghost predicate NobodyWaitsToAdd(p: Pool) {
    && (forall t :: t in p.jobs.hasSpace.waiting || t in p.jobs.hasSpace.woken ==> t == |p.workers|)
    && CondOk(p.jobs.hasSpace)
  }

  lemma NobodyStarts(p: Pool, step: Step)
    requires NobodyWaitsToAdd(p) && !p.blocking && Enabled(p, step)
    ensures NobodyWaitsToAdd(Apply(p, step))
  {
  }

  /** In a pool made not to block, no thread but the destructor's is ever in a wait for room. */
  lemma {:induction false} NoAdderWaits(states: seq<Pool>, steps: seq<Step>, k: nat, t: Thread)
    requires Behaviour(states, steps) && k < |states| && !states[0].blocking
    ensures NobodyWaitsToAdd(states[k])
    ensures t != |states[0].workers| ==> Outside(states[k].jobs.hasSpace, t)
  {
    StaysOfItsKind(states, steps, k);
    hide Apply, Enabled;
    if k > 0 {
      StaysOfItsKind(states, steps, k - 1);
      NoAdderWaits(states, steps, k - 1, t);
      NobodyStarts(states[k - 1], steps[k - 1]);
    }
  }

  // --- every job offered is accounted for ---

  /** The job of an offer that the pool has not turned away. */
  function Kept(p: Pool, step: Step): seq<nat> {
    if step.AddJob? && (p.blocking || !Fifo.Full(p.jobs)) then [step.id] else []
  }

  ghost function KeptIn(states: seq<Pool>, steps: seq<Step>): seq<nat>
    requires |states| == |steps| + 1
  {
    if steps == [] then []
    else var n := |steps| - 1; KeptIn(states[..n + 1], steps[..n]) + Kept(states[n], steps[n])
  }

  /** The threads that wait for room with this job. */
  ghost function WaitingWith(f: Fifo.Queue<Job>, id: nat): set<Thread> {
    set t | t in f.hasSpace.waiting + f.hasSpace.woken && t in f.wants && f.wants[t] == Work(id)
  }

  lemma WaitsOnce(f: Fifo.Queue<Job>, id: nat, t: Thread, v: Job)
    requires Outside(f.hasSpace, t)
    ensures var f' := f.(hasSpace := Wait(f.hasSpace, t), wants := f.wants[t := v]);
      |WaitingWith(f', id)| == |WaitingWith(f, id)| + if v == Work(id) then 1 else 0
  {
    var f' := f.(hasSpace := Wait(f.hasSpace, t), wants := f.wants[t := v]);
    assert WaitingWith(f', id) == WaitingWith(f, id) + if v == Work(id) then {t} else {};
  }

  lemma WaitsNoMore(f: Fifo.Queue<Job>, id: nat, t: Thread)
    requires CondOk(f.hasSpace) && t in f.hasSpace.woken && t in f.wants
    ensures var f' := f.(hasSpace := Resume(f.hasSpace, t));
      |WaitingWith(f', id)| == |WaitingWith(f, id)| - if f.wants[t] == Work(id) then 1 else 0
  {
    var f' := f.(hasSpace := Resume(f.hasSpace, t));
    assert WaitingWith(f', id) == WaitingWith(f, id) - {t};
  }

  lemma SignalMoves(f: Fifo.Queue<Job>, id: nat, wake: Option<Thread>)
    requires MayWake(f.hasSpace, wake)
    ensures WaitingWith(f.(hasSpace := Signal(f.hasSpace, wake)), id) == WaitingWith(f, id)
  {
  }

  /** How often this job is in the queue's history or waits to get in. */
  ghost function Known(f: Fifo.Queue<Job>, id: nat): nat {
    multiset(JobsOf(f.entered))[id] + |WaitingWith(f, id)|
  }

  /** One round of enq, waits and all: its job becomes known, or a pill does not. */
  lemma EnqKnows(f: Fifo.Queue<Job>, id: nat, t: Thread, v: Job, wake: Option<Thread>)
    requires Outside(f.hasSpace, t)
    ensures Known(Fifo.TryEnq(f, t, v, wake), id) == Known(f, id) + if v == Work(id) then 1 else 0
  {
    var f' := Fifo.TryEnq(f, t, v, wake);
    if Fifo.HasRoom(f) {
      JobsOfAppend(f.entered, v);
      assert WaitingWith(f', id) == WaitingWith(f, id);
    } else {
      WaitsOnce(f, id, t, v);
    }
    hide JobsOf;
  }

  lemma DeqKnows(f: Fifo.Queue<Job>, id: nat, t: Thread, wake: Option<Thread>)
    requires MayWake(f.hasSpace, wake)
    ensures Known(Fifo.TryDeq(f, t, wake), id) == Known(f, id)
  {
    SignalMoves(f, id, wake);
    hide JobsOf;
    var f' := Fifo.TryDeq(f, t, wake);
    assert WaitingWith(f', id) == WaitingWith(f, id);
  }

  lemma StepKnows(f: Fifo.Queue<Job>, step: Fifo.Step<Job>, id: nat)
    requires Fifo.QueueOk(f) && Fifo.Enabled(f, step)
    ensures Known(Fifo.Apply(f, step), id) ==
      Known(f, id) + if step.Enq? && step.v == Work(id) && (step.blocking || !Fifo.Full(f)) then 1 else 0
  {
    match step
    case Enq(t, v, blocking, wake) => EnqKnows(f, id, t, v, wake);
    case EnqResumes(t, wake) =>
      WaitsNoMore(f, id, t);
      EnqKnows(f.(hasSpace := Resume(f.hasSpace, t)), id, t, f.wants[t], wake);
    case Deq(t, wake) => DeqKnows(f, id, t, wake);
    case DeqResumes(t, wake) => DeqKnows(f.(nonEmpty := Resume(f.nonEmpty, t)), id, t, wake);
    case SpuriousEnq(t) => SignalMoves(f, id, Some(t));
    case SpuriousDeq(t) => assert WaitingWith(Fifo.Apply(f, step), id) == WaitingWith(f, id);
  }

  lemma PoolStepKnows(p: Pool, step: Step, id: nat)
    requires Fifo.QueueOk(p.jobs) && Enabled(p, step)
    ensures Known(Apply(p, step).jobs, id) == Known(p.jobs, id) + multiset(Kept(p, step))[id]
  {
    if OnQueue(p, step).Some? {
      StepKnows(p.jobs, OnQueue(p, step).value, id);
    }
    hide Known, Fifo.Apply, Fifo.Enabled;
  }

  lemma KeptOneMore(states: seq<Pool>, steps: seq<Step>, k: nat)
    requires |states| == |steps| + 1 && 0 < k <= |steps|
    ensures KeptIn(states[..k + 1], steps[..k]) == KeptIn(states[..k], steps[..k - 1]) + Kept(states[k - 1], steps[k - 1])
  {
    assert states[..k + 1][..k] == states[..k] && steps[..k][..k - 1] == steps[..k - 1];
  }

  /** Conservation: at any time each job has been accepted, or is held by threads that wait for room, exactly as often
      as it was offered and not turned away. A blocking pool turns nothing away, and another one does so exactly when
      it is full. */
  lemma {:induction false} OffersAreConserved(states: seq<Pool>, steps: seq<Step>, k: nat, id: nat)
    requires Behaviour(states, steps) && k < |states|
    ensures multiset(KeptIn(states[..k + 1], steps[..k]))[id]
            == multiset(Accepted(states[k]))[id] + |WaitingWith(states[k].jobs, id)|
  {
    if k > 0 {
      OffersAreConserved(states, steps, k - 1, id);
      BehaviourOk(states, steps, k - 1);
      PoolStepKnows(states[k - 1], steps[k - 1], id);
      KeptOneMore(states, steps, k);
      hide KeptIn;
    } else {
      assert WaitingWith(states[0].jobs, id) == {};
    }
    hide Apply, Enabled, PoolOk, JobsOf, WaitingWith;
  }

  lemma NobodyHolds(p: Pool, id: nat)
    requires AddersOk(p) && !p.d.NotBegun?
    ensures WaitingWith(p.jobs, id) == {}
  {
  }

  /** So when the destructor of a pool with workers is through, every job that was offered and not turned away has
      run, exactly as often as it was. */
  lemma EveryKeptJobRuns(states: seq<Pool>, steps: seq<Step>, k: nat, id: nat)
    requires Behaviour(states, steps) && k < |states| && Done(states[k]) && states[0].workers != []
    ensures multiset(states[k].ran)[id] == multiset(KeptIn(states[..k + 1], steps[..k]))[id]
  {
    StaysOfItsKind(states, steps, k);
    OffersAreConserved(states, steps, k, id);
    ShutdownDrains(states, steps, k);
    BehaviourOk(states, steps, k);
    NobodyHolds(states[k], id);
    hide Behaviour, KeptIn, JobsOf;
  }
}
