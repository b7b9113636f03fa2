/** The lock server's monitor: one mutex, and one condition variable per lock. A handler that waits leaves the mutex,
    so each handler is a few sections that run under it. */
module LockServer {
  import opened Common

  /** A handler thread, named by the call it serves: client nonce and xid. */
  type Worker = (nat, nat)

  datatype LockState = Free | Locked

  datatype Lock = Lock(state: LockState, owner: nat)

  /** What a blocked acquire is after. */
  datatype Want = Want(clt: nat, lid: nat)

  datatype Change = Granted(lid: nat, clt: nat) | Freed(lid: nat)

  datatype Monitor = Monitor(
    locks: map<nat, Lock>,          // server_map
    waiting: map<Worker, Want>,     // in pthread_cond_wait
    woken: map<Worker, Want>,       // signalled, not yet back in the mutex
    changes: seq<Change>)           // history

  datatype Step =
    | AcquireEnters(w: Worker, clt: nat, lid: nat)
    | AcquireResumes(w: Worker)
    | Releases(clt: nat, lid: nat, wake: Option<Worker>)
    | SpuriousWakeup(w: Worker)

  predicate IsLocked(m: Monitor, lid: nat) {
    lid in m.locks && m.locks[lid].state.Locked?
  }

  predicate WaitsFor(m: Monitor, w: Worker, lid: nat) {
    w in m.waiting && m.waiting[w].lid == lid
  }

  predicate WokenFor(m: Monitor, w: Worker, lid: nat) {
    w in m.woken && m.woken[w].lid == lid
  }

  function Grant(m: Monitor, clt: nat, lid: nat): Monitor {
    m.(locks := m.locks[lid := Lock(Locked, clt)], changes := m.changes + [Granted(lid, clt)])
  }

  /** lock_server::acquire up to its return or its wait. */
  function Enter(m: Monitor, w: Worker, clt: nat, lid: nat): Monitor {
    if IsLocked(m, lid) then m.(waiting := m.waiting[w := Want(clt, lid)])
    else Grant(m, clt, lid)
  }

  /** One more look at the lock by an acquire that was woken. */
  function Resume(m: Monitor, w: Worker): Monitor
    requires w in m.woken
  {
    var want := m.woken[w];
    var m := m.(woken := m.woken - {w});
    if IsLocked(m, want.lid) then m.(waiting := m.waiting[w := want])
    else Grant(m, want.clt, want.lid)
  }

  /** pthread_cond_signal wakes one of the waiters, if there are any. */
  ghost predicate MayWake(m: Monitor, lid: nat, wake: Option<Worker>) {
    match wake
    case None => forall w :: !WaitsFor(m, w, lid)
    case Some(w) => WaitsFor(m, w, lid)
  }

  function Wake(m: Monitor, w: Worker): Monitor
    requires w in m.waiting
  {
    m.(waiting := m.waiting - {w}, woken := m.woken[w := m.waiting[w]])
  }

  predicate OwnedBy(m: Monitor, lid: nat, clt: nat) {
    lid in m.locks && m.locks[lid].owner == clt
  }

  /** lock_server::release. Only the owner is compared, so the last owner may release a lock that is free. */
  function Release(m: Monitor, clt: nat, lid: nat, wake: Option<Worker>): Monitor
    requires wake.Some? ==> wake.value in m.waiting
  {
    if OwnedBy(m, lid, clt) then
      var m' := m.(locks := m.locks[lid := Lock(Free, clt)],
                   changes := if IsLocked(m, lid) then m.changes + [Freed(lid)] else m.changes);
      if wake.Some? then Wake(m', wake.value) else m'
    else m
  }

  ghost predicate Enabled(m: Monitor, step: Step) {
    match step
    case AcquireEnters(w, clt, lid) => w !in m.waiting && w !in m.woken
    case AcquireResumes(w) => w in m.woken
    case Releases(clt, lid, wake) => MayWake(m, lid, wake)
    case SpuriousWakeup(w) => w in m.waiting
  }

  ghost function Apply(m: Monitor, step: Step): Monitor
    requires Enabled(m, step)
  {
    match step
    case AcquireEnters(w, clt, lid) => Enter(m, w, clt, lid)
    case AcquireResumes(w) => Resume(m, w)
    case Releases(clt, lid, wake) => Release(m, clt, lid, wake)
    case SpuriousWakeup(w) => Wake(m, w)
  }

  const EMPTY := Monitor(map[], map[], map[], [])

  ghost predicate Behaviour(states: seq<Monitor>, steps: seq<Step>) {
    && |states| == |steps| + 1
    && states[0] == EMPTY
    && forall i :: 0 <= i < |steps| ==> Enabled(states[i], steps[i]) && states[i + 1] == Apply(states[i], steps[i])
  }

  /** Does the last change of this lock leave it granted? */
  function HeldAfter(changes: seq<Change>, lid: nat): bool {
    if changes == [] then false
    else
      var last := changes[|changes| - 1];
      if last.lid == lid then last.Granted? else HeldAfter(changes[..|changes| - 1], lid)
  }

  /** Grants and releases of each lock take turns, beginning with a grant. */
  ghost predicate Alternating(changes: seq<Change>) {
    changes != [] ==>
      var before, last := changes[..|changes| - 1], changes[|changes| - 1];
      Alternating(before) && last.Granted? == !HeldAfter(before, last.lid)
  }

  /** A free lock that somebody waits for has a woken acquirer on its way. */
  ghost predicate NoLostWakeup(m: Monitor) {
    forall lid: nat, w :: lid in m.locks && m.locks[lid].state.Free? && WaitsFor(m, w, lid) ==>
      exists v :: WokenFor(m, v, lid)
  }

  ghost predicate WaitersOk(m: Monitor) {
    && (forall w :: w in m.waiting ==> w !in m.woken && m.waiting[w].lid in m.locks)
    && (forall w :: w in m.woken ==> m.woken[w].lid in m.locks)
  }

  ghost predicate MonitorInv(m: Monitor) {
    && Alternating(m.changes)
    && (forall lid: nat :: HeldAfter(m.changes, lid) <==> IsLocked(m, lid))
    && WaitersOk(m)
    && NoLostWakeup(m)
  }

  lemma HeldAfterOne(changes: seq<Change>, change: Change)
    ensures forall lid :: HeldAfter(changes + [change], lid) ==
                          if change.lid == lid then change.Granted? else HeldAfter(changes, lid)
    ensures Alternating(changes + [change]) <==> Alternating(changes) && change.Granted? == !HeldAfter(changes, change.lid)
  {
    assert (changes + [change])[..|changes|] == changes;
  }

  lemma GrantKeeps(m: Monitor, clt: nat, lid: nat)
    requires Alternating(m.changes) && (forall l: nat :: HeldAfter(m.changes, l) <==> IsLocked(m, l))
    requires WaitersOk(m) && !IsLocked(m, lid)
    requires forall l: nat, w :: l != lid && l in m.locks && m.locks[l].state.Free? && WaitsFor(m, w, l) ==>
               exists v :: WokenFor(m, v, l)
    ensures MonitorInv(Grant(m, clt, lid))
  {
    HeldAfterOne(m.changes, Granted(lid, clt));
    var m' := Grant(m, clt, lid);
    forall l: nat, w | l in m'.locks && m'.locks[l].state.Free? && WaitsFor(m', w, l)
      ensures exists v :: WokenFor(m', v, l)
    {
      assert WaitsFor(m, w, l);
      var v :| WokenFor(m, v, l);
      assert WokenFor(m', v, l);
    }
  }

  lemma WakeKeeps(m: Monitor, w: Worker)
    requires MonitorInv(m) && w in m.waiting
    ensures MonitorInv(Wake(m, w))
  {
    var m' := Wake(m, w);
    forall l: nat, u | l in m'.locks && m'.locks[l].state.Free? && WaitsFor(m', u, l)
      ensures exists v :: WokenFor(m', v, l)
    {
      assert WaitsFor(m, u, l);
      var v :| WokenFor(m, v, l);
      assert WokenFor(m', v, l);
    }
  }

  lemma ResumeKeeps(m: Monitor, w: Worker)
    requires MonitorInv(m) && w in m.woken
    ensures MonitorInv(Resume(m, w))
  {
    var want := m.woken[w];
    var n := m.(woken := m.woken - {w});
    forall l: nat, u | l != want.lid && l in n.locks && n.locks[l].state.Free? && WaitsFor(n, u, l)
      ensures exists v :: WokenFor(n, v, l)
    {
      assert WaitsFor(m, u, l);
      var v :| WokenFor(m, v, l);
      assert WokenFor(n, v, l);
    }
    if IsLocked(n, want.lid) {
      var m' := Resume(m, w);
      forall l: nat, u | l in m'.locks && m'.locks[l].state.Free? && WaitsFor(m', u, l)
        ensures exists v :: WokenFor(m', v, l)
      {
        assert WaitsFor(n, u, l);
        var v :| WokenFor(n, v, l);
        assert WokenFor(m', v, l);
      }
    } else {
      GrantKeeps(n, want.clt, want.lid);
    }
  }

  lemma EnterKeeps(m: Monitor, w: Worker, clt: nat, lid: nat)
    requires MonitorInv(m) && w !in m.waiting && w !in m.woken
    ensures MonitorInv(Enter(m, w, clt, lid))
  {
    if IsLocked(m, lid) {
      var m' := Enter(m, w, clt, lid);
      forall l: nat, u | l in m'.locks && m'.locks[l].state.Free? && WaitsFor(m', u, l)
        ensures exists v :: WokenFor(m', v, l)
      {
        assert WaitsFor(m, u, l);
        var v :| WokenFor(m, v, l);
        assert WokenFor(m', v, l);
      }
    } else {
      GrantKeeps(m, clt, lid);
    }
  }

  lemma ReleaseAlternates(m: Monitor, clt: nat, lid: nat, wake: Option<Worker>)
    requires MonitorInv(m) && MayWake(m, lid, wake)
    ensures var m' := Release(m, clt, lid, wake);
            && Alternating(m'.changes)
            && (forall l: nat :: HeldAfter(m'.changes, l) <==> IsLocked(m', l))
            && WaitersOk(m')
  {
    hide NoLostWakeup;
    if IsLocked(m, lid) {
      HeldAfterOne(m.changes, Freed(lid));
    }
  }

  lemma ReleaseWakes(m: Monitor, clt: nat, lid: nat, wake: Option<Worker>)
    requires WaitersOk(m) && NoLostWakeup(m) && MayWake(m, lid, wake)
    ensures NoLostWakeup(Release(m, clt, lid, wake))
  {
    var m' := Release(m, clt, lid, wake);
    forall l: nat, u | l in m'.locks && m'.locks[l].state.Free? && WaitsFor(m', u, l)
      ensures exists v :: WokenFor(m', v, l)
    {
      assert WaitsFor(m, u, l);
      if OwnedBy(m, lid, clt) && l == lid {
        assert WokenFor(m', wake.value, l);
      } else {
        var v :| WokenFor(m, v, l);
        assert WokenFor(m', v, l);
      }
    }
  }

  lemma ReleaseKeeps(m: Monitor, clt: nat, lid: nat, wake: Option<Worker>)
    requires MonitorInv(m) && MayWake(m, lid, wake)
    ensures MonitorInv(Release(m, clt, lid, wake))
  {
    ReleaseAlternates(m, clt, lid, wake);
    ReleaseWakes(m, clt, lid, wake);
  }

  lemma StepKeeps(m: Monitor, step: Step)
    requires MonitorInv(m) && Enabled(m, step)
    ensures MonitorInv(Apply(m, step))
  {
    match step
    case AcquireEnters(w, clt, lid) => EnterKeeps(m, w, clt, lid);
    case AcquireResumes(w) => ResumeKeeps(m, w);
    case Releases(clt, lid, wake) => ReleaseKeeps(m, clt, lid, wake);
    case SpuriousWakeup(w) => WakeKeeps(m, w);
  }

  /** Whoever calls acquire and release, in any order: grants and effective releases of each lock alternate, the lock
      is LOCKED exactly after a grant, and no wakeup is lost. */
  lemma {:induction false} MonitorIsSafe(states: seq<Monitor>, steps: seq<Step>, k: nat)
    requires Behaviour(states, steps) && k < |states|
    ensures MonitorInv(states[k])
  {
    if k > 0 {
      MonitorIsSafe(states, steps, k - 1);
      StepKeeps(states[k - 1], steps[k - 1]);
    }
  }

  // --- what each call does, told from the changes so far ---

  /** Whom the lock was granted to last. */
  function LastClient(changes: seq<Change>, lid: nat): Option<nat> {
    if changes == [] then None
    else
      var last := changes[|changes| - 1];
      if last.lid == lid && last.Granted? then Some(last.clt) else LastClient(changes[..|changes| - 1], lid)
  }

  lemma LastClientOne(changes: seq<Change>, change: Change, lid: nat)
    ensures LastClient(changes + [change], lid) ==
            if change.lid == lid && change.Granted? then Some(change.clt) else LastClient(changes, lid)
  {
    assert (changes + [change])[..|changes|] == changes;
  }

  /** The owner that the server has noted is the last one it granted the lock to, also when the lock is free again. */
  ghost predicate OwnerOk(m: Monitor, lid: nat) {
    LastClient(m.changes, lid) == if lid in m.locks then Some(m.locks[lid].owner) else None
  }

  lemma OwnerStaysOk(m: Monitor, step: Step, lid: nat)
    requires OwnerOk(m, lid) && Enabled(m, step)
    ensures OwnerOk(Apply(m, step), lid)
  {
    forall change ensures LastClient(m.changes + [change], lid) ==
      if change.lid == lid && change.Granted? then Some(change.clt) else LastClient(m.changes, lid)
    {
      LastClientOne(m.changes, change, lid);
    }
    hide LastClient, MayWake;
  }

  lemma {:induction false} OwnerIsLastClient(states: seq<Monitor>, steps: seq<Step>, k: nat, lid: nat)
    requires Behaviour(states, steps) && k < |states|
    ensures OwnerOk(states[k], lid)
  {
    hide Apply, Enabled;
    if k > 0 {
      OwnerIsLastClient(states, steps, k - 1, lid);
      OwnerStaysOk(states[k - 1], steps[k - 1], lid);
    }
  }

  /** An acquire, at its first look at the lock or a later one: it gets the lock exactly if it is not granted at
      present, and waits otherwise. */
  lemma AcquireAnswers(states: seq<Monitor>, steps: seq<Step>, k: nat, w: Worker, want: Want)
    requires Behaviour(states, steps) && k < |steps|
    requires steps[k] == AcquireEnters(w, want.clt, want.lid)
             || (steps[k] == AcquireResumes(w) && want == states[k].woken[w])
    ensures var m, m' := states[k], states[k + 1];
      && w !in m'.woken
      && if HeldAfter(m.changes, want.lid) then
           m'.changes == m.changes && w in m'.waiting && m'.waiting[w] == want && m'.locks == m.locks
         else
           m'.changes == m.changes + [Granted(want.lid, want.clt)] && w !in m'.waiting
  {
    MonitorIsSafe(states, steps, k);
    hide HeldAfter, NoLostWakeup, Alternating;
  }

  /** A release frees the lock exactly if it is granted at present, to this client; and it wakes a waiter of the lock,
      if there is one, exactly if this client was the last to have it. */
  lemma ReleaseAnswers(states: seq<Monitor>, steps: seq<Step>, k: nat, clt: nat, lid: nat, wake: Option<Worker>)
    requires Behaviour(states, steps) && k < |steps| && steps[k] == Releases(clt, lid, wake)
    ensures var m, m' := states[k], states[k + 1]; var mine := LastClient(m.changes, lid) == Some(clt);
      && m'.changes == m.changes + (if mine && HeldAfter(m.changes, lid) then [Freed(lid)] else [])
      && (mine ==> forall w :: WaitsFor(m, w, lid) ==> wake.Some? && WaitsFor(m, wake.value, lid))
      && m'.waiting.Keys == m.waiting.Keys - (if mine && wake.Some? then {wake.value} else {})
      && m'.woken.Keys == m.woken.Keys + (if mine && wake.Some? then {wake.value} else {})
  {
    MonitorIsSafe(states, steps, k);
    OwnerIsLastClient(states, steps, k, lid);
    hide HeldAfter, NoLostWakeup, Alternating, LastClient;
  }

  class LockServerMonitor {
    var serverMap: map<nat, Lock>
    var waiting: map<Worker, Want>
    var woken: map<Worker, Want>
    ghost var changes: seq<Change>

    ghost function Value(): Monitor
      reads this
    {
      Monitor(serverMap, waiting, woken, changes)
    }

    constructor ()
      ensures Value() == EMPTY
    {
      serverMap, waiting, woken, changes := map[], map[], map[], [];
    }

    /** lock_server::acquire, from taking the mutex to returning or waiting. */
    method AcquireEnter(w: Worker, clt: nat, lid: nat) returns (granted: bool)
      modifies this
      ensures Value() == Enter(old(Value()), w, clt, lid)
      ensures granted == !IsLocked(old(Value()), lid)
    {
      if lid in serverMap {
        if serverMap[lid].state == Free {
          serverMap := serverMap[lid := Lock(Locked, clt)];
        } else {
          waiting := waiting[w := Want(clt, lid)];
          return false;
        }
      } else {
        serverMap := serverMap[lid := Lock(Locked, clt)];
      }
      changes := changes + [Granted(lid, clt)];
      return true;
    }

    /** The loop test of the waiting acquire, once pthread_cond_wait has returned. */
    method AcquireResume(w: Worker) returns (granted: bool)
      requires w in woken && woken[w].lid in serverMap
      modifies this
      ensures Value() == Resume(old(Value()), w)
      ensures granted == !IsLocked(old(Value()), old(woken)[w].lid)
    {
      var want := woken[w];
      woken := woken - {w};
      if serverMap[want.lid].state == Locked {
        waiting := waiting[w := want];
        return false;
      }
      serverMap := serverMap[want.lid := Lock(Locked, want.clt)];
      changes := changes + [Granted(want.lid, want.clt)];
      return true;
    }

    /** lock_server::release; `wake` is the waiter that pthread_cond_signal picks. */
    method ReleaseLock(clt: nat, lid: nat, wake: Option<Worker>)
      requires MayWake(Value(), lid, wake)
      modifies this
      ensures Value() == Release(old(Value()), clt, lid, wake)
    {
      if lid in serverMap {
        if serverMap[lid].owner == clt {
          changes := if serverMap[lid].state == Locked then changes + [Freed(lid)] else changes;
          serverMap := serverMap[lid := Lock(Free, clt)];
          if wake.Some? {
            woken := woken[wake.value := waiting[wake.value]];
            waiting := waiting - {wake.value};
          }
        }
      }
    }
  }
}
