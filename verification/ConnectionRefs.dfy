/** Who owns a client's connections. rpcc keeps one reference in chan_ and gives every call its own; callers replace a
    dead chan_ under chan_m_, while the connections die and other calls end at any time. */
module ConnectionRefs {
  import opened Common

  type Id = nat
  type Thread = nat

  datatype Conn = Conn(refno: int, dead: bool, deleted: bool)

  /** A pointer to a connection: with a reference, or after giving it up and before being overwritten. */
  datatype Ref = Null | Holds(c: Id) | Dangling(c: Id)

  /** Where the thread in get_refconn is. */
  datatype Phase = Checking | Dropping | Connecting | Releasing | Taking

  datatype Refs = Refs(
    conns: map<Id, Conn>,              // every connection there ever was
    chan: Ref,
    frames: map<Thread, Ref>,          // the `ch` of each call1 that is running
    inside: Option<(Thread, Phase)>,   // the owner of chan_m_
    destroyed: bool)

  const FRESH := Refs(map[], Null, map[], None, false)

  function Incref(c: Conn): Conn {
    c.(refno := c.refno + 1)
  }

  function Decref(c: Conn): Conn {
    var r := c.refno - 1;
    Conn(r, c.dead, c.deleted || (r == 0 && c.dead))
  }

  datatype Step =
    | StartCall(t: Thread)
    | Lock(t: Thread)
    | Check
    | Drop
    | Connect(made: Option<Id>)
    | Release
    | Take
    | Use(t: Thread)
    | EndCall(t: Thread)
    | Die(c: Id)
    | Destroy

  predicate At(s: Refs, ph: Phase) {
    s.inside.Some? && s.inside.value.1 == ph && s.inside.value.0 in s.frames
  }

  predicate InGetRefconn(s: Refs, t: Thread) {
    s.inside.Some? && s.inside.value.0 == t
  }

  /** The connection that a step touches, if any. */
  function Touches(s: Refs, step: Step): Option<Id> {
    match step
    case Check => Pointee(s.chan)
    case Drop => Pointee(s.chan)
    case Release => if s.inside.Some? && s.inside.value.0 in s.frames then Pointee(s.frames[s.inside.value.0]) else None
    case Take => Pointee(s.chan)
    case Use(t) => if t in s.frames then Pointee(s.frames[t]) else None
    case EndCall(t) => if t in s.frames then Pointee(s.frames[t]) else None
    case Destroy => Pointee(s.chan)
    case _ => None
  }

  function Pointee(r: Ref): Option<Id> {
    if r.Null? then None else Some(r.c)
  }

  predicate MayMove(s: Refs, step: Step) {
    && !s.destroyed
    && match step
       case StartCall(t) => t !in s.frames
       case Lock(t) => t in s.frames && s.inside.None?
       case Check => At(s, Checking)
       case Drop => At(s, Dropping) && s.chan != Null
       case Connect(made) => At(s, Connecting) && (made.Some? ==> made.value !in s.conns)
       case Release => At(s, Releasing)
       case Take => At(s, Taking) && s.chan != Null
       case Use(t) => t in s.frames && !InGetRefconn(s, t) && s.frames[t] != Null
       case EndCall(t) => t in s.frames && !InGetRefconn(s, t)
       case Die(c) => c in s.conns && !s.conns[c].deleted
       case Destroy => s.frames == map[] && s.inside.None?
  }

  predicate Enabled(s: Refs, step: Step) {
    MayMove(s, step) && (Touches(s, step).Some? ==> Touches(s, step).value in s.conns)
  }

  function Apply(s: Refs, step: Step): Refs
    requires Enabled(s, step)
  {
    match step
    case StartCall(t) => s.(frames := s.frames[t := Null])
    case Lock(t) => s.(inside := Some((t, Checking)))
    case Check =>
      var t := s.inside.value.0;
      s.(inside := Some((t, if s.chan == Null then Connecting
                            else if s.conns[s.chan.c].dead then Dropping else Releasing)))
    case Drop =>
      var c := s.chan.c;
      s.(conns := s.conns[c := Decref(s.conns[c])], chan := Dangling(c), inside := Some((s.inside.value.0, Connecting)))
    case Connect(made) =>
      if made.None? then s.(chan := Null, inside := None)
      else s.(conns := s.conns[made.value := Conn(1, false, false)], chan := Holds(made.value),
              inside := Some((s.inside.value.0, Releasing)))
    case Release =>
      var t := s.inside.value.0;
      var s' := s.(inside := Some((t, Taking)));
      if s.frames[t] == Null then s'
      else s'.(conns := s.conns[s.frames[t].c := Decref(s.conns[s.frames[t].c])],
               frames := s.frames[t := Dangling(s.frames[t].c)])
    case Take =>
      var t, c := s.inside.value.0, s.chan.c;
      s.(conns := s.conns[c := Incref(s.conns[c])], frames := s.frames[t := Holds(c)], inside := None)
    case Use(t) => s
    case EndCall(t) =>
      var s' := s.(frames := s.frames - {t});
      if s.frames[t] == Null then s' else s'.(conns := s.conns[s.frames[t].c := Decref(s.conns[s.frames[t].c])])
    case Die(c) => s.(conns := s.conns[c := s.conns[c].(dead := true)])
    case Destroy =>
      if s.chan == Null then s.(destroyed := true)
      else
        var c := s.chan.c;
        s.(conns := s.conns[c := Decref(s.conns[c].(dead := true))], chan := Dangling(c), destroyed := true)
  }

  ghost predicate Behaviour(states: seq<Refs>, steps: seq<Step>) {
    && |states| == |steps| + 1
    && states[0] == FRESH
    && forall i :: 0 <= i < |steps| ==> Enabled(states[i], steps[i]) && states[i + 1] == Apply(states[i], steps[i])
  }

  // --- conservation ---

  ghost function Holders(frames: map<Thread, Ref>, c: Id): set<Thread> {
    set t | t in frames && frames[t] == Holds(c)
  }

  ghost function References(s: Refs, c: Id): nat {
    (if s.chan == Holds(c) then 1 else 0) + |Holders(s.frames, c)|
  }

  /** refno_ counts the references, and a connection is deleted when, and only when, there are none. */
  ghost predicate ConnOk(s: Refs, c: Id) {
    c in s.conns ==>
      && s.conns[c].refno == References(s, c)
      && (s.conns[c].deleted <==> References(s, c) == 0)
      && (!s.conns[c].dead ==> s.chan == Holds(c))
  }

  /** A reference leads to a connection, and only the thread in get_refconn, or nobody, has a pointer without one. */
  ghost predicate PointersOk(s: Refs) {
    && (s.chan.Holds? ==> s.chan.c in s.conns)
    && (forall t :: t in s.frames && s.frames[t].Holds? ==> s.frames[t].c in s.conns)
    && (s.inside.Some? ==> s.inside.value.0 in s.frames)
    && (forall t :: t in s.frames && s.frames[t].Dangling? ==> s.inside == Some((t, Taking)))
    && (s.chan.Dangling? ==> s.destroyed || At(s, Connecting))
    && (At(s, Dropping) ==> s.chan.Holds? && s.conns[s.chan.c].dead)
    && (At(s, Connecting) ==> !s.chan.Holds?)
    && (At(s, Releasing) || At(s, Taking) ==> s.chan.Holds?)
    && (At(s, Taking) ==> !s.frames[s.inside.value.0].Holds?)
  }

  ghost predicate RefsOk(s: Refs) {
    PointersOk(s) && forall c :: ConnOk(s, c)
  }

  lemma HoldersRemove(frames: map<Thread, Ref>, t: Thread, c: Id)
    ensures |Holders(frames - {t}, c)| == |Holders(frames, c)| - if t in frames && frames[t] == Holds(c) then 1 else 0
  {
    assert Holders(frames - {t}, c) == Holders(frames, c) - {t};
  }

  lemma HoldersUpdate(frames: map<Thread, Ref>, t: Thread, r: Ref, c: Id)
    ensures |Holders(frames[t := r], c)| == |Holders(frames - {t}, c)| + if r == Holds(c) then 1 else 0
    ensures |Holders(frames - {t}, c)| == |Holders(frames, c)| - if t in frames && frames[t] == Holds(c) then 1 else 0
  {
    HoldersRemove(frames, t, c);
    if r == Holds(c) {
      assert Holders(frames[t := r], c) == Holders(frames - {t}, c) + {t};
    } else {
      assert Holders(frames[t := r], c) == Holders(frames - {t}, c);
    }
  }

  lemma NoHolders(frames: map<Thread, Ref>, c: Id)
    requires forall t :: t in frames ==> frames[t] != Holds(c)
    ensures |Holders(frames, c)| == 0
  {
    assert Holders(frames, c) == {};
  }

  lemma PointersStayOk(s: Refs, step: Step)
    requires PointersOk(s) && Enabled(s, step)
    ensures PointersOk(Apply(s, step))
  {
  }

  /** Every step changes a counter exactly as it changes the references. */
  lemma CountFollows(s: Refs, step: Step, c: Id)
    requires PointersOk(s) && Enabled(s, step) && c in s.conns
    ensures var s' := Apply(s, step);
      c in s'.conns && s'.conns[c].refno - s.conns[c].refno == References(s', c) - References(s, c)
  {
    hide Holders;
    match step
    case StartCall(t) => HoldersUpdate(s.frames, t, Null, c);
    case Release =>
      var t := s.inside.value.0;
      if s.frames[t] != Null { HoldersUpdate(s.frames, t, Dangling(s.frames[t].c), c); }
    case Take => HoldersUpdate(s.frames, s.inside.value.0, Holds(s.chan.c), c);
    case EndCall(t) => HoldersRemove(s.frames, t, c);
    case _ =>
  }

  lemma NewConnection(s: Refs, step: Step, c: Id)
    requires PointersOk(s) && Enabled(s, step) && step == Connect(Some(c))
    ensures References(Apply(s, step), c) == 1
  {
    NoHolders(s.frames, c);
    hide Holders;
  }

  lemma ConnStaysOk(s: Refs, step: Step, c: Id)
    requires PointersOk(s) && (forall d :: ConnOk(s, d)) && Enabled(s, step)
    ensures ConnOk(Apply(s, step), c)
  {
    if step == Connect(Some(c)) {
      NewConnection(s, step, c);
    } else if c in s.conns {
      CountFollows(s, step, c);
      assert ConnOk(s, c);
      SharedIsNotGone(s, c);
      SharedIsNotGone(Apply(s, step), c);
    }
    hide Holders, References;
  }

  lemma SharedIsNotGone(s: Refs, c: Id)
    ensures s.chan == Holds(c) ==> References(s, c) > 0
    ensures forall t :: t in s.frames && s.frames[t] == Holds(c) ==> References(s, c) > 0
  {
    forall t | t in s.frames && s.frames[t] == Holds(c) ensures References(s, c) > 0 {
      assert t in Holders(s.frames, c);
    }
  }

  lemma {:induction false} BehaviourOk(states: seq<Refs>, steps: seq<Step>, k: nat)
    requires Behaviour(states, steps) && k < |states|
    ensures RefsOk(states[k])
  {
    if k == 0 {
    } else {
      BehaviourOk(states, steps, k - 1);
      PointersStayOk(states[k - 1], steps[k - 1]);
      forall c ensures ConnOk(states[k], c) { ConnStaysOk(states[k - 1], steps[k - 1], c); }
    }
  }

  /** refno_ is 1 for chan_ plus 1 for each call that holds the connection; it never goes below 0, and 0 means
      deleted. Any connection but the current one is dead, so none is given up and kept. */
  lemma RefnoCountsReferences(states: seq<Refs>, steps: seq<Step>, k: nat, c: Id)
    requires Behaviour(states, steps) && k < |states| && c in states[k].conns
    ensures var s, conn := states[k], states[k].conns[c];
      && conn.refno == (if s.chan == Holds(c) then 1 else 0) + |Holders(s.frames, c)|
      && (conn.deleted <==> conn.refno == 0)
      && (conn.dead || s.chan == Holds(c))
  {
    BehaviourOk(states, steps, k);
    assert ConnOk(states[k], c);
  }

  /** Whatever a thread does next, by any interleaving, the connection it touches is there and has not been deleted.
      */
  lemma NeverUsedAfterDelete(states: seq<Refs>, steps: seq<Step>, k: nat, step: Step)
    requires Behaviour(states, steps) && k < |states| && MayMove(states[k], step)
    ensures Enabled(states[k], step)
    ensures Touches(states[k], step).Some? ==> !states[k].conns[Touches(states[k], step).value].deleted
  {
    BehaviourOk(states, steps, k);
    var s := states[k];
    if Touches(s, step).Some? {
      var c := Touches(s, step).value;
      assert ConnOk(s, c);
      SharedIsNotGone(s, c);
    }
    hide Holders, References;
  }

  /** The step that runs `delete this` on c: it gives up the last reference to a dead connection. */
  predicate Deletes(s: Refs, step: Step, c: Id) {
    && Enabled(s, step) && Touches(s, step) == Some(c)
    && (step.Drop? || step.Release? || step.EndCall? || step.Destroy?)
    && s.conns[c].refno == 1 && (s.conns[c].dead || step.Destroy?)
  }

  lemma DeletedStays(s: Refs, step: Step, c: Id)
    requires Enabled(s, step) && c in s.conns && s.conns[c].deleted
    ensures c in Apply(s, step).conns && Apply(s, step).conns[c].deleted
  {
  }

  lemma DeleteIsNoted(s: Refs, step: Step, c: Id)
    requires Enabled(s, step) && Deletes(s, step, c)
    ensures c in Apply(s, step).conns && Apply(s, step).conns[c].deleted
  {
  }

  lemma OnlyDeleteIsNoted(s: Refs, step: Step, c: Id)
    requires Enabled(s, step) && c in Apply(s, step).conns && Apply(s, step).conns[c].deleted
    ensures (c in s.conns && s.conns[c].deleted) || Deletes(s, step, c)
  {
  }

  lemma {:induction false} DeletedForGood(states: seq<Refs>, steps: seq<Step>, i: nat, j: nat, c: Id)
    requires Behaviour(states, steps) && i <= j < |states| && c in states[i].conns && states[i].conns[c].deleted
    ensures c in states[j].conns && states[j].conns[c].deleted
  {
    hide Apply, Enabled;
    if i < j {
      DeletedForGood(states, steps, i, j - 1, c);
      DeletedStays(states[j - 1], steps[j - 1], c);
    }
  }

  /** No connection is deleted twice. */
  lemma NeverDeletedTwice(states: seq<Refs>, steps: seq<Step>, i: nat, j: nat, c: Id)
    requires Behaviour(states, steps) && i < j < |steps|
    requires Deletes(states[i], steps[i], c)
    ensures !Deletes(states[j], steps[j], c)
  {
    DeleteIsNoted(states[i], steps[i], c);
    DeletedForGood(states, steps, i + 1, j, c);
    NeverUsedAfterDelete(states, steps, j, steps[j]);
  }

  lemma {:induction false} DeleteHappened(states: seq<Refs>, steps: seq<Step>, k: nat, c: Id) returns (i: nat)
    requires Behaviour(states, steps) && k < |states| && c in states[k].conns && states[k].conns[c].deleted
    ensures i < k && Deletes(states[i], steps[i], c)
  {
    hide Apply, Enabled, Deletes;
    OnlyDeleteIsNoted(states[k - 1], steps[k - 1], c);
    if Deletes(states[k - 1], steps[k - 1], c) {
      i := k - 1;
    } else {
      i := DeleteHappened(states, steps, k - 1, c);
    }
  }

  /** A connection with no references left has been deleted by exactly one step, and one with references by none. */
  lemma DeletedExactlyOnce(states: seq<Refs>, steps: seq<Step>, k: nat, c: Id)
    requires Behaviour(states, steps) && k < |states| && c in states[k].conns
    ensures References(states[k], c) == 0 <==> exists i :: 0 <= i < k && Deletes(states[i], steps[i], c)
    ensures forall i, j :: 0 <= i < j < k && Deletes(states[i], steps[i], c) ==> !Deletes(states[j], steps[j], c)
  {
    BehaviourOk(states, steps, k);
    assert ConnOk(states[k], c);
    hide Deletes, References, Apply, Enabled, Touches;
    if References(states[k], c) == 0 {
      var i := DeleteHappened(states, steps, k, c);
    }
    forall i | 0 <= i < k && Deletes(states[i], steps[i], c) ensures References(states[k], c) == 0 {
      DeleteIsNoted(states[i], steps[i], c);
      DeletedForGood(states, steps, i + 1, k, c);
    }
    forall i, j | 0 <= i < j < k && Deletes(states[i], steps[i], c) ensures !Deletes(states[j], steps[j], c) {
      NeverDeletedTwice(states, steps, i, j, c);
    }
  }

  /** When the client is gone, so are all the connections it ever made. */
  lemma NothingLeaks(states: seq<Refs>, steps: seq<Step>, k: nat)
    requires Behaviour(states, steps) && k < |steps| && steps[k] == Destroy
    ensures var conns := states[k + 1].conns; forall c :: c in conns ==> conns[c].deleted
  {
    BehaviourOk(states, steps, k + 1);
    var s := states[k + 1];
    forall c | c in s.conns ensures s.conns[c].deleted {
      assert ConnOk(s, c);
      NoHolders(s.frames, c);
    }
  }

  // --- what get_refconn hands out ---

  /** The step after which chan_ is what the thread in get_refconn will take: it was found alive, or has just been
      made. */
  predicate Settles(s: Refs, step: Step, c: Id) {
    || (step.Check? && s.chan == Holds(c) && c in s.conns && !s.conns[c].dead)
    || step == Connect(Some(c))
  }

  /** The thread has chan_ settled and is about to take it. */
  predicate AboutToTake(s: Refs, t: Thread, c: Id) {
    (At(s, Releasing) || At(s, Taking)) && s.inside.value.0 == t && s.chan == Holds(c)
  }

  lemma SettledBefore(s: Refs, step: Step, t: Thread, c: Id)
    requires PointersOk(s) && Enabled(s, step) && AboutToTake(Apply(s, step), t, c)
    ensures InGetRefconn(s, t) && (AboutToTake(s, t, c) || Settles(s, step, c))
  {
  }

  lemma {:induction false} WasSettled(states: seq<Refs>, steps: seq<Step>, k: nat, t: Thread, c: Id) returns (j: nat)
    requires Behaviour(states, steps) && k < |states| && AboutToTake(states[k], t, c)
    ensures j < k && Settles(states[j], steps[j], c)
    ensures forall m :: j <= m <= k ==> InGetRefconn(states[m], t)
    ensures forall m :: j < m <= k ==> AboutToTake(states[m], t, c)
  {
    hide PointersOk, Enabled, Apply, Settles, AboutToTake, InGetRefconn;
    TakersAreInside(states[k], t, c);
    BehaviourOk(states, steps, k - 1);
    SettledBefore(states[k - 1], steps[k - 1], t, c);
    if AboutToTake(states[k - 1], t, c) {
      j := WasSettled(states, steps, k - 1, t, c);
    } else {
      j := k - 1;
    }
  }

  lemma TakersAreInside(s: Refs, t: Thread, c: Id)
    requires AboutToTake(s, t, c)
    ensures InGetRefconn(s, t) && s != FRESH
  {
  }

  /** get_refconn hands out the present chan_, and during this very call, with chan_m_ held since, that connection was
      found alive or has just been made: a dead one is never handed out again. */
  lemma HandsOutALiveOne(states: seq<Refs>, steps: seq<Step>, k: nat, t: Thread) returns (j: nat, c: Id)
    requires Behaviour(states, steps) && k < |steps| && steps[k] == Take && InGetRefconn(states[k], t)
    ensures j < k && Settles(states[j], steps[j], c) && forall m :: j <= m <= k ==> InGetRefconn(states[m], t)
    ensures states[k].chan == Holds(c) && states[k + 1].chan == Holds(c)
    ensures t in states[k + 1].frames && states[k + 1].frames[t] == Holds(c)
  {
    BehaviourOk(states, steps, k);
    c := states[k].chan.c;
    j := WasSettled(states, steps, k, t, c);
  }

  // --- the objects ---

  class Connection {
    var refno: int
    var dead: bool
    ghost var deleted: bool

    ghost function Value(): Conn
      reads this
    {
      Conn(refno, dead, deleted)
    }

    constructor ()
      ensures Value() == Conn(1, false, false)
    {
      refno, dead, deleted := 1, false, false;
    }

    method IncrefInPlace()
      requires !deleted
      modifies this
      ensures Value() == Incref(old(Value()))
    {
      refno := refno + 1;
    }

    /** The assertion that the count stays non-negative is the precondition. */
    method DecrefInPlace()
      requires !deleted && refno >= 1
      modifies this
      ensures Value() == Decref(old(Value()))
    {
      refno := refno - 1;
      if refno == 0 {
        if dead {
          deleted := true;
          return;
        }
      }
    }
  }

  predicate MayReconnect(s: Refs, t: Thread, made: Option<Id>) {
    && !s.destroyed && t in s.frames && s.inside.None? && !s.chan.Dangling? && !s.frames[t].Dangling?
    && (s.chan.Holds? ==> s.chan.c in s.conns) && (s.frames[t].Holds? ==> s.frames[t].c in s.conns)
    && (made.Some? ==> made.value !in s.conns)
  }

  /** The first half of get_refconn by thread `t` with nobody in between, where connect_to_dst gives `made`. */
  function Ensured(s: Refs, t: Thread, made: Option<Id>): (r: Refs)
    requires MayReconnect(s, t, made)
    ensures r.chan.Holds? ==> At(r, Releasing) && r.inside.value.0 == t && r.chan.c in r.conns
    ensures r.frames == s.frames && !r.destroyed && (forall c :: c in s.conns ==> c in r.conns)
    ensures !r.chan.Dangling? && (r.chan == Null ==> r.inside == None)
  {
    var s1 := Apply(Apply(s, Lock(t)), Check);
    var s2 := if At(s1, Dropping) then Apply(s1, Drop) else s1;
    if At(s2, Connecting) then Apply(s2, Connect(made)) else s2
  }

  /** ... and the second half. */
  function Reconnect(s: Refs, t: Thread, made: Option<Id>): Refs
    requires MayReconnect(s, t, made)
  {
    var r := Ensured(s, t, made);
    if r.chan == Null then r else Apply(Apply(r, Release), Take)
  }

  class Channel {
    var conns: map<Id, Conn>
    var chan: Ref

    ghost function Value(frames: map<Thread, Ref>, inside: Option<(Thread, Phase)>): Refs
      reads this
    {
      Refs(conns, chan, frames, inside, false)
    }

    method EnsureChannel(t: Thread, made: Option<Id>, ghost frames: map<Thread, Ref>)
      requires MayReconnect(Value(frames, None), t, made)
      modifies this
      ensures Value(frames, if chan == Null then None else Some((t, Releasing)))
              == Ensured(old(Value(frames, None)), t, made)
    {
      if chan.Null? || conns[chan.c].dead {
        if !chan.Null? {
          conns := conns[chan.c := Decref(conns[chan.c])];
        }
        if made.Some? {
          conns := conns[made.value := Conn(1, false, false)];
          chan := Holds(made.value);
        } else {
          chan := Null;
        }
      }
    }

    method TakeReference(t: Thread, ch: Ref, ghost frames: map<Thread, Ref>) returns (ch': Ref)
      requires t in frames && frames[t] == ch && chan.Holds? && chan.c in conns
      requires ch.Null? || ch.c in conns
      modifies this
      ensures Value(frames[t := ch'], None) == Apply(Apply(old(Value(frames, Some((t, Releasing)))), Release), Take)
    {
      if !ch.Null? {
        conns := conns[ch.c := Decref(conns[ch.c])];
      }
      ch' := chan;
      conns := conns[ch'.c := Incref(conns[ch'.c])];
    }

    method GetRefconn(t: Thread, ch: Ref, made: Option<Id>, ghost frames: map<Thread, Ref>) returns (ch': Ref)
      requires t in frames && frames[t] == ch && MayReconnect(Value(frames, None), t, made)
      modifies this
      ensures Value(frames[t := ch'], None) == Reconnect(old(Value(frames, None)), t, made)
    {
      hide Apply, Ensured;
      EnsureChannel(t, made, frames);
      ch' := ch;
      assert frames[t := ch] == frames;
      if !chan.Null? {
        ch' := TakeReference(t, ch, frames);
      }
    }
  }
}
