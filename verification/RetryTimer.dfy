/** Deadlines of a call: timespec arithmetic and the loop in call1 that waits, each time twice as long, until a reply
    comes or the caller's timeout is over. */
module RetryTimer {
  import opened Common

  datatype Timespec = Timespec(sec: int, nsec: int)

  const BILLION := 1_000_000_000
  const TO_MIN := 1000      // milliseconds

  function Total(t: Timespec): int {
    t.sec * BILLION + t.nsec
  }

  /** What add_timespec leaves: one second too many can sit in the nanoseconds. */
  predicate Normal(t: Timespec) {
    0 <= t.nsec <= BILLION
  }

  /** Division in C rounds towards zero, and the remainder has the sign of the dividend. */
  function Quot(b: int, d: int): int
    requires d > 0
  {
    if b >= 0 then b / d else -(-b / d)
  }

  function Rem(b: int, d: int): int
    requires d > 0
  {
    b - d * Quot(b, d)
  }

  function CmpTimespec(a: Timespec, b: Timespec): int {
    if a.sec > b.sec then 1
    else if a.sec < b.sec then -1
    else if a.nsec > b.nsec then 1
    else if a.nsec < b.nsec then -1
    else 0
  }

  /** The comparison says what the order of time says. */
  predicate FollowsTime(a: Timespec, b: Timespec) {
    CmpTimespec(a, b) == if Total(a) < Total(b) then -1 else if Total(a) > Total(b) then 1 else 0
  }

  /** The comparison agrees with the order of time, except that it tells apart the two ways to write the same instant.
      */
  lemma CmpIsRightUpToTies(a: Timespec, b: Timespec)
    requires Normal(a) && Normal(b)
    ensures Total(a) < Total(b) ==> CmpTimespec(a, b) == -1
    ensures Total(a) > Total(b) ==> CmpTimespec(a, b) == 1
    ensures CmpTimespec(a, b) == 0 <==> a == b
    ensures FollowsTime(a, b) <==> a == b || Total(a) != Total(b)
    ensures Total(a) == Total(b) && a != b ==> {a.nsec, b.nsec} == {0, BILLION}
  {
  }

  /** The instant that add_timespec gives, whichever way it writes it. */
  function Later(a: Timespec, ms: int): (r: Timespec)
    requires a.nsec + Rem(ms, 1000) * 1_000_000 >= 0
    ensures Normal(r) && Total(r) == Total(a) + ms * 1_000_000
    ensures r.sec >= a.sec + Quot(ms, 1000)
  {
    Carry(Timespec(a.sec + Quot(ms, 1000), a.nsec + Rem(ms, 1000) * 1_000_000))
  }

  function Carry(t: Timespec): (r: Timespec)
    requires t.nsec >= 0
    ensures Normal(r) && Total(r) == Total(t)
    ensures r.sec >= t.sec
    decreases t.nsec
  {
    if t.nsec > BILLION then Carry(Timespec(t.sec + 1, t.nsec - BILLION)) else t
  }

  method AddTimespec(a: Timespec, ms: int) returns (r: Timespec)
    requires a.nsec + Rem(ms, 1000) * 1_000_000 >= 0
    ensures r == Later(a, ms)
  {
    var sec := a.sec + Quot(ms, 1000);
    var nsec := a.nsec + Rem(ms, 1000) * 1_000_000;
    while nsec > BILLION
      invariant nsec >= 0
      invariant Carry(Timespec(sec, nsec)) == Later(a, ms)
      decreases nsec
    {
      sec := sec + 1;
      nsec := nsec - BILLION;
    }
    r := Timespec(sec, nsec);
  }

  lemma OneAndThousand()
    ensures Rem(1, 1000) == 1 && Quot(1, 1000) == 0 && Rem(1000, 1000) == 0 && Quot(1000, 1000) == 1
  {
  }

  /** add_timespec makes both ways: the same instant, reached from two times, compares as two. */
  lemma SameInstantTwice()
    ensures var a, b := Later(Timespec(1, 999_000_000), 1), Later(Timespec(1, 0), 1000);
      && a == Timespec(1, BILLION) && b == Timespec(2, 0) && Total(a) == Total(b)
      && CmpTimespec(a, b) == -1 && CmpTimespec(b, a) == 1 && !FollowsTime(a, b)
  {
    OneAndThousand();
    hide Quot, Rem;
    assert Carry(Timespec(1, BILLION)) == Timespec(1, BILLION) && Carry(Timespec(2, 0)) == Timespec(2, 0);
    assert Later(Timespec(1, 999_000_000), 1) == Carry(Timespec(1, BILLION));
    assert Later(Timespec(1, 0), 1000) == Carry(Timespec(2, 0));
  }

  // --- the loop of call1 ---

  function Pow2(n: nat): nat {
    if n == 0 then 1 else 2 * Pow2(n - 1)
  }

  /** The length of wait `i`, in milliseconds. */
  function Backoff(i: nat): nat {
    TO_MIN * Pow2(i)
  }

  /** The deadline of a wait that starts at `now`. */
  function NextDeadline(now: Timespec, ms: nat, final: Timespec): Timespec
    requires Normal(now)
  {
    var next := Later(now, ms);
    if CmpTimespec(next, final) > 0 then final else next
  }

  predicate IsFinalWait(now: Timespec, ms: nat, final: Timespec)
    requires Normal(now)
  {
    CmpTimespec(Later(now, ms), final) > 0
  }

  /** The earlier of the two: the end of a wait of this length, or of the timeout. A wait is the final one exactly if
      it would last longer than the timeout, except that of two ways to write one instant the one with more seconds
      counts as later. */
  lemma DeadlineIsTheEarlier(now: Timespec, ms: nat, final: Timespec)
    requires Normal(now) && Normal(final) && now.nsec + Rem(ms, 1000) * 1_000_000 >= 0
    ensures var own := Total(now) + ms * 1_000_000;
      && Total(NextDeadline(now, ms, final)) == (if own <= Total(final) then own else Total(final))
      && (IsFinalWait(now, ms, final) <==>
            own > Total(final) || (own == Total(final) && Later(now, ms).sec > final.sec))
  {
    CmpIsRightUpToTies(Later(now, ms), final);
  }

  /** The clock never goes back, and a wait that ends without a reply has lasted until its deadline. `nows[i]` is the
      time at the start of wait `i`, and `replied[i]` says whether the reply came during it. */
  ghost predicate Realistic(start: Timespec, to: nat, nows: seq<Timespec>, replied: seq<bool>)
    requires Normal(start)
  {
    && |nows| == |replied|
    && (forall i :: 0 <= i < |nows| ==> Normal(nows[i]))
    && (|nows| > 0 ==> Total(start) <= Total(nows[0]))
    && (forall i: nat :: i + 1 < |nows| && !replied[i] ==>
          Total(NextDeadline(nows[i], Backoff(i), Later(start, to))) <= Total(nows[i + 1]))
  }

  /** `m` waits without a reply, none of them the final one, use up 1000 * (2^m - 1) milliseconds of the timeout. */
  lemma {:induction false} WaitsUseUpTime(start: Timespec, to: nat, nows: seq<Timespec>, replied: seq<bool>, m: nat)
    requires Normal(start) && Realistic(start, to, nows, replied) && m <= |nows|
    requires forall i: nat :: i < m ==> !replied[i] && !IsFinalWait(nows[i], Backoff(i), Later(start, to))
    ensures m > 0 ==> Total(Later(nows[m - 1], Backoff(m - 1))) >= Total(start) + TO_MIN * (Pow2(m) - 1) * 1_000_000
    ensures TO_MIN * (Pow2(m) - 1) <= to
  {
    if m > 0 {
      WaitsUseUpTime(start, to, nows, replied, m - 1);
      CmpIsRightUpToTies(Later(nows[m - 1], Backoff(m - 1)), Later(start, to));
    }
  }

  lemma {:induction false} Pow2Grows(m: nat, n: nat)
    requires m <= n
    ensures Pow2(m) <= Pow2(n)
  {
    if m < n {
      Pow2Grows(m, n - 1);
    }
  }

  /** A doubling in 32 bits. */
  function ShiftLeft(x: int): int {
    var y := (2 * x) % TWO_TO_THE_32;
    if y < TWO_TO_THE_31 then y else y - TWO_TO_THE_32
  }

  /** No wait that can happen overflows the doubled length. */
  lemma BackoffFits(m: nat, to: nat)
    requires TO_MIN * (Pow2(m) - 1) <= to < TWO_TO_THE_31
    ensures m <= 21 && Backoff(m) < TWO_TO_THE_31
    ensures Backoff(0) == TO_MIN && (m > 0 ==> ShiftLeft(Backoff(m - 1)) == Backoff(m))
  {
    assert Pow2(5) == 32 && Pow2(10) == 1024 && Pow2(15) == 32768 && Pow2(20) == 1048576;
    if m > 21 { Pow2Grows(22, m); } else { Pow2Grows(m, 21); }
  }

  lemma NoCarryBelow(a: Timespec, ms: nat)
    requires Normal(a)
    ensures Rem(ms, 1000) >= 0 && a.nsec + Rem(ms, 1000) * 1_000_000 >= 0
    ensures a.sec > 0 ==> Later(a, ms).sec > 0
  {
  }

  /** `w` waits are over, none of them the final one, and no reply came. */
  ghost predicate Waited(start: Timespec, to: nat, nows: seq<Timespec>, replied: seq<bool>, w: nat)
    requires Normal(start) && Realistic(start, to, nows, replied)
  {
    && w < |nows|
    && TO_MIN * (Pow2(w) - 1) <= to
    && forall i: nat :: i < w ==> !replied[i] && !IsFinalWait(nows[i], Backoff(i), Later(start, to))
  }

  /** What a caller that goes into wait `w` may rely on. */
  lemma WaitStarts(start: Timespec, to: nat, nows: seq<Timespec>, replied: seq<bool>, w: nat)
    requires Normal(start) && to < TWO_TO_THE_31 && Realistic(start, to, nows, replied)
    requires Waited(start, to, nows, replied, w)
    ensures w <= 21 && Backoff(w) < TWO_TO_THE_31 && Backoff(0) == TO_MIN
    ensures Normal(nows[w]) && nows[w].nsec + Rem(Backoff(w), 1000) * 1_000_000 >= 0
  {
    BackoffFits(w, to);
    NoCarryBelow(nows[w], Backoff(w));
  }

  lemma WaitEnds(start: Timespec, to: nat, nows: seq<Timespec>, replied: seq<bool>, w: nat)
    requires Normal(start) && to < TWO_TO_THE_31 && Realistic(start, to, nows, replied) && |nows| > 22
    requires Waited(start, to, nows, replied, w)
    requires !replied[w] && !IsFinalWait(nows[w], Backoff(w), Later(start, to))
    ensures Waited(start, to, nows, replied, w + 1) && ShiftLeft(Backoff(w)) == Backoff(w + 1)
  {
    hide Backoff, Pow2, IsFinalWait, Later, ShiftLeft, Realistic, Normal;
    BackoffFits(w, to);
    WaitsUseUpTime(start, to, nows, replied, w + 1);
    BackoffFits(w + 1, to);
  }

  /** The request goes out at first, and again before a wait exactly if the one before it has left a call that
      retransmits without a live connection. */
  ghost predicate SentAsDue(sent: seq<bool>, retrans: bool, gone: seq<bool>) {
    && |sent| <= |gone| + 1
    && (sent != [] ==> sent[0])
    && forall i :: 1 <= i < |sent| ==> (sent[i] <==> retrans && gone[i - 1])
  }

  lemma SendWhenDue(sent: seq<bool>, retrans: bool, gone: seq<bool>, transmit: bool)
    requires SentAsDue(sent, retrans, gone) && |sent| <= |gone|
    requires transmit <==> sent == [] || (retrans && gone[|sent| - 1])
    ensures SentAsDue(sent + [transmit], retrans, gone)
  {
  }

  /** So it goes out once, and once more for every finished wait without a live connection if the call retransmits. */
  lemma {:induction false} TimesSent(sent: seq<bool>, retrans: bool, gone: seq<bool>)
    requires SentAsDue(sent, retrans, gone) && sent != []
    ensures multiset(sent)[true] == 1 + if retrans then multiset(gone[..|sent| - 1])[true] else 0
  {
    var n := |sent| - 1;
    assert sent == sent[..n] + [sent[n]];
    if n > 0 {
      TimesSent(sent[..n], retrans, gone);
      assert gone[..n] == gone[..n - 1] + [gone[n - 1]];
    } else {
      assert gone[..0] == [] && sent[..0] == [];
    }
  }

  /** When a wait that starts at `now` ends, and whether it is the final one. */
  method SetDeadline(now: Timespec, ms: nat, final: Timespec) returns (deadline: Timespec, isFinal: bool)
    requires Normal(now) && now.nsec + Rem(ms, 1000) * 1_000_000 >= 0
    ensures deadline == NextDeadline(now, ms, final) && isFinal == IsFinalWait(now, ms, final)
    ensures isFinal ==> deadline == final
  {
    hide Later, Rem;
    deadline := AddTimespec(now, ms);
    isFinal := CmpTimespec(deadline, final) > 0;
    if isFinal {
      deadline := final;
    }
  }

  /** The loop at the start of its turn `w`: after the final wait, which leaves the mark of 0 seconds, or ready for
      another one of `curr` milliseconds. */
  ghost predicate Going(start: Timespec, to: nat, nows: seq<Timespec>, replied: seq<bool>,
        w: nat, finaldeadline: Timespec, curr: int, last: Timespec)
    requires Normal(start) && Realistic(start, to, nows, replied) && |nows| > 22
  {
    var final := Later(start, to);
    && w <= 22
    && (finaldeadline.sec != 0 ==>
          finaldeadline == final && curr == Backoff(w) && Waited(start, to, nows, replied, w))
    && (finaldeadline.sec == 0 ==>
          w > 0 && last == final && !replied[w - 1] && Waited(start, to, nows, replied, w - 1)
          && last == NextDeadline(nows[w - 1], Backoff(w - 1), final))
  }

  lemma GoingOn(start: Timespec, to: nat, nows: seq<Timespec>, replied: seq<bool>,
        w: nat, finaldeadline: Timespec, curr: int, last: Timespec)
    requires Normal(start) && to < TWO_TO_THE_31 && Realistic(start, to, nows, replied) && |nows| > 22
    requires Going(start, to, nows, replied, w, finaldeadline, curr, last) && finaldeadline.sec != 0
    ensures w <= 21 && 0 <= curr == Backoff(w) && Normal(nows[w]) && nows[w].nsec + Rem(curr, 1000) * 1_000_000 >= 0
    ensures Waited(start, to, nows, replied, w) && finaldeadline == Later(start, to)
    ensures var deadline := NextDeadline(nows[w], curr, finaldeadline);
      var isFinal := IsFinalWait(nows[w], curr, finaldeadline);
      !replied[w] ==> Going(start, to, nows, replied, w + 1,
                            if isFinal then finaldeadline.(sec := 0) else finaldeadline, ShiftLeft(curr), deadline)
  {
    assert |replied| == |nows|;
    hide Backoff, Later, Realistic, ShiftLeft, CmpTimespec, Rem;
    WaitStarts(start, to, nows, replied, w);
    if !replied[w] && !IsFinalWait(nows[w], curr, finaldeadline) {
      WaitEnds(start, to, nows, replied, w);
    }
    hide Waited;
  }

  lemma GoingStarts(start: Timespec, to: nat, nows: seq<Timespec>, replied: seq<bool>, last: Timespec)
    requires Normal(start) && start.sec > 0 && to < TWO_TO_THE_31 && Realistic(start, to, nows, replied) && |nows| > 22
    ensures start.nsec + Rem(to, 1000) * 1_000_000 >= 0
    ensures Going(start, to, nows, replied, 0, Later(start, to), TO_MIN, last)
  {
    NoCarryBelow(start, to);
    BackoffFits(0, to);
    hide Realistic;
  }

  /** Wait `i` is over after 1000 * 2^i milliseconds, or with the timeout if that comes first. */
  ghost predicate AsPlanned(start: Timespec, to: nat, nows: seq<Timespec>, deadlines: seq<Timespec>) {
    && |deadlines| <= |nows|
    && forall i :: 0 <= i < |deadlines| ==>
         var own, end := Total(nows[i]) + TO_MIN * Pow2(i) * 1_000_000, Total(start) + to * 1_000_000;
         Total(deadlines[i]) == if own <= end then own else end
  }

  lemma PlanStarts(start: Timespec, to: nat, nows: seq<Timespec>)
    ensures AsPlanned(start, to, nows, [])
  {
  }

  lemma PlanGoesOn(start: Timespec, to: nat, nows: seq<Timespec>, deadlines: seq<Timespec>, deadline: Timespec)
    requires AsPlanned(start, to, nows, deadlines) && |deadlines| < |nows| && Normal(start) && Normal(nows[|deadlines|])
    requires start.nsec + Rem(to, 1000) * 1_000_000 >= 0
    requires var ms := Backoff(|deadlines|);
      && nows[|deadlines|].nsec + Rem(ms, 1000) * 1_000_000 >= 0
      && deadline == NextDeadline(nows[|deadlines|], ms, Later(start, to))
    ensures AsPlanned(start, to, nows, deadlines + [deadline])
  {
    DeadlineIsTheEarlier(nows[|deadlines|], Backoff(|deadlines|), Later(start, to));
    hide NextDeadline, Later, Rem, Normal, Pow2;
  }

  /** The waits of one call. `gone[i]` says that there is no live connection after wait `i`, and `sent[i]` whether the
      request goes out before wait `i`: at first, and after every wait that has left the call without a connection,
      even the final one. A caller gets the reply if it comes during one of the waits, and gives up exactly when the
      timeout is over; after 1 + m waits, 1000 * (2^m - 1) milliseconds were within the timeout, so there are never
      more than 22. */
  method WaitForReply(start: Timespec, to: nat, nows: seq<Timespec>, replied: seq<bool>, retrans: bool, gone: seq<bool>)
    returns (done: bool, waits: nat, sent: seq<bool>, ghost deadlines: seq<Timespec>)
    requires Normal(start) && start.sec > 0 && to < TWO_TO_THE_31
    requires Realistic(start, to, nows, replied) && |nows| > 22 && |gone| == |nows|
    ensures 1 <= waits <= 22 && Waited(start, to, nows, replied, waits - 1)
    ensures done == replied[waits - 1]
    ensures |deadlines| == waits && AsPlanned(start, to, nows, deadlines)
    ensures !done ==> Total(deadlines[waits - 1]) == Total(start) + to * 1_000_000
    ensures |sent| == waits + if done then 0 else 1
    ensures sent[0] && forall i :: 1 <= i < |sent| ==> (sent[i] <==> retrans && gone[i - 1])
    ensures multiset(sent)[true] == 1 + if retrans then multiset(gone[..|sent| - 1])[true] else 0
  {
    GoingStarts(start, to, nows, replied, start);
    hide Pow2, Backoff, Later, Rem, CmpTimespec, ShiftLeft, Realistic, Total, NextDeadline, IsFinalWait, Waited, Normal;
    hide AsPlanned;
    var finaldeadline := AddTimespec(start, to);
    var curr := TO_MIN;
    done, waits, sent, deadlines := false, 0, [], [];
    var transmit := true;
    ghost var last := start;
    PlanStarts(start, to, nows);
    while true
      invariant !done && waits <= 22 && Going(start, to, nows, replied, waits, finaldeadline, curr, last)
      invariant |sent| == waits && (transmit <==> waits == 0 || (retrans && gone[waits - 1]))
      invariant SentAsDue(sent, retrans, gone)
      invariant |deadlines| == waits && AsPlanned(start, to, nows, deadlines)
      invariant waits > 0 ==> deadlines[waits - 1] == last
      decreases 22 - waits
    {
      SendWhenDue(sent, retrans, gone, transmit);
      hide SentAsDue;
      sent := sent + [transmit];
      TimesSent(sent, retrans, gone);
      if finaldeadline.sec == 0 {
        break;
      }
      GoingOn(start, to, nows, replied, waits, finaldeadline, curr, last);
      hide Going;
      var now := nows[waits];
      var nextdeadline, isFinal := SetDeadline(now, curr, finaldeadline);
      if isFinal {
        finaldeadline := finaldeadline.(sec := 0);
      }
      PlanGoesOn(start, to, nows, deadlines, nextdeadline);
      last := nextdeadline;
      deadlines := deadlines + [nextdeadline];
      waits := waits + 1;
      if replied[waits - 1] {
        done := true;
        break;
      }
      transmit := retrans && gone[waits - 1];
      curr := ShiftLeft(curr);
    }
  }
}
