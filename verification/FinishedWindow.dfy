/** The client's compressed window of finished xids (rpcc::xid_rep_window_). */
module FinishedWindow {
  ghost predicate Sorted(w: seq<nat>) {
    forall i, j :: 0 <= i < j < |w| ==> w[i] <= w[j]
  }

  /** What the window says is finished: everything up to the front, and every listed xid. */
  predicate Finished(w: seq<nat>, x: nat) {
    w != [] && (x <= w[0] || x in w)
  }

  /** Sorted (duplicates allowed), not empty, and compressed as far as it goes. */
  ghost predicate Compressed(w: seq<nat>) {
    w != [] && Sorted(w) && w[0] + 1 !in w
  }

  /** x goes in front of the first greater element. */
  function Insert(w: seq<nat>, x: nat): (r: seq<nat>)
    ensures r != []
  {
    if w == [] || w[0] > x then [x] + w else [w[0]] + Insert(w[1..], x)
  }

  /** Drop the front for as long as its successor is listed. */
  function Compress(w: seq<nat>): (r: seq<nat>)
    requires w != []
    ensures r != []
  {
    if w[0] + 1 in w then assert w[1..] != []; Compress(w[1..]) else w
  }

  /** The window after xid x is reported finished. */
  function Report(w: seq<nat>, x: nat): (r: seq<nat>)
    requires w != []
    ensures r != []
  {
    if x <= w[0] then w else Compress(Insert(w, x))
  }

  /** The window after a whole sequence of reports. */
  function ReportAll(w: seq<nat>, xs: seq<nat>): (r: seq<nat>)
    requires w != []
    ensures r != []
  {
    if xs == [] then w else Report(ReportAll(w, xs[..|xs| - 1]), xs[|xs| - 1])
  }

  lemma {:induction false} InsertKeeps(w: seq<nat>, x: nat)
    requires Sorted(w)
    ensures Sorted(Insert(w, x))
    ensures forall y :: y in Insert(w, x) <==> y in w || y == x
    ensures w != [] && w[0] <= x ==> Insert(w, x)[0] == w[0]
  {
    if w == [] || w[0] > x {
    } else {
      InsertKeeps(w[1..], x);
      var r := Insert(w[1..], x);
      forall y ensures y in [w[0]] + r <==> y in w || y == x {
        assert w == [w[0]] + w[1..];
      }
      forall j | 0 <= j < |r| ensures w[0] <= r[j] {
        assert r[j] in r;
        if r[j] != x { assert r[j] in w[1..]; }
      }
    }
  }

  /** Popping a front whose successor is listed loses nothing. */
  lemma PopKeeps(w: seq<nat>, y: nat)
    requires w != [] && Sorted(w) && w[0] + 1 in w
    ensures w[1..] != [] && Sorted(w[1..]) && w[0] <= w[1] <= w[0] + 1
    ensures Finished(w[1..], y) <==> Finished(w, y)
  {
    var k :| 0 <= k < |w| && w[k] == w[0] + 1;
    assert w[1..][k - 1] == w[k];
    assert w == [w[0]] + w[1..];
  }

  /** Popping changes neither what compression arrives at nor what the scan up to `it` has established. */
  lemma PopWhileScanning(w: seq<nat>, it: nat)
    requires 0 < it < |w| && Sorted(w) && w[it] == w[0] + 1
    requires forall j :: 0 <= j < it ==> w[j] != w[0] + 1
    ensures Sorted(w[1..]) && Compress(w) == Compress(w[1..])
    ensures forall j :: 0 <= j < it - 1 ==> w[1..][j] != w[1..][0] + 1
  {
    assert w[it] in w;
    assert w[1..] != [] by { assert w[1..][it - 1] == w[it]; }
    forall j | 0 <= j < it ensures w[j] == w[0] {
      assert w[0] <= w[j] <= w[it];
    }
    forall j | 0 <= j < it - 1 ensures w[1..][j] != w[1..][0] + 1 {
      assert w[1..][j] == w[j + 1] == w[0] && w[1..][0] == w[1] == w[0];
    }
    hide Sorted;
  }

  lemma {:induction false} CompressKeeps(w: seq<nat>)
    requires w != [] && Sorted(w)
    ensures Compressed(Compress(w))
    ensures Compress(w)[0] >= w[0]
    ensures forall y :: Finished(Compress(w), y) <==> Finished(w, y)
    decreases |w|
  {
    if w[0] + 1 in w {
      PopKeeps(w, 0);
      CompressKeeps(w[1..]);
      forall y ensures Finished(Compress(w), y) <==> Finished(w, y) {
        PopKeeps(w, y);
      }
    }
  }

  /** A report keeps the window valid and adds exactly the reported xid to what is finished. */
  lemma ReportMeaning(w: seq<nat>, x: nat)
    requires Compressed(w)
    ensures Compressed(Report(w, x))
    ensures w[0] <= Report(w, x)[0]
    ensures forall y :: Finished(Report(w, x), y) <==> Finished(w, y) || y == x
  {
    if x > w[0] {
      InsertKeeps(w, x);
      CompressKeeps(Insert(w, x));
    }
  }

  /** From the initial window [0], the finished xids are exactly 0 and the ones reported, repeats included. */
  lemma {:induction false} ReportAllMeaning(xs: seq<nat>)
    ensures Compressed(ReportAll([0], xs))
    ensures forall y :: Finished(ReportAll([0], xs), y) <==> y == 0 || y in xs
  {
    if xs != [] {
      var n := |xs| - 1;
      ReportAllMeaning(xs[..n]);
      ReportMeaning(ReportAll([0], xs[..n]), xs[n]);
      assert xs == xs[..n] + [xs[n]];
    }
  }

  /** Two valid windows with the same finished xids have the same front: the watermark a request carries
      does not depend on the order in which replies came in. */
  lemma FrontIsDetermined(v: seq<nat>, w: seq<nat>)
    requires Compressed(v) && Compressed(w)
    requires forall y :: Finished(v, y) <==> Finished(w, y)
    ensures v[0] == w[0]
  {
    assert !Finished(v, v[0] + 1) && !Finished(w, w[0] + 1);
    assert Finished(v, v[0]) && Finished(w, w[0]);
  }

  class XidRepWindow {
    var list: seq<nat>

    ghost predicate Valid()
      reads this
    {
      Compressed(list)
    }

    constructor ()
      ensures list == [0] && Valid()
    {
      list := [0];
    }

    /** rpcc::update_xid_rep. The list iterator is the index of the element it points at. */
    method UpdateXidRep(xid: nat)
      requires Valid()
      modifies this
      ensures Valid()
      ensures list == Report(old(list), xid)
    {
      ghost var was := list;
      if xid > list[0] {
        InsertInOrder(xid);
        InsertKeeps(was, xid);
        CompressInPlace();
      }
      ReportMeaning(was, xid);
    }

    /** The part before the label `compress`. */
    method InsertInOrder(xid: nat)
      modifies this
      ensures list == Insert(old(list), xid)
    {
      var it := 0;
      while it < |list| && list[it] <= xid
        invariant 0 <= it <= |list|
        invariant list == old(list)
        invariant list[..it] + Insert(list[it..], xid) == Insert(list, xid)
      {
        assert list[it..][1..] == list[it + 1..];
        assert list[..it + 1] == list[..it] + [list[it]];
        it := it + 1;
      }
      list := list[..it] + [xid] + list[it..];
    }

    /** The part after the label `compress`. Every pop moves the element the iterator points at one place
        closer to the front. */
    method CompressInPlace()
      requires list != [] && Sorted(list)
      modifies this
      ensures list == Compress(old(list))
    {
      var it := 1;
      while it < |list|
        invariant list != [] && 0 < it && Sorted(list)
        invariant Compress(list) == Compress(old(list))
        invariant forall j :: 0 <= j < it && j < |list| ==> list[j] != list[0] + 1
        decreases |list| - it
      {
        ghost var rest := |list| - it;
        while list[0] + 1 == list[it]
          invariant 0 <= it < |list| && |list| - it == rest && Sorted(list)
          invariant Compress(list) == Compress(old(list))
          invariant forall j :: 0 <= j < it ==> list[j] != list[0] + 1
          decreases |list|
        {
          // The popped front is never the element the iterator points at.
          assert it > 0;
          PopWhileScanning(list, it);
          list := list[1..];
          it := it - 1;
        }
        it := it + 1;
      }
    }
  }
}
