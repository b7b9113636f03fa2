/** The server's at-most-once window: per client a watermark (rereply_window_) and a list of placeholders and
    saved replies (reply_window_). */
module ReplyWindow {
  import opened Common

  datatype Reply = Reply(ret: int, body: Bytes)

  /** reply_t. No reply yet is the placeholder, which the server marks with sz == -1. */
  datatype Entry = Entry(xid: nat, reply: Option<Reply>)

  datatype Verdict = New | InProgress | Done(reply: Reply) | Forgotten

  datatype Windows = Windows(lists: map<nat, seq<Entry>>, marks: map<nat, nat>)

  /** A client the server has not heard from has watermark 0: every xid_rep is at least that. */
  function Mark(w: Windows, clt: nat): nat {
    if clt in w.marks then w.marks[clt] else 0
  }

  function Max(a: nat, b: nat): nat {
    if a < b then b else a
  }

  function List(w: Windows, clt: nat): seq<Entry> {
    if clt in w.lists then w.lists[clt] else []
  }

  /** The loop over one client's list: stop at a match, drop what lies below the watermark on the way, and
      leave a placeholder at the end when nothing matched. */
  function Scan(es: seq<Entry>, xid: nat, mark: nat): (Verdict, seq<Entry>) {
    if es == [] then
      (New, [Entry(xid, None)])
    else if es[0].xid == xid then
      (if es[0].reply.None? then InProgress else Done(es[0].reply.value), es)
    else
      var (verdict, rest) := Scan(es[1..], xid, mark);
      (verdict, if es[0].xid < mark then rest else [es[0]] + rest)
  }

  function Check(w: Windows, clt: nat, xid: nat, xidRep: nat): (Verdict, Windows) {
    var mark := Max(Mark(w, clt), xidRep);
    var raised := w.(lists := w.lists[clt := List(w, clt)], marks := w.marks[clt := mark]);
    if xid < mark then
      (Forgotten, raised)
    else
      var (verdict, es) := Scan(List(w, clt), xid, mark);
      (verdict, raised.(lists := w.lists[clt := es]))
  }

  function SetReply(es: seq<Entry>, xid: nat, reply: Reply): Option<seq<Entry>> {
    if es == [] then None
    else if es[0].xid == xid then Some([Entry(xid, Some(reply))] + es[1..])
    else
      match SetReply(es[1..], xid, reply)
      case None => None
      case Some(rest) => Some([es[0]] + rest)
  }

  /** None is the server's assert(0): there is no entry for the reply. */
  function SavedReply(w: Windows, clt: nat, xid: nat, reply: Reply): Option<Windows> {
    match SetReply(List(w, clt), xid, reply)
    case None => None
    case Some(es) => Some(w.(lists := w.lists[clt := es]))
  }

  // ---------------------------------------------------------------------------------------------
  // A list as a finite map from xids to what is saved for them
  // ---------------------------------------------------------------------------------------------

  function Saved(es: seq<Entry>): (m: map<nat, Option<Reply>>) {
    if es == [] then map[] else Saved(es[1..])[es[0].xid := es[0].reply]
  }

  ghost predicate Distinct(es: seq<Entry>) {
    es != [] ==> es[0].xid !in Saved(es[1..]) && Distinct(es[1..])
  }

  function Answer(m: map<nat, Option<Reply>>, xid: nat): Verdict {
    if xid !in m then New else if m[xid].None? then InProgress else Done(m[xid].value)
  }

  /** What a scan does to the list, seen as a map: the answer is what the list holds for the xid, nothing at or
      above the watermark is lost or changed, and after NEW exactly the placeholder was added and everything below
      the watermark is gone. After any other answer some of the latter may remain. */
  lemma {:induction false} ScanKeeps(es: seq<Entry>, xid: nat, mark: nat)
    requires Distinct(es) && mark <= xid
    ensures var (verdict, es') := Scan(es, xid, mark);
            && Distinct(es')
            && verdict == Answer(Saved(es), xid)
            && Trimmed(Saved(es), Saved(es'), xid, mark)
            && (verdict.New? ==> xid in Saved(es') && Saved(es')[xid] == None)
            && (verdict.New? ==> forall y :: y in Saved(es') ==> mark <= y)
  {
    if es != [] && es[0].xid != xid {
      ScanKeeps(es[1..], xid, mark);
      var (verdict, rest) := Scan(es[1..], xid, mark);
      assert es[0].xid !in Saved(rest);
      if mark <= es[0].xid {
        assert ([es[0]] + rest)[1..] == rest;
      }
    }
  }

  /** Where the entry of xid is; the length of the list if it is not there. */
  function Place(es: seq<Entry>, xid: nat): (k: nat)
    ensures k <= |es|
  {
    if es == [] || es[0].xid == xid then 0 else 1 + Place(es[1..], xid)
  }

  function Kept(es: seq<Entry>, mark: nat): seq<Entry> {
    if es == [] then [] else (if es[0].xid < mark then [] else [es[0]]) + Kept(es[1..], mark)
  }

  /** What stays of a list whose match is at `k`, and what the end of it becomes. */
  function Rest(es: seq<Entry>, xid: nat, k: nat): seq<Entry>
    requires k <= |es|
  {
    if k == |es| then [Entry(xid, None)] else es[k..]
  }

  /** Which entries go, exactly: those below the watermark that stand in front of the match, or all of them if there
      is no match and the placeholder is added. */
  lemma {:induction false} ScanTrims(es: seq<Entry>, xid: nat, mark: nat)
    ensures var k := Place(es, xid);
      && (Scan(es, xid, mark).0.New? <==> k == |es|)
      && Scan(es, xid, mark).1 == Kept(es[..k], mark) + Rest(es, xid, k)
  {
    if es == [] || es[0].xid == xid {
      NothingInFront(es, xid, mark);
    } else {
      ScanTrims(es[1..], xid, mark);
      OneInFront(es, xid, mark, Place(es[1..], xid));
      hide Kept, Rest;
    }
  }

  lemma NothingInFront(es: seq<Entry>, xid: nat, mark: nat)
    requires es == [] || es[0].xid == xid
    ensures Scan(es, xid, mark).1 == Kept(es[..0], mark) + Rest(es, xid, 0)
    ensures Scan(es, xid, mark).0.New? <==> es == []
  {
    assert es[..0] == [] && es[0..] == es;
  }

  lemma OneInFront(es: seq<Entry>, xid: nat, mark: nat, k: nat)
    requires es != [] && es[0].xid != xid && k < |es|
    requires Scan(es[1..], xid, mark).1 == Kept(es[1..][..k], mark) + Rest(es[1..], xid, k)
    ensures Scan(es, xid, mark).1 == Kept(es[..k + 1], mark) + Rest(es, xid, k + 1)
    ensures Scan(es, xid, mark).0 == Scan(es[1..], xid, mark).0
  {
    KeptFirst(es, k, mark);
    var head := if es[0].xid < mark then [] else [es[0]];
    assert Scan(es, xid, mark).1 == head + Scan(es[1..], xid, mark).1;
    assert Rest(es, xid, k + 1) == Rest(es[1..], xid, k) by {
      if k + 1 < |es| { assert es[k + 1..] == es[1..][k..]; }
    }
    hide Kept, Rest, Scan;
    Associates(head, Kept(es[1..][..k], mark), Rest(es[1..], xid, k));
  }

  lemma Associates(a: seq<Entry>, b: seq<Entry>, c: seq<Entry>)
    ensures a + (b + c) == (a + b) + c
  {
  }

  lemma KeptFirst(es: seq<Entry>, k: nat, mark: nat)
    requires k < |es|
    ensures Kept(es[..k + 1], mark) == (if es[0].xid < mark then [] else [es[0]]) + Kept(es[1..][..k], mark)
  {
    assert es[..k + 1][1..] == es[1..][..k];
  }

  /** The place is that of the first entry for xid. */
  lemma {:induction false} PlaceIsFirst(es: seq<Entry>, xid: nat)
    ensures var k := Place(es, xid); k < |es| ==> es[k].xid == xid
    ensures forall j :: 0 <= j < Place(es, xid) ==> es[j].xid != xid
  {
    if es != [] && es[0].xid != xid {
      PlaceIsFirst(es[1..], xid);
      forall j | 0 <= j < Place(es, xid) ensures es[j].xid != xid {
        if j > 0 { assert es[j] == es[1..][j - 1]; }
      }
    }
  }

  /** Apart from xid itself nothing is added or changed, and only what lies below the watermark may be gone. */
  ghost predicate Trimmed(before: map<nat, Option<Reply>>, after: map<nat, Option<Reply>>, xid: nat, mark: nat) {
    && (forall y :: y in after && y != xid ==> y in before && after[y] == before[y])
    && (forall y :: y in before && mark <= y ==> y in after && after[y] == before[y])
    && (xid in after && xid !in before ==> after[xid] == None)
  }

  lemma {:induction false} SetReplyKeeps(es: seq<Entry>, xid: nat, reply: Reply)
    requires Distinct(es)
    ensures SetReply(es, xid, reply).None? <==> xid !in Saved(es)
    ensures SetReply(es, xid, reply).Some? ==>
              var es' := SetReply(es, xid, reply).value;
              Distinct(es') && Saved(es') == Saved(es)[xid := Some(reply)] && |es'| == |es|
  {
    if es != [] {
      if es[0].xid == xid {
        assert ([Entry(xid, Some(reply))] + es[1..])[1..] == es[1..];
      } else {
        SetReplyKeeps(es[1..], xid, reply);
        if SetReply(es[1..], xid, reply).Some? {
          var rest := SetReply(es[1..], xid, reply).value;
          assert ([es[0]] + rest)[1..] == rest;
        }
      }
    }
  }

  lemma {:induction false} SavedSize(es: seq<Entry>)
    requires Distinct(es)
    ensures |Saved(es).Keys| == |es|
  {
    if es != [] {
      SavedSize(es[1..]);
      assert Saved(es).Keys == Saved(es[1..]).Keys + {es[0].xid};
    }
  }

  lemma {:induction false} BoundedSet(s: set<nat>, low: nat, high: nat)
    requires low <= high + 1 && forall y :: y in s ==> low <= y <= high
    ensures |s| <= high - low + 1
    decreases high + 1 - low
  {
    if low == high + 1 {
      assert forall y :: y !in s;
    } else {
      BoundedSet(s - {low}, low + 1, high);
      assert s <= (s - {low}) + {low};
      assert |s - {low}| >= |s| - 1;
    }
  }

  /** After NEW the list is trimmed: every entry is at or above the watermark, so the list is no longer than the
      distance from the watermark to the largest xid in it. */
  lemma NewBoundsTheList(w: Windows, clt: nat, xid: nat, xidRep: nat, largest: nat)
    requires Distinct(List(w, clt))
    requires Check(w, clt, xid, xidRep).0 == New
    requires xid <= largest && forall y :: y in Saved(List(w, clt)) ==> y <= largest
    ensures var w' := Check(w, clt, xid, xidRep).1;
            && (forall y :: y in Saved(List(w', clt)) ==> Mark(w', clt) <= y)
            && |List(w', clt)| <= largest - Mark(w', clt) + 1
  {
    var mark := Max(Mark(w, clt), xidRep);
    var w' := Check(w, clt, xid, xidRep).1;
    ScanKeeps(List(w, clt), xid, mark);
    SavedSize(List(w', clt));
    BoundedSet(Saved(List(w', clt)).Keys, mark, largest);
  }

  /** Creating the empty list beforehand makes no difference to the classification. */
  lemma KnowingFirst(w: Windows, clt: nat, xid: nat, xidRep: nat)
    ensures Check(w.(lists := w.lists[clt := List(w, clt)]), clt, xid, xidRep) == Check(w, clt, xid, xidRep)
  {
    var known := w.(lists := w.lists[clt := List(w, clt)]);
    assert Mark(known, clt) == Mark(w, clt) && List(known, clt) == List(w, clt);
    var es := Scan(List(w, clt), xid, Max(Mark(w, clt), xidRep)).1;
    assert known.lists[clt := es] == w.lists[clt := es] && known.lists[clt := List(w, clt)] == known.lists;
  }

  // ---------------------------------------------------------------------------------------------
  // The server object
  // ---------------------------------------------------------------------------------------------

  class ReplyCache {
    var replyWindow: map<nat, seq<Entry>>
    var rereplyWindow: map<nat, nat>

    function Value(): Windows
      reads this
    {
      Windows(replyWindow, rereplyWindow)
    }

    constructor ()
      ensures Value() == Windows(map[], map[])
    {
      replyWindow, rereplyWindow := map[], map[];
    }

    /** The part of rpcs::dispatch that creates the list of a client heard from for the first time. */
    method KnowClient(clt: nat)
      modifies this
      ensures clt in replyWindow
      ensures Value() == old(Value()).(lists := old(replyWindow)[clt := List(old(Value()), clt)])
    {
      if clt !in replyWindow {
        replyWindow := replyWindow[clt := []];
      }
    }

    /** rpcs::checkduplicate_and_update: the watermark update and the early return of the source. */
    method CheckDuplicateAndUpdate(clt: nat, xid: nat, xidRep: nat) returns (verdict: Verdict)
      requires clt in replyWindow
      modifies this
      ensures (verdict, Value()) == Check(old(Value()), clt, xid, xidRep)
    {
      var mark := xidRep;
      if clt !in rereplyWindow || rereplyWindow[clt] < xidRep {
        rereplyWindow := rereplyWindow[clt := xidRep];
      } else {
        mark := rereplyWindow[clt];
      }
      assert rereplyWindow == old(rereplyWindow)[clt := mark];
      if xid < mark {
        assert replyWindow == replyWindow[clt := replyWindow[clt]];
        return Forgotten;
      }
      verdict := ScanAndTrim(clt, xid, mark);
    }

    /** The rest of it: the scan that erases in place, returns early on a match and otherwise adds a placeholder. */
    method ScanAndTrim(clt: nat, xid: nat, mark: nat) returns (verdict: Verdict)
      requires clt in replyWindow
      modifies this
      ensures rereplyWindow == old(rereplyWindow)
      ensures verdict == Scan(old(replyWindow)[clt], xid, mark).0
      ensures replyWindow == old(replyWindow)[clt := Scan(old(replyWindow)[clt], xid, mark).1]
    {
      var list := replyWindow[clt];
      ghost var es := list;
      var i := 0;
      assert list[i..] == list && forall s: seq<Entry> :: list[..i] + s == s;
      while i < |list|
        invariant 0 <= i <= |list|
        invariant rereplyWindow == old(rereplyWindow)
        invariant replyWindow == old(replyWindow)[clt := list]
        invariant Scan(es, xid, mark) == (Scan(list[i..], xid, mark).0, list[..i] + Scan(list[i..], xid, mark).1)
        decreases |list| - i
      {
        if list[i].xid == xid {
          assert list == list[..i] + list[i..];
          return if list[i].reply.None? then InProgress else Done(list[i].reply.value);
        }
        assert list[i..][1..] == list[i + 1..];
        ghost var rest := Scan(list[i + 1..], xid, mark).1;
        if list[i].xid < mark {
          ghost var shorter := list[..i] + list[i + 1..];
          assert shorter[i..] == list[i + 1..] && shorter[..i] == list[..i];
          list := list[..i] + list[i + 1..];
          replyWindow := replyWindow[clt := list];
        } else {
          assert list[..i + 1] + rest == list[..i] + ([list[i]] + rest);
          i := i + 1;
        }
      }
      assert list[i..] == [] && list[..i] == list;
      assert Scan(es, xid, mark) == (New, list + [Entry(xid, None)]);
      AddPlaceholder(clt, xid);
      return New;
    }

    /** rpcs::add_reply with sz == -1. */
    method AddPlaceholder(clt: nat, xid: nat)
      requires clt in replyWindow
      modifies this
      ensures rereplyWindow == old(rereplyWindow)
      ensures replyWindow == old(replyWindow)[clt := old(replyWindow)[clt] + [Entry(xid, None)]]
    {
      replyWindow := replyWindow[clt := replyWindow[clt] + [Entry(xid, None)]];
    }

    /** rpcs::add_reply from dispatch. The answer is false where the source reaches assert(0). */
    method AddReply(clt: nat, xid: nat, reply: Reply) returns (found: bool)
      requires clt in replyWindow
      modifies this
      ensures found == SavedReply(old(Value()), clt, xid, reply).Some?
      ensures Value() == if found then SavedReply(old(Value()), clt, xid, reply).value else old(Value())
    {
      var list := replyWindow[clt];
      var i := 0;
      assert list[i..] == list && forall s: seq<Entry> :: list[..i] + s == s;
      while i < |list|
        invariant 0 <= i <= |list|
        invariant SetReply(list, xid, reply) ==
                  match SetReply(list[i..], xid, reply)
                  case None => None
                  case Some(rest) => Some(list[..i] + rest)
      {
        if list[i].xid == xid {
          assert list[..i] + ([Entry(xid, Some(reply))] + list[i..][1..]) == list[i := Entry(xid, Some(reply))];
          replyWindow := replyWindow[clt := list[i := Entry(xid, Some(reply))]];
          return true;
        }
        assert list[i..][1..] == list[i + 1..];
        assert forall s: seq<Entry> :: list[..i + 1] + s == list[..i] + ([list[i]] + s);
        i := i + 1;
      }
      return false;
    }
  }
}
