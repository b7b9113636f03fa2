/** What arrives in a map, whatever the bytes: operator< orders the values of a type strictly and totally, so a map
    that is read is sorted and has each key once, with the last value that came for it; and what else a reader makes
    of bytes. */
module MapOrder {
  import opened Common
  import opened Codec

  // --- operator< is a strict total order on the values of a type ---

  lemma {:induction false} Irreflexive(v: Value)
    ensures !Less(v, v)
    decreases v
  {
    match v
    case Bool(x) =>
    case Num(x) =>
    case Str(x) => BytesIrreflexive(x);
    case Vec(x) => VecIrreflexive(x);
    case Map(x) => EntriesIrreflexive(x);
  }

  lemma {:induction false} BytesIrreflexive(x: Bytes)
    ensures !BytesLess(x, x)
  {
    if x != [] { BytesIrreflexive(x[1..]); }
  }

  lemma {:induction false} VecIrreflexive(x: seq<Value>)
    ensures !VecLess(x, x)
    decreases x
  {
    if x != [] {
      Irreflexive(x[0]);
      VecIrreflexive(x[1..]);
    }
  }

  lemma {:induction false} EntriesIrreflexive(x: seq<(Value, Value)>)
    ensures !EntriesLess(x, x)
    decreases x
  {
    if x != [] {
      EntryIrreflexive(x[0]);
      EntriesIrreflexive(x[1..]);
    }
  }

  lemma {:induction false} EntryIrreflexive(e: (Value, Value))
    ensures !EntryLess(e, e)
    decreases e, 0
  {
    Irreflexive(e.0);
    Irreflexive(e.1);
  }

  lemma {:induction false} Transitive(a: Value, b: Value, c: Value)
    requires Less(a, b) && Less(b, c)
    ensures Less(a, c)
    decreases a
  {
    match a
    case Bool(x) =>
    case Num(x) =>
    case Str(x) => BytesTransitive(x, b.s, c.s);
    case Vec(x) => VecTransitive(x, b.elems, c.elems);
    case Map(x) => EntriesTransitive(x, b.entries, c.entries);
  }

  lemma {:induction false} BytesTransitive(x: Bytes, y: Bytes, z: Bytes)
    requires BytesLess(x, y) && BytesLess(y, z)
    ensures BytesLess(x, z)
  {
    if x != [] && x[0] == y[0] == z[0] { BytesTransitive(x[1..], y[1..], z[1..]); }
  }

  lemma {:induction false} VecTransitive(x: seq<Value>, y: seq<Value>, z: seq<Value>)
    requires VecLess(x, y) && VecLess(y, z)
    ensures VecLess(x, z)
    decreases x
  {
    if x != [] {
      if Less(x[0], y[0]) && Less(y[0], z[0]) { Transitive(x[0], y[0], z[0]); }
      if x[0] == y[0] == z[0] && !Less(x[0], y[0]) && !Less(y[0], z[0]) { VecTransitive(x[1..], y[1..], z[1..]); }
    }
  }

  lemma {:induction false} EntryTransitive(e: (Value, Value), f: (Value, Value), g: (Value, Value))
    requires EntryLess(e, f) && EntryLess(f, g)
    ensures EntryLess(e, g)
    decreases e, 0
  {
    if Less(e.0, f.0) && Less(f.0, g.0) { Transitive(e.0, f.0, g.0); }
    if Less(e.1, f.1) && Less(f.1, g.1) { Transitive(e.1, f.1, g.1); }
  }

  lemma {:induction false} EntriesTransitive(x: seq<(Value, Value)>, y: seq<(Value, Value)>, z: seq<(Value, Value)>)
    requires EntriesLess(x, y) && EntriesLess(y, z)
    ensures EntriesLess(x, z)
    decreases x
  {
    if x != [] {
      if EntryLess(x[0], y[0]) && EntryLess(y[0], z[0]) { EntryTransitive(x[0], y[0], z[0]); }
      if x[0] == y[0] == z[0] && !EntryLess(x[0], y[0]) && !EntryLess(y[0], z[0]) {
        EntriesTransitive(x[1..], y[1..], z[1..]);
      }
    }
  }

  lemma {:induction false} Total(a: Value, b: Value, t: Type)
    requires HasType(a, t) && HasType(b, t)
    ensures Less(a, b) || a == b || Less(b, a)
    decreases t, 1, 0
  {
    match t
    case TBool =>
    case TUnsigned(w) =>
    case TSigned(w) =>
    case TString => BytesTotal(a.s, b.s);
    case TVector(elem) => VecTotal(a.elems, b.elems, elem);
    case TMap(key, val) => EntriesTotal(a.entries, b.entries, key, val);
  }

  lemma {:induction false} BytesTotal(x: Bytes, y: Bytes)
    ensures BytesLess(x, y) || x == y || BytesLess(y, x)
  {
    if x != [] && y != [] {
      BytesTotal(x[1..], y[1..]);
      assert x == [x[0]] + x[1..] && y == [y[0]] + y[1..];
    }
  }

  lemma {:induction false} VecTotal(x: seq<Value>, y: seq<Value>, elem: Type)
    requires (forall i :: 0 <= i < |x| ==> HasType(x[i], elem)) && (forall i :: 0 <= i < |y| ==> HasType(y[i], elem))
    ensures VecLess(x, y) || x == y || VecLess(y, x)
    decreases elem, 2, |x|
  {
    if x != [] && y != [] {
      Total(x[0], y[0], elem);
      VecTotal(x[1..], y[1..], elem);
      assert x == [x[0]] + x[1..] && y == [y[0]] + y[1..];
    }
  }

  lemma {:induction false} EntriesTotal(x: seq<(Value, Value)>, y: seq<(Value, Value)>, key: Type, val: Type)
    requires forall i :: 0 <= i < |x| ==> HasType(x[i].0, key) && HasType(x[i].1, val)
    requires forall i :: 0 <= i < |y| ==> HasType(y[i].0, key) && HasType(y[i].1, val)
    ensures EntriesLess(x, y) || x == y || EntriesLess(y, x)
    decreases TMap(key, val), 0, |x|
  {
    if x != [] && y != [] {
      Total(x[0].0, y[0].0, key);
      Total(x[0].1, y[0].1, val);
      EntriesTotal(x[1..], y[1..], key, val);
      assert x == [x[0]] + x[1..] && y == [y[0]] + y[1..];
    }
  }

  // --- assignment by key ---

  /** What the map has for a key. */
  function Find(m: seq<(Value, Value)>, k: Value): Option<Value> {
    if m == [] then None else if m[0].0 == k then Some(m[0].1) else Find(m[1..], k)
  }

  /** d[a] = b changes what the map has for `a`, and for no other key. */
  lemma {:induction false} AssignSets(m: seq<(Value, Value)>, a: Value, b: Value, k: Value)
    ensures Find(Assign(m, a, b), k) == if k == a then Some(b) else Find(m, k)
  {
    if m != [] {
      Irreflexive(a);
      AssignSets(m[1..], a, b, k);
      assert ([m[0]] + Assign(m[1..], a, b))[1..] == Assign(m[1..], a, b);
      assert ([(a, b)] + m[1..])[1..] == m[1..] && ([(a, b)] + m)[1..] == m;
    }
  }

  ghost predicate KeysTyped(m: seq<(Value, Value)>, key: Type) {
    forall i :: 0 <= i < |m| ==> HasType(m[i].0, key)
  }

  lemma {:induction false} Finds(m: seq<(Value, Value)>, k: Value)
    ensures Find(m, k).Some? <==> exists i :: 0 <= i < |m| && m[i].0 == k
  {
    if m != [] && m[0].0 != k {
      Finds(m[1..], k);
      forall i | 0 <= i < |m| && m[i].0 == k ensures Find(m[1..], k).Some? {
        assert m[1..][i - 1].0 == k;
      }
    }
  }

  /** Nothing but the new key comes in. */
  lemma KeysOfAssign(m: seq<(Value, Value)>, a: Value, b: Value, i: nat)
    requires i < |Assign(m, a, b)|
    ensures var k := Assign(m, a, b)[i].0; k == a || exists j :: 0 <= j < |m| && m[j].0 == k
  {
    var k := Assign(m, a, b)[i].0;
    Finds(Assign(m, a, b), k);
    AssignSets(m, a, b, k);
    Finds(m, k);
    hide Assign, Find;
  }

  lemma InFront(e: (Value, Value), m: seq<(Value, Value)>)
    requires Ascending(m) && forall i :: 0 <= i < |m| ==> Less(e.0, m[i].0)
    ensures Ascending([e] + m)
  {
    hide Less;
  }

  lemma FrontIsLeast(m: seq<(Value, Value)>, a: Value)
    requires Ascending(m) && m != [] && Less(a, m[0].0)
    ensures forall i :: 0 <= i < |m| ==> Less(a, m[i].0)
  {
    forall i | 0 <= i < |m| ensures Less(a, m[i].0) {
      if i > 0 { Transitive(a, m[0].0, m[i].0); }
    }
    hide Less;
  }

  /** ... and keeps it sorted, and without a key twice. */
  lemma {:induction false} AssignSorts(m: seq<(Value, Value)>, a: Value, b: Value, key: Type)
    requires Ascending(m) && KeysTyped(m, key) && HasType(a, key)
    ensures Ascending(Assign(m, a, b)) && KeysTyped(Assign(m, a, b), key)
  {
    hide HasType, Less;
    if m == [] {
    } else if Less(m[0].0, a) {
      AssignSorts(m[1..], a, b, key);
      var rest := Assign(m[1..], a, b);
      forall i | 0 <= i < |rest| ensures Less(m[0].0, rest[i].0) {
        KeysOfAssign(m[1..], a, b, i);
      }
      InFront(m[0], rest);
    } else if m[0].0 == a {
      InFront((a, b), m[1..]);
    } else {
      Total(m[0].0, a, key);
      FrontIsLeast(m, a);
      InFront((a, b), m);
    }
    hide Ascending;
  }

  // --- what a reader makes of any bytes at all ---

  /** Whatever the bytes are, also when they run out, what is read has the type that was asked for; so maps are sorted
      and have no key twice, at any depth. */
  lemma {:induction false} ReadsTyped(t: Type, s: Stream)
    requires |s.buf| < TWO_TO_THE_31
    ensures HasType(Dec(t, s).0, t) && Dec(t, s).1.buf == s.buf
    decreases t, 1, 0
  {
    assert Pow256(1) == 256 && Pow256(4) == TWO_TO_THE_32;
    match t
    case TBool => GetNumReadsOn(1, s);
    case TUnsigned(w) => GetNumReadsOn(w, s);
    case TSigned(w) => GetNumReadsOn(w, s);
    case TString => GetNumReadsOn(4, s);
    case TVector(elem) =>
      GetNumReadsOn(4, s);
      ElemsTyped(t, GetNum(4, s).0, GetNum(4, s).1);
    case TMap(key, val) =>
      GetNumReadsOn(4, s);
      EntriesTyped(t, GetNum(4, s).0, GetNum(4, s).1);
  }

  lemma {:induction false} ElemsTyped(t: Type, n: nat, s: Stream)
    requires t.TVector? && |s.buf| < TWO_TO_THE_31
    ensures |DecElems(t, n, s).0| == n && DecElems(t, n, s).1.buf == s.buf
    ensures forall i :: 0 <= i < n ==> HasType(DecElems(t, n, s).0[i], t.elem)
    decreases t, 0, n
  {
    if n > 0 {
      ElemsTyped(t, n - 1, s);
      ReadsTyped(t.elem, DecElems(t, n - 1, s).1);
    }
  }

  /** A sorted map with keys and values of these types. */
  ghost predicate EntriesOk(m: seq<(Value, Value)>, key: Type, val: Type) {
    Ascending(m) && KeysTyped(m, key) && forall i :: 0 <= i < |m| ==> HasType(m[i].1, val)
  }

  lemma {:induction false} AssignTypes(m: seq<(Value, Value)>, a: Value, b: Value, val: Type)
    requires (forall i :: 0 <= i < |m| ==> HasType(m[i].1, val)) && HasType(b, val)
    ensures forall i :: 0 <= i < |Assign(m, a, b)| ==> HasType(Assign(m, a, b)[i].1, val)
    ensures |Assign(m, a, b)| <= |m| + 1
  {
    hide HasType, Less;
    if m != [] { AssignTypes(m[1..], a, b, val); }
  }

  lemma {:induction false} EntriesTyped(t: Type, n: nat, s: Stream)
    requires t.TMap? && |s.buf| < TWO_TO_THE_31
    ensures EntriesOk(DecEntries(t, n, s).0, t.key, t.val) && |DecEntries(t, n, s).0| <= n
    ensures DecEntries(t, n, s).1.buf == s.buf
    decreases t, 0, n
  {
    if n > 0 {
      EntriesTyped(t, n - 1, s);
      var (m, s1) := DecEntries(t, n - 1, s);
      ReadsTyped(t.key, s1);
      ReadsTyped(t.val, Dec(t.key, s1).1);
      var a, b := Dec(t.key, s1).0, Dec(t.val, Dec(t.key, s1).1).0;
      hide HasType, Dec, Less, Assign;
      AssignSorts(m, a, b, t.key);
      AssignTypes(m, a, b, t.val);
    }
  }

  /** The pairs that come in for a map, one after the other. */
  function Pairs(t: Type, n: nat, s: Stream): (seq<(Value, Value)>, Stream)
    requires t.TMap?
  {
    if n == 0 then ([], s)
    else
      var (ps, s1) := Pairs(t, n - 1, s);
      var (a, s2) := Dec(t.key, s1);
      var (b, s3) := Dec(t.val, s2);
      (ps + [(a, b)], s3)
  }

  /** The last value that came for this key. */
  function LastFor(ps: seq<(Value, Value)>, k: Value): Option<Value> {
    if ps == [] then None
    else if ps[|ps| - 1].0 == k then Some(ps[|ps| - 1].1)
    else LastFor(ps[..|ps| - 1], k)
  }

  /** A map that is read has for each key the last value that came for it. */
  lemma {:induction false} LastOneCounts(t: Type, n: nat, s: Stream, k: Value)
    requires t.TMap?
    ensures Find(DecEntries(t, n, s).0, k) == LastFor(Pairs(t, n, s).0, k)
    ensures DecEntries(t, n, s).1 == Pairs(t, n, s).1
  {
    hide Dec, DecEntries, Pairs, Find, Assign, LastFor;
    if n == 0 {
      NoPairs(t, s, k);
    } else {
      LastOneCounts(t, n - 1, s, k);
      OneMorePair(t, n, s);
      var (m, s1) := DecEntries(t, n - 1, s);
      var a, b := Dec(t.key, s1).0, Dec(t.val, Dec(t.key, s1).1).0;
      AssignSets(m, a, b, k);
      LastOfMore(Pairs(t, n - 1, s).0, a, b, k);
    }
  }

  lemma NoPairs(t: Type, s: Stream, k: Value)
    requires t.TMap?
    ensures Find(DecEntries(t, 0, s).0, k) == LastFor(Pairs(t, 0, s).0, k) && DecEntries(t, 0, s).1 == Pairs(t, 0, s).1
  {
  }

  lemma OneMorePair(t: Type, n: nat, s: Stream)
    requires t.TMap? && n > 0 && DecEntries(t, n - 1, s).1 == Pairs(t, n - 1, s).1
    ensures var (m, s1) := DecEntries(t, n - 1, s);
      var a, b := Dec(t.key, s1).0, Dec(t.val, Dec(t.key, s1).1).0;
      && DecEntries(t, n, s).0 == Assign(m, a, b) && Pairs(t, n, s).0 == Pairs(t, n - 1, s).0 + [(a, b)]
      && DecEntries(t, n, s).1 == Pairs(t, n, s).1
  {
    hide Dec, Assign;
  }

  lemma LastOfMore(ps: seq<(Value, Value)>, a: Value, b: Value, k: Value)
    ensures LastFor(ps + [(a, b)], k) == if a == k then Some(b) else LastFor(ps, k)
  {
    assert (ps + [(a, b)])[..|ps|] == ps;
  }

  lemma OneByte(s: Stream)
    requires s.ok && s.ind < |s.buf|
    ensures GetNum(1, s) == (s.buf[s.ind] as nat, Skip(s, 1))
  {
    assert GetNum(0, s) == (0, s);
  }

  lemma NextByte(s: Stream, x: byte)
    requires s.ok && s.ind < |s.buf|
    ensures Next(s, [x]) <==> s.buf[s.ind] == x
  {
    var y := s.buf[s.ind..s.ind + 1];
    assert y[0] == s.buf[s.ind] && |y| == 1;
  }

  /** A bool is true exactly if its byte is not 0; and what was read is what a writer would have written exactly if
      the byte is 0 or 1. */
  lemma BoolsAreLenient(s: Stream)
    requires s.ok && s.ind < |s.buf|
    ensures Dec(TBool, s) == (Bool(s.buf[s.ind] != 0), Skip(s, 1))
    ensures Next(s, Enc(Dec(TBool, s).0, TBool)) <==> s.buf[s.ind] <= 1
  {
    OneByte(s);
    hide GetNum, Next;
    NextByte(s, if s.buf[s.ind] != 0 then 1 else 0);
  }

  // --- without bools and maps, reading and writing are inverse in this direction, too ---

  predicate Plain(t: Type) {
    match t
    case TBool => false
    case TMap(key, val) => false
    case TVector(elem) => Plain(elem)
    case _ => true
  }

  lemma NextJoins(s: Stream, x: Bytes, y: Bytes)
    requires Next(s, x) && Next(Skip(s, |x|), y)
    ensures Next(s, x + y)
  {
    var z := s.buf[s.ind..s.ind + |x + y|];
    assert z[..|x|] == x && z[|x|..] == y;
  }

  lemma LastByte(w: nat, hi: nat, lo: byte)
    ensures Big(w + 1, hi * 256 + lo) == Big(w, hi) + [lo]
  {
    assert (hi * 256 + lo) / 256 == hi && (hi * 256 + lo) % 256 == lo;
  }

  lemma {:induction false} NumWritesBack(w: nat, s: Stream)
    requires GetNum(w, s).1.ok && s.ind <= |s.buf|
    ensures Next(s, Big(w, GetNum(w, s).0)) && GetNum(w, s).1 == Skip(s, w)
  {
    hide Next, Big, GetNum, GetByte;
    if w == 0 {
      NoBytes(s);
    } else {
      OneByteLess(w, s);
      var (hi, s1) := GetNum(w - 1, s);
      var lo := GetByte(s1).0;
      NumWritesBack(w - 1, s);
      LastByte(w - 1, hi, lo);
      NextJoins(s, Big(w - 1, hi), [lo]);
    }
  }

  lemma NoBytes(s: Stream)
    requires GetNum(0, s).1.ok && s.ind <= |s.buf|
    ensures GetNum(0, s) == (0, s) && Next(s, Big(0, 0)) && Skip(s, 0) == s
  {
    assert s.buf[s.ind..s.ind] == [];
  }

  lemma OneByteLess(w: nat, s: Stream)
    requires w > 0 && GetNum(w, s).1.ok && s.ind <= |s.buf|
    ensures var (hi, s1) := GetNum(w - 1, s); var lo := GetByte(s1).0;
      && s1.ok && s1 == Skip(s, w - 1) && Next(s1, [lo]) && GetNum(w, s) == (hi * 256 + lo, Skip(s, w))
  {
    var s1 := GetNum(w - 1, s).1;
    assert GetNum(w, s).1 == GetByte(s1).1;
    GetNumReadsOn(w - 1, s);
    hide GetNum, Next;
    NextByte(s1, GetByte(s1).0);
  }

  /** For every type without bools and maps: what a reader accepts is what a writer of that value writes, byte for
      byte. */
  lemma {:induction false} WritesBack(t: Type, s: Stream)
    requires Plain(t) && |s.buf| < TWO_TO_THE_31 && s.ind <= |s.buf| && Dec(t, s).1.ok
    ensures HasType(Dec(t, s).0, t) && Next(s, Enc(Dec(t, s).0, t)) && Dec(t, s).1 == Skip(s, |Enc(Dec(t, s).0, t)|)
    decreases t, 1, 0
  {
    ReadsTyped(t, s);
    match t
    case TUnsigned(w) => NumWritesBack(w, s);
    case TSigned(w) => NumWritesBack(w, s);
    case TString => StringWritesBack(s);
    case TVector(elem) =>
      GetNumReadsOn(4, s);
      var (n, s1) := GetNum(4, s);
      ElemsReadOn(t, n, s1);
      ElemsTyped(t, n, s1);
      ElemsWriteBack(t, n, s1);
      VectorWritesBack(t, s);
  }

  lemma VectorWritesBack(t: Type, s: Stream)
    requires t.TVector? && s.ind <= |s.buf| && HasType(Dec(t, s).0, t) && GetNum(4, s).1.ok
    requires var (n, s1) := GetNum(4, s); var (vs, s2) := DecElems(t, n, s1);
      && |vs| == n && (forall i :: 0 <= i < n ==> HasType(vs[i], t.elem))
      && Next(s1, EncElems(vs, t)) && s2 == Skip(s1, |EncElems(vs, t)|)
    ensures Next(s, Enc(Dec(t, s).0, t)) && Dec(t, s).1 == Skip(s, |Enc(Dec(t, s).0, t)|)
  {
    var (n, s1) := GetNum(4, s);
    var (vs, s2) := DecElems(t, n, s1);
    assert Dec(t, s) == (Vec(vs), s2);
    NumWritesBack(4, s);
    assert Enc(Vec(vs), t) == Big(4, n) + EncElems(vs, t);
    hide EncElems, DecElems, Big, GetNum, Dec, Enc, Next, HasType;
    NextJoins(s, Big(4, n), EncElems(vs, t));
  }

  lemma BytesWriteBack(n: nat, s: Stream)
    requires s.ok && s.ind <= |s.buf| && GetBytes(n, s).1.ok
    ensures Next(s, GetBytes(n, s).0) && |GetBytes(n, s).0| == n && GetBytes(n, s).1 == Skip(s, n)
  {
  }

  lemma StringWritesBack(s: Stream)
    requires |s.buf| < TWO_TO_THE_31 && s.ind <= |s.buf| && Dec(TString, s).1.ok && HasType(Dec(TString, s).0, TString)
    ensures Next(s, Enc(Dec(TString, s).0, TString)) && Dec(TString, s).1 == Skip(s, |Enc(Dec(TString, s).0, TString)|)
  {
    var (n, s1) := GetNum(4, s);
    var x := GetBytes(n, s1).0;
    assert s1.ok && Dec(TString, s) == (Str(x), GetBytes(n, s1).1);
    hide Dec;
    NumWritesBack(4, s);
    hide GetNum;
    BytesWriteBack(n, s1);
    hide GetBytes, Big, Next;
    NextJoins(s, Big(4, n), x);
    assert Enc(Str(x), TString) == Big(4, n) + x;
  }

  lemma {:induction false} ElemsWriteBack(t: Type, n: nat, s: Stream)
    requires t.TVector? && Plain(t) && |s.buf| < TWO_TO_THE_31 && s.ind <= |s.buf| && DecElems(t, n, s).1.ok
    requires |DecElems(t, n, s).0| == n && forall i :: 0 <= i < n ==> HasType(DecElems(t, n, s).0[i], t.elem)
    ensures Next(s, EncElems(DecElems(t, n, s).0, t))
    ensures DecElems(t, n, s).1 == Skip(s, |EncElems(DecElems(t, n, s).0, t)|)
    decreases t, 0, n
  {
    if n > 0 {
      var (vs, s1) := DecElems(t, n - 1, s);
      var (v, s2) := Dec(t.elem, s1);
      assert DecElems(t, n, s) == (vs + [v], s2);
      hide DecElems, EncElems, Enc, HasType, Next;
      ElemsTyped(t, n - 1, s);
      ElemsReadOn(t, n - 1, s);
      DecReadsOn(t.elem, s1);
      hide Dec;
      ElemsWriteBack(t, n - 1, s);
      WritesBack(t.elem, s1);
      OneMoreWritten(vs, v, t);
      NextJoins(s, EncElems(vs, t), Enc(v, t.elem));
    } else {
      NoneWritten(t, s);
    }
  }

  lemma NoneWritten(t: Type, s: Stream)
    requires t.TVector? && s.ind <= |s.buf|
    ensures EncElems([], t) == [] && (s.ok ==> Next(s, [])) && DecElems(t, 0, s) == ([], s)
  {
  }

  lemma OneMoreWritten(vs: seq<Value>, v: Value, t: Type)
    requires t.TVector? && (forall i :: 0 <= i < |vs| ==> HasType(vs[i], t.elem)) && HasType(v, t.elem)
    ensures (forall i :: 0 <= i < |vs + [v]| ==> HasType((vs + [v])[i], t.elem))
    ensures EncElems(vs + [v], t) == EncElems(vs, t) + Enc(v, t.elem)
  {
    assert (vs + [v])[..|vs|] == vs;
    hide HasType, Enc;
  }
}
