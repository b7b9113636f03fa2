/** What the marshalling operators write and read, as functions on bytes: integers big-endian in 1, 2, 4 or 8 bytes,
    strings, vectors and maps with a count in front. A reader that runs out of bytes goes on with zeros, and remembers
    it. */
module Codec {
  import opened Common

  type Width = w: nat | w == 1 || w == 2 || w == 4 || w == 8 witness 1

  datatype Type =
    | TBool
    | TUnsigned(width: Width)    // unsigned char, unsigned short, unsigned int, unsigned long long
    | TSigned(width: Width)      // char, short, int
    | TString
    | TVector(elem: Type)
    | TMap(key: Type, val: Type)

  /** A map is the list of its entries in the order of an iteration over it. */
  datatype Value =
    | Bool(b: bool)
    | Num(n: int)
    | Str(s: Bytes)
    | Vec(elems: seq<Value>)
    | Map(entries: seq<(Value, Value)>)

  // --- integers ---

  function Pow256(w: nat): (p: int)
    ensures p >= 1
  {
    if w == 0 then 1 else 256 * Pow256(w - 1)
  }

  function Big(w: nat, n: nat): (s: Bytes)
    ensures |s| == w
  {
    if w == 0 then [] else Big(w - 1, n / 256) + [n % 256]
  }

  /** The bit pattern of an integer in `w` bytes, and back for a signed one. */
  function Pattern(w: nat, n: int): (p: nat)
    requires -Pow256(w) <= n < Pow256(w)
    ensures p < Pow256(w)
  {
    if n >= 0 then n else n + Pow256(w)
  }

  function FromPattern(w: nat, p: nat): int {
    if 2 * p < Pow256(w) then p else p - Pow256(w)
  }

  lemma {:induction false} LessAppended(x: Bytes, y: Bytes, a: byte, b: byte)
    requires |x| == |y|
    ensures BytesLess(x + [a], y + [b]) <==> BytesLess(x, y) || (x == y && a < b)
  {
    if x == [] {
      assert (x + [a])[1..] == [] && (y + [b])[1..] == [];
    } else {
      assert (x + [a])[1..] == x[1..] + [a] && (y + [b])[1..] == y[1..] + [b];
      assert x == y <==> x[0] == y[0] && x[1..] == y[1..];
      LessAppended(x[1..], y[1..], a, b);
    }
  }

  /** The bytes come in network order: the order of numbers is the order of their bytes. */
  lemma {:induction false} BigKeepsOrder(w: nat, m: nat, n: nat)
    requires m < Pow256(w) && n < Pow256(w)
    ensures BytesLess(Big(w, m), Big(w, n)) <==> m < n
    ensures Big(w, m) == Big(w, n) <==> m == n
  {
    if w > 0 {
      BigKeepsOrder(w - 1, m / 256, n / 256);
      LessAppended(Big(w - 1, m / 256), Big(w - 1, n / 256), m % 256, n % 256);
      assert Big(w, m)[w - 1] == m % 256 && Big(w, n)[w - 1] == n % 256;
      assert Big(w, m)[..w - 1] == Big(w - 1, m / 256) && Big(w, n)[..w - 1] == Big(w - 1, n / 256);
    }
  }

  // --- values of a type ---

  predicate HasType(v: Value, t: Type)
    decreases t
  {
    match t
    case TBool => v.Bool?
    case TUnsigned(w) => v.Num? && 0 <= v.n < Pow256(w)
    case TSigned(w) => v.Num? && -Pow256(w) <= 2 * v.n < Pow256(w)
    case TString => v.Str? && |v.s| < TWO_TO_THE_31
    case TVector(elem) =>
      v.Vec? && |v.elems| < TWO_TO_THE_32 && forall i :: 0 <= i < |v.elems| ==> HasType(v.elems[i], elem)
    case TMap(key, val) =>
      && v.Map? && |v.entries| < TWO_TO_THE_32 && Ascending(v.entries)
      && forall i :: 0 <= i < |v.entries| ==> HasType(v.entries[i].0, key) && HasType(v.entries[i].1, val)
  }

  /** operator< of the C++ types. */
  predicate Less(a: Value, b: Value)
    decreases a
  {
    match a
    case Bool(x) => b.Bool? && !x && b.b
    case Num(x) => b.Num? && x < b.n
    case Str(x) => b.Str? && BytesLess(x, b.s)
    case Vec(x) => b.Vec? && VecLess(x, b.elems)
    case Map(x) => b.Map? && EntriesLess(x, b.entries)
  }

  predicate BytesLess(x: Bytes, y: Bytes) {
    y != [] && (x == [] || x[0] < y[0] || (x[0] == y[0] && BytesLess(x[1..], y[1..])))
  }

  predicate VecLess(x: seq<Value>, y: seq<Value>)
    decreases x
  {
    y != [] && (x == [] || Less(x[0], y[0]) || (x[0] == y[0] && VecLess(x[1..], y[1..])))
  }

  predicate EntriesLess(x: seq<(Value, Value)>, y: seq<(Value, Value)>)
    decreases x
  {
    y != [] && (x == [] || EntryLess(x[0], y[0]) || (x[0] == y[0] && EntriesLess(x[1..], y[1..])))
  }

  predicate EntryLess(e: (Value, Value), f: (Value, Value))
    decreases e
  {
    Less(e.0, f.0) || (e.0 == f.0 && Less(e.1, f.1))
  }

  predicate Ascending(m: seq<(Value, Value)>) {
    forall i, j :: 0 <= i < j < |m| ==> Less(m[i].0, m[j].0)
  }

  /** d[a] = b */
  function Assign(m: seq<(Value, Value)>, a: Value, b: Value): seq<(Value, Value)> {
    if m == [] then [(a, b)]
    else if Less(m[0].0, a) then [m[0]] + Assign(m[1..], a, b)
    else if m[0].0 == a then [(a, b)] + m[1..]
    else [(a, b)] + m
  }

  // --- writing ---

  function Enc(v: Value, t: Type): Bytes
    requires HasType(v, t)
    decreases t, 1, 0
  {
    match t
    case TBool => [if v.b then 1 else 0]
    case TUnsigned(w) => Big(w, v.n)
    case TSigned(w) => Big(w, Pattern(w, v.n))
    case TString => Big(4, |v.s|) + v.s
    case TVector(elem) => Big(4, |v.elems|) + EncElems(v.elems, t)
    case TMap(key, val) => Big(4, |v.entries|) + EncEntries(v.entries, t)
  }

  function EncElems(vs: seq<Value>, t: Type): Bytes
    requires t.TVector? && forall i :: 0 <= i < |vs| ==> HasType(vs[i], t.elem)
    decreases t, 0, |vs|
  {
    if vs == [] then [] else EncElems(vs[..|vs| - 1], t) + Enc(vs[|vs| - 1], t.elem)
  }

  function EncEntries(m: seq<(Value, Value)>, t: Type): Bytes
    requires t.TMap? && forall i :: 0 <= i < |m| ==> HasType(m[i].0, t.key) && HasType(m[i].1, t.val)
    decreases t, 0, |m|
  {
    if m == [] then []
    else EncEntries(m[..|m| - 1], t) + (Enc(m[|m| - 1].0, t.key) + Enc(m[|m| - 1].1, t.val))
  }

  // --- reading ---

  datatype Stream = Stream(buf: Bytes, ind: nat, ok: bool)

  function GetByte(s: Stream): (byte, Stream) {
    if s.ind >= |s.buf| then (0, s.(ok := false)) else (s.buf[s.ind], s.(ind := s.ind + 1))
  }

  function GetNum(w: nat, s: Stream): (r: (nat, Stream))
    ensures r.0 < Pow256(w)
  {
    if w == 0 then (0, s)
    else
      var (hi, s1) := GetNum(w - 1, s);
      var (lo, s2) := GetByte(s1);
      (hi * 256 + lo, s2)
  }

  function GetBytes(n: nat, s: Stream): (Bytes, Stream) {
    if s.ind + n > |s.buf| then ([], s.(ok := false)) else (s.buf[s.ind..s.ind + n], s.(ind := s.ind + n))
  }

  function Dec(t: Type, s: Stream): (Value, Stream)
    decreases t, 1, 0
  {
    match t
    case TBool => var (n, s1) := GetNum(1, s); (Bool(n != 0), s1)
    case TUnsigned(w) => var (n, s1) := GetNum(w, s); (Num(n), s1)
    case TSigned(w) => var (n, s1) := GetNum(w, s); (Num(FromPattern(w, n)), s1)
    case TString =>
      var (n, s1) := GetNum(4, s);
      if s1.ok then var (x, s2) := GetBytes(n, s1); (Str(x), s2) else (Str([]), s1)
    case TVector(elem) =>
      var (n, s1) := GetNum(4, s);
      var (vs, s2) := DecElems(t, n, s1);
      (Vec(vs), s2)
    case TMap(key, val) =>
      var (n, s1) := GetNum(4, s);
      var (m, s2) := DecEntries(t, n, s1);
      (Map(m), s2)
  }

  function DecElems(t: Type, n: nat, s: Stream): (seq<Value>, Stream)
    requires t.TVector?
    decreases t, 0, n
  {
    if n == 0 then ([], s)
    else
      var (vs, s1) := DecElems(t, n - 1, s);
      var (v, s2) := Dec(t.elem, s1);
      (vs + [v], s2)
  }

  function DecEntries(t: Type, n: nat, s: Stream): (seq<(Value, Value)>, Stream)
    requires t.TMap?
    decreases t, 0, n
  {
    if n == 0 then ([], s)
    else
      var (m, s1) := DecEntries(t, n - 1, s);
      var (a, s2) := Dec(t.key, s1);
      var (b, s3) := Dec(t.val, s2);
      (Assign(m, a, b), s3)
  }

  /** The test in rawbytes that `n` more bytes are not there: it adds in 32 bits. */
  predicate SeemsTooLong(ind: nat, n: nat, size: nat) {
    (ind + n) % TWO_TO_THE_32 > size
  }

  /** The test is right if and only if its sum does not wrap. */
  lemma LengthTestIsRight(ind: nat, n: nat, size: nat)
    requires ind <= size < TWO_TO_THE_31 && n < TWO_TO_THE_32
    ensures (SeemsTooLong(ind, n, size) <==> ind + n > size) <==> ind + n < TWO_TO_THE_32
  {
    var sum := ind + n;
    assert sum % TWO_TO_THE_32 == if sum < TWO_TO_THE_32 then sum else sum - TWO_TO_THE_32;
  }

  lemma LengthTestWraps()
    ensures !SeemsTooLong(28, 0xffff_ffff, 28) && 28 + 0xffff_ffff > 28
  {
  }

  predicate OkDone(s: Stream) {
    s.ok && s.ind == |s.buf|
  }

  // --- what is written can be read ---

  /** The stream is good, and the next bytes in it are these. */
  predicate Next(s: Stream, x: Bytes) {
    s.ok && s.ind + |x| <= |s.buf| && s.buf[s.ind..s.ind + |x|] == x
  }

  function Skip(s: Stream, n: nat): Stream {
    s.(ind := s.ind + n)
  }

  lemma NextSplit(s: Stream, x: Bytes, y: Bytes)
    requires Next(s, x + y)
    ensures Next(s, x) && Next(Skip(s, |x|), y) && Skip(Skip(s, |x|), |y|) == Skip(s, |x + y|)
  {
    var z := s.buf[s.ind..s.ind + |x + y|];
    assert s.buf[s.ind..s.ind + |x|] == z[..|x|] == x;
    assert s.buf[s.ind + |x|..s.ind + |x| + |y|] == z[|x|..] == y;
  }

  lemma {:induction false} NumRoundTrip(w: nat, n: nat, s: Stream)
    requires n < Pow256(w) && Next(s, Big(w, n))
    ensures GetNum(w, s) == (n, Skip(s, w))
  {
    if w > 0 {
      NextSplit(s, Big(w - 1, n / 256), [n % 256]);
      NumRoundTrip(w - 1, n / 256, s);
    }
  }

  lemma SignedRoundTrip(w: nat, n: int)
    requires -Pow256(w) <= 2 * n < Pow256(w)
    ensures FromPattern(w, Pattern(w, n)) == n
  {
  }

  lemma {:induction false} AssignLast(m: seq<(Value, Value)>, a: Value, b: Value)
    requires forall i :: 0 <= i < |m| ==> Less(m[i].0, a)
    ensures Assign(m, a, b) == m + [(a, b)]
  {
    if m != [] {
      AssignLast(m[1..], a, b);
      assert m == [m[0]] + m[1..];
    }
  }

  /** Every value of every type reads back as itself, and the reader stops right behind it. */
  lemma {:induction false} RoundTrip(v: Value, t: Type, s: Stream)
    requires HasType(v, t) && Next(s, Enc(v, t))
    ensures Dec(t, s) == (v, Skip(s, |Enc(v, t)|))
    decreases t, 1, 0
  {
    match t
    case TBool => assert Big(1, if v.b then 1 else 0) == Enc(v, t); NumRoundTrip(1, if v.b then 1 else 0, s);
    case TUnsigned(w) => NumRoundTrip(w, v.n, s);
    case TSigned(w) => NumRoundTrip(w, Pattern(w, v.n), s); SignedRoundTrip(w, v.n);
    case TString =>
      assert Pow256(4) == TWO_TO_THE_32;
      NextSplit(s, Big(4, |v.s|), v.s);
      NumRoundTrip(4, |v.s|, s);
    case TVector(elem) =>
      assert Pow256(4) == TWO_TO_THE_32;
      NextSplit(s, Big(4, |v.elems|), EncElems(v.elems, t));
      NumRoundTrip(4, |v.elems|, s);
      ElemsRoundTrip(v.elems, t, Skip(s, 4));
    case TMap(key, val) =>
      assert Pow256(4) == TWO_TO_THE_32;
      NextSplit(s, Big(4, |v.entries|), EncEntries(v.entries, t));
      NumRoundTrip(4, |v.entries|, s);
      EntriesRoundTrip(v.entries, t, Skip(s, 4));
  }

  lemma {:induction false} ElemsRoundTrip(vs: seq<Value>, t: Type, s: Stream)
    requires t.TVector? && (forall i :: 0 <= i < |vs| ==> HasType(vs[i], t.elem))
    requires Next(s, EncElems(vs, t))
    ensures DecElems(t, |vs|, s) == (vs, Skip(s, |EncElems(vs, t)|))
    decreases t, 0, |vs|
  {
    if vs != [] {
      var k := |vs| - 1;
      var front, last := EncElems(vs[..k], t), Enc(vs[k], t.elem);
      NextSplit(s, front, last);
      ElemsRoundTrip(vs[..k], t, s);
      RoundTrip(vs[k], t.elem, Skip(s, |front|));
      assert vs[..k] + [vs[k]] == vs;
    }
  }

  lemma {:induction false} EntriesRoundTrip(m: seq<(Value, Value)>, t: Type, s: Stream)
    requires t.TMap? && (forall i :: 0 <= i < |m| ==> HasType(m[i].0, t.key) && HasType(m[i].1, t.val))
    requires Ascending(m) && Next(s, EncEntries(m, t))
    ensures DecEntries(t, |m|, s) == (m, Skip(s, |EncEntries(m, t)|))
    decreases t, 0, |m|
  {
    hide HasType, Enc, Dec, Next, Less, Assign;
    if m != [] {
      var k := |m| - 1;
      var front, a, b := EncEntries(m[..k], t), Enc(m[k].0, t.key), Enc(m[k].1, t.val);
      NextSplit(s, front, a + b);
      NextSplit(Skip(s, |front|), a, b);
      EntriesRoundTrip(m[..k], t, s);
      RoundTrip(m[k].0, t.key, Skip(s, |front|));
      RoundTrip(m[k].1, t.val, Skip(Skip(s, |front|), |a|));
      AssignLast(m[..k], m[k].0, m[k].1);
      assert m[..k] + [m[k]] == m;
    }
  }

  // --- a reader that has run out ---

  /** Reading never goes back, never leaves the buffer, and once it has failed it stays failed; and there is nothing
      to read at the end. */
  ghost predicate ReadsOn(s: Stream, r: Stream) {
    && r.buf == s.buf && s.ind <= r.ind && (s.ind <= |s.buf| ==> r.ind <= |r.buf|)
    && (r.ok ==> s.ok && (s.ind < r.ind || s == r))
  }

  lemma {:induction false} GetNumReadsOn(w: nat, s: Stream)
    ensures ReadsOn(s, GetNum(w, s).1)
    ensures w > 0 && s.ind >= |s.buf| ==> !GetNum(w, s).1.ok
    ensures GetNum(w, s).1.ok ==> GetNum(w, s).1 == Skip(s, w)
  {
    if w > 0 {
      GetNumReadsOn(w - 1, s);
    }
  }

  /** An integer is read exactly if its bytes are there. */
  lemma {:induction false} NumIsThere(w: nat, s: Stream)
    requires w > 0
    ensures GetNum(w, s).1.ok <==> s.ok && s.ind + w <= |s.buf|
  {
    assert GetNum(0, s) == (0, s);
    if w > 1 {
      NumIsThere(w - 1, s);
      GetNumReadsOn(w - 1, s);
    }
  }

  lemma {:induction false} DecReadsOn(t: Type, s: Stream)
    ensures ReadsOn(s, Dec(t, s).1)
    ensures s.ind >= |s.buf| ==> !Dec(t, s).1.ok
    ensures Dec(t, s).1.ok ==> s.ind < Dec(t, s).1.ind
    decreases t, 1, 0
  {
    match t
    case TBool => GetNumReadsOn(1, s);
    case TUnsigned(w) => GetNumReadsOn(w, s);
    case TSigned(w) => GetNumReadsOn(w, s);
    case TString => GetNumReadsOn(4, s);
    case TVector(elem) =>
      GetNumReadsOn(4, s);
      ElemsReadOn(t, GetNum(4, s).0, GetNum(4, s).1);
    case TMap(key, val) =>
      GetNumReadsOn(4, s);
      EntriesReadOn(t, GetNum(4, s).0, GetNum(4, s).1);
  }

  lemma {:induction false} ElemsReadOn(t: Type, n: nat, s: Stream)
    requires t.TVector?
    ensures ReadsOn(s, DecElems(t, n, s).1)
    decreases t, 0, n
  {
    if n > 0 {
      ElemsReadOn(t, n - 1, s);
      DecReadsOn(t.elem, DecElems(t, n - 1, s).1);
    }
  }

  lemma {:induction false} EntriesReadOn(t: Type, n: nat, s: Stream)
    requires t.TMap?
    ensures ReadsOn(s, DecEntries(t, n, s).1)
    decreases t, 0, n
  {
    if n > 0 {
      EntriesReadOn(t, n - 1, s);
      var s1 := DecEntries(t, n - 1, s).1;
      DecReadsOn(t.key, s1);
      DecReadsOn(t.val, Dec(t.key, s1).1);
    }
  }

  // --- argument lists ---

  predicate AllTyped(vs: seq<Value>, ts: seq<Type>) {
    |vs| == |ts| && forall i :: 0 <= i < |vs| ==> HasType(vs[i], ts[i])
  }

  function EncAll(vs: seq<Value>, ts: seq<Type>): Bytes
    requires AllTyped(vs, ts)
  {
    if vs == [] then []
    else EncAll(vs[..|vs| - 1], ts[..|vs| - 1]) + Enc(vs[|vs| - 1], ts[|vs| - 1])
  }

  function DecAll(ts: seq<Type>, s: Stream): (seq<Value>, Stream) {
    if ts == [] then ([], s)
    else
      var (vs, s1) := DecAll(ts[..|ts| - 1], s);
      var (v, s2) := Dec(ts[|ts| - 1], s1);
      (vs + [v], s2)
  }

  /** The handler wrapper for these argument types: the arguments, or None for unmarshal_args_failure. */
  function ReadArgs(ts: seq<Type>, s: Stream): Option<seq<Value>> {
    var (vs, r) := DecAll(ts, s);
    if OkDone(r) then Some(vs) else None
  }

  lemma {:induction false} AllRoundTrip(vs: seq<Value>, ts: seq<Type>, s: Stream)
    requires AllTyped(vs, ts) && Next(s, EncAll(vs, ts))
    ensures DecAll(ts, s) == (vs, Skip(s, |EncAll(vs, ts)|))
  {
    if vs != [] {
      var k := |vs| - 1;
      var front := EncAll(vs[..k], ts[..k]);
      NextSplit(s, front, Enc(vs[k], ts[k]));
      AllRoundTrip(vs[..k], ts[..k], s);
      RoundTrip(vs[k], ts[k], Skip(s, |front|));
      assert vs[..k] + [vs[k]] == vs;
    }
  }

  lemma {:induction false} AllReadOn(ts: seq<Type>, us: seq<Type>, s: Stream)
    requires ts <= us
    ensures ReadsOn(DecAll(ts, s).1, DecAll(us, s).1)
    ensures ts != us && DecAll(us, s).1.ok ==> DecAll(ts, s).1.ind < DecAll(us, s).1.ind <= |s.buf|
    ensures DecAll(us, s).1.buf == s.buf
  {
    if us != [] {
      var k := |us| - 1;
      var s1 := DecAll(us[..k], s).1;
      DecReadsOn(us[k], s1);
      if ts == us {
        AllReadOn(us[..k], us[..k], s);
      } else {
        assert ts <= us[..k];
        AllReadOn(ts, us[..k], s);
      }
    }
  }

  /** Arguments of any types, in any number, reach a handler for those types unchanged. */
  lemma ArgumentsArrive(vs: seq<Value>, ts: seq<Type>, s: Stream)
    requires AllTyped(vs, ts) && Next(s, EncAll(vs, ts)) && s.ind + |EncAll(vs, ts)| == |s.buf|
    ensures ReadArgs(ts, s) == Some(vs)
  {
    AllRoundTrip(vs, ts, s);
  }

  /** A handler for fewer or for more arguments than were sent refuses them. */
  lemma WrongNumberIsRefused(vs: seq<Value>, ts: seq<Type>, us: seq<Type>, s: Stream)
    requires AllTyped(vs, ts) && Next(s, EncAll(vs, ts)) && s.ind + |EncAll(vs, ts)| == |s.buf|
    requires us < ts || ts < us
    ensures ReadArgs(us, s) == None
  {
    AllRoundTrip(vs, ts, s);
    if us < ts { AllReadOn(us, ts, s); } else { AllReadOn(ts, us, s); }
  }
}
