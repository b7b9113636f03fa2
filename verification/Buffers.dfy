/** The marshall and unmarshall objects, operation by operation, proved against the functions of Codec and
    Marshalling. */
module Buffers {
  import opened Common
  import opened Codec
  import opened Marshalling

  /** One byte of a buffer written, and no other. */
  ghost predicate WrittenAt(before: Bytes, after: Bytes, i: nat, x: byte) {
    i < |before| && after == before[i := x]
  }

  class Marshall {
    var buf: array<byte>
    var capa: nat
    var ind: nat

    ghost predicate Valid()
      reads this
    {
      buf.Length == capa && capa >= DEFAULT_RPC_SZ && ind <= capa
    }

    /** Everything written so far, with the 24 bytes for the header in front. */
    ghost function Contents(): (s: Bytes)
      reads this, buf
      requires Valid()
    {
      buf[..ind]
    }

    constructor ()
      ensures Valid() && fresh(buf) && ind == RPC_HEADER_SZ && capa == DEFAULT_RPC_SZ
    {
      buf := new byte[DEFAULT_RPC_SZ];
      capa := DEFAULT_RPC_SZ;
      ind := RPC_HEADER_SZ;
    }

    /** realloc, and the new capacity. */
    method Realloc(n: nat)
      requires Valid() && capa <= n
      modifies this`buf, this`capa
      ensures Valid() && capa == n && fresh(buf) && Contents() == old(Contents())
    {
      var b := new byte[n];
      forall k | 0 <= k < buf.Length {
        b[k] := buf[k];
      }
      buf, capa := b, n;
    }

    /** The capacity doubles when it is used up, and otherwise the byte goes into place and no other byte changes. */
    method RawByte(x: byte)
      requires Valid()
      modifies this, buf
      ensures Valid() && (buf == old(buf) || fresh(buf))
      ensures ind == old(ind) + 1 && Contents() == old(Contents()) + [x]
      ensures capa == (if old(ind) < old(capa) then 1 else 2) * old(capa)
      ensures old(ind) < old(capa) ==> buf == old(buf) && WrittenAt(old(buf[..]), buf[..], old(ind), x)
    {
      ghost var before := Contents();
      if ind >= capa {
        Realloc(capa * 2);
      }
      buf[ind] := x;
      ind := ind + 1;
      assert buf[..ind - 1] == before;
    }

    method RawBytes(p: Bytes)
      requires Valid()
      modifies this, buf
      ensures Valid() && (buf == old(buf) || fresh(buf))
      ensures Contents() == old(Contents()) + p
      ensures capa == if old(ind) + |p| <= old(capa) then old(capa)
                      else if old(capa) > |p| then 2 * old(capa) else old(capa) + |p|
    {
      ghost var before := Contents();
      if ind + |p| > capa {
        Realloc(if capa > |p| then 2 * capa else capa + |p|);
      }
      Memcpy(p);
      assert buf[..ind + |p|] == buf[..ind] + buf[ind..ind + |p|];
      ind := ind + |p|;
    }

    method Memcpy(p: Bytes)
      requires Valid() && ind + |p| <= capa
      modifies buf
      ensures buf[..ind] == old(buf[..ind]) && buf[ind..ind + |p|] == p
    {
      var k := 0;
      while k < |p|
        invariant k <= |p| && buf[..ind] == old(buf[..ind]) && buf[ind..ind + k] == p[..k]
      {
        buf[ind + k] := p[k];
        k := k + 1;
        assert buf[ind..ind + k] == buf[ind..ind + k - 1] + [p[k - 1]];
      }
    }

    method PutShort(x: int)
      requires Valid() && 0 <= x < Pow256(2)
      modifies this, buf
      ensures Valid() && (buf == old(buf) || fresh(buf))
      ensures Contents() == old(Contents()) + Big(2, x)
    {
      ShortBytes(x);
      RawByte(x / 0x100 % 0x100);
      RawByte(x % 0x100);
    }

    method PutInt(x: uint32)
      requires Valid()
      modifies this, buf
      ensures Valid() && (buf == old(buf) || fresh(buf))
      ensures Contents() == old(Contents()) + Big(4, x)
    {
      IntBytes(x);
      hide Big, WrittenAt;
      ghost var before := Contents();
      var x0, x1, x2, x3 := x / 0x100_0000 % 0x100, x / 0x1_0000 % 0x100, x / 0x100 % 0x100, x % 0x100;
      RawByte(x0);
      RawByte(x1);
      assert Contents() == before + [x0, x1];
      RawByte(x2);
      RawByte(x3);
      assert Contents() == before + [x0, x1, x2, x3];
    }

    method PutLong(x: int)
      requires Valid() && 0 <= x < Pow256(8)
      modifies this, buf
      ensures Valid() && (buf == old(buf) || fresh(buf))
      ensures Contents() == old(Contents()) + Big(8, x)
    {
      LongBytes(x);
      hide Big, Pow256;
      ghost var before := Contents();
      PutInt(x / TWO_TO_THE_32);
      PutInt(x % TWO_TO_THE_32);
      assert Contents() == before + (Big(4, x / TWO_TO_THE_32) + Big(4, x % TWO_TO_THE_32));
    }

    /** An integer of any of the widths, by its bit pattern. */
    method PutNum(w: Width, p: int)
      requires Valid() && 0 <= p < Pow256(w)
      modifies this, buf
      ensures Valid() && (buf == old(buf) || fresh(buf))
      ensures Contents() == old(Contents()) + Big(w, p)
    {
      if w == 1 {
        ByteBytes(p);
        RawByte(p);
      } else if w == 2 {
        PutShort(p);
      } else if w == 4 {
        BigIsBe32(0);
        PutInt(p);
      } else {
        PutLong(p);
      }
    }

    /** operator<< for every type. */
    method Put(v: Value, t: Type)
      requires Valid() && HasType(v, t)
      modifies this, buf
      ensures Valid() && (buf == old(buf) || fresh(buf))
      ensures Contents() == old(Contents()) + Enc(v, t)
      decreases t
    {
      hide Big, Pow256, Pattern, WrittenAt, EncElems, EncEntries, Ascending;
      match t
      case TBool =>
        RawByte(if v.b then 1 else 0);
      case TUnsigned(w) =>
        PutNum(w, v.n);
      case TSigned(w) =>
        PutNum(w, Pattern(w, v.n));
      case TString =>
        PutInt(|v.s|);
        RawBytes(v.s);
      case TVector(elem) =>
        PutInt(|v.elems|);
        PutElems(v.elems, t);
      case TMap(key, val) =>
        PutInt(|v.entries|);
        PutEntries(v.entries, t);
    }

    method PutElems(vs: seq<Value>, t: Type)
      requires Valid() && t.TVector? && forall i :: 0 <= i < |vs| ==> HasType(vs[i], t.elem)
      modifies this, buf
      ensures Valid() && (buf == old(buf) || fresh(buf))
      ensures Contents() == old(Contents()) + EncElems(vs, t)
      decreases t, 0
    {
      hide HasType, Enc, EncElems;
      ghost var before := Contents();
      NoElems(vs, t, before);
      var i := 0;
      while i < |vs|
        invariant i <= |vs| && Valid() && (buf == old(buf) || fresh(buf))
        invariant Contents() == before + EncElems(vs[..i], t)
      {
        OneMoreElem(vs, t, i, before);
        Put(vs[i], t.elem);
        i := i + 1;
      }
      assert vs[..i] == vs;
    }

    method PutEntry(a: Value, b: Value, t: Type)
      requires Valid() && t.TMap? && HasType(a, t.key) && HasType(b, t.val)
      modifies this, buf
      ensures Valid() && (buf == old(buf) || fresh(buf))
      ensures Contents() == old(Contents()) + (Enc(a, t.key) + Enc(b, t.val))
      decreases t, 0
    {
      hide HasType, Enc;
      ghost var before := Contents();
      Put(a, t.key);
      ghost var between := Contents();
      Put(b, t.val);
      assert between + Enc(b, t.val) == before + (Enc(a, t.key) + Enc(b, t.val));
    }

    method PutEntries(m: seq<(Value, Value)>, t: Type)
      requires Valid() && t.TMap?
      requires forall i :: 0 <= i < |m| ==> HasType(m[i].0, t.key) && HasType(m[i].1, t.val)
      modifies this, buf
      ensures Valid() && (buf == old(buf) || fresh(buf))
      ensures Contents() == old(Contents()) + EncEntries(m, t)
      decreases t, 1
    {
      hide HasType, Enc, EncEntries;
      ghost var before := Contents();
      NoEntries(m, t, before);
      var i := 0;
      while i < |m|
        invariant i <= |m| && Valid() && (buf == old(buf) || fresh(buf))
        invariant Contents() == before + EncEntries(m[..i], t)
      {
        OneMoreEntry(m, t, i, before);
        PutEntry(m[i].0, m[i].1, t);
        i := i + 1;
      }
      assert m[..i] == m;
    }

    /** pack: four bytes at the head, over what is there. */
    method Pack(x: uint32)
      requires Valid() && ind + 4 <= capa
      modifies this, buf
      ensures Valid() && buf == old(buf) && capa == old(capa) && ind == old(ind) + 4
      ensures buf[..] == Overlay(old(buf[..]), old(ind), Big(4, x))
    {
      IntBytes(x);
      hide Big, Overlay, Contents, WrittenAt;
      var x0, x1, x2, x3 := x / 0x100_0000 % 0x100, x / 0x1_0000 % 0x100, x / 0x100 % 0x100, x % 0x100;
      ghost var b0, i := buf[..], ind;
      RawByte(x0);
      ghost var b1 := buf[..];
      RawByte(x1);
      ghost var b2 := buf[..];
      RawByte(x2);
      ghost var b3 := buf[..];
      RawByte(x3);
      OverlayByBytes([b0, b1, b2, b3, buf[..]], i, x0, x1, x2, x3);
    }

    /** The header goes over the first bytes; what was written stays, and so does the place for the next byte. */
    method PackReqHeader(h: ReqHeader)
      requires Valid() && ind >= RPC_HEADER_SZ
      modifies this, buf
      ensures Valid() && buf == old(buf) && capa == old(capa) && ind == old(ind)
      ensures Contents() == PackReq(old(Contents()), h)
    {
      ghost var before := buf[..];
      var savedSz := ind;
      ind := SIZE_SZ;
      Pack(h.xid);
      Pack(h.proc);
      Pack(h.cltNonce);
      Pack(h.srvNonce);
      Pack(h.xidRep);
      ind := savedSz;
      OverlaysJoin(before, SIZE_SZ, Big(4, h.xid), Big(4, h.proc));
      OverlaysJoin(before, SIZE_SZ, Big(4, h.xid) + Big(4, h.proc), Big(4, h.cltNonce));
      OverlaysJoin(before, SIZE_SZ, Big(4, h.xid) + Big(4, h.proc) + Big(4, h.cltNonce), Big(4, h.srvNonce));
      OverlaysJoin(before, SIZE_SZ, Big(4, h.xid) + Big(4, h.proc) + Big(4, h.cltNonce) + Big(4, h.srvNonce),
                   Big(4, h.xidRep));
      assert buf[..] == Overlay(before, SIZE_SZ, ReqBytes(h));
      OverlayPrefix(before, savedSz, SIZE_SZ, ReqBytes(h));
    }

    method PackReplyHeader(h: ReplyHeader)
      requires Valid() && ind >= RPC_HEADER_SZ
      modifies this, buf
      ensures Valid() && buf == old(buf) && capa == old(capa) && ind == old(ind)
      ensures Contents() == PackReply(old(Contents()), h)
    {
      ghost var before := buf[..];
      var savedSz := ind;
      ind := SIZE_SZ;
      Pack(h.xid);
      Pack(h.ret);
      ind := savedSz;
      OverlaysJoin(before, SIZE_SZ, Big(4, h.xid), Big(4, h.ret));
      OverlayPrefix(before, savedSz, SIZE_SZ, ReplyBytes(h));
    }
  }

  lemma NoElems(vs: seq<Value>, t: Type, before: Bytes)
    requires t.TVector?
    ensures before + EncElems(vs[..0], t) == before
  {
  }

  lemma OneMoreElem(vs: seq<Value>, t: Type, i: nat, before: Bytes)
    requires t.TVector? && i < |vs| && forall k :: 0 <= k < |vs| ==> HasType(vs[k], t.elem)
    ensures before + EncElems(vs[..i], t) + Enc(vs[i], t.elem) == before + EncElems(vs[..i + 1], t)
  {
    hide Enc, HasType;
    assert vs[..i + 1][..i] == vs[..i];
  }

  lemma NoEntries(m: seq<(Value, Value)>, t: Type, before: Bytes)
    requires t.TMap?
    ensures before + EncEntries(m[..0], t) == before
  {
  }

  lemma OneMoreEntry(m: seq<(Value, Value)>, t: Type, i: nat, before: Bytes)
    requires t.TMap? && i < |m| && forall k :: 0 <= k < |m| ==> HasType(m[k].0, t.key) && HasType(m[k].1, t.val)
    ensures before + EncEntries(m[..i], t) + (Enc(m[i].0, t.key) + Enc(m[i].1, t.val)) == before + EncEntries(m[..i + 1], t)
  {
    hide Enc, HasType;
    assert m[..i + 1][..i] == m[..i];
  }

  lemma ByteBytes(x: byte)
    ensures Big(1, x) == [x]
  {
    assert Big(0, 0) == [];
  }

  lemma ShortBytes(x: nat)
    requires x < Pow256(2)
    ensures Big(2, x) == [x / 0x100 % 0x100, x % 0x100]
  {
    assert Pow256(1) == 256;
    ByteBytes(x / 0x100);
  }

  lemma IntBytes(x: uint32)
    ensures Big(4, x) == [x / 0x100_0000 % 0x100, x / 0x1_0000 % 0x100, x / 0x100 % 0x100, x % 0x100]
  {
    BigIsBe32(x);
  }

  lemma BigLastFour(w: nat, x: nat)
    ensures var k1 := x / 256; var k2 := k1 / 256; var k3 := k2 / 256;
      Big(w + 4, x) == Big(w, k3 / 256) + [k3 % 256, k2 % 256, k1 % 256, x % 256]
  {
    var k1 := x / 256;
    var k2 := k1 / 256;
    var k3 := k2 / 256;
    assert Big(w + 4, x) == Big(w + 3, k1) + [x % 256];
    assert Big(w + 3, k1) == Big(w + 2, k2) + [k1 % 256];
    assert Big(w + 2, k2) == Big(w + 1, k3) + [k2 % 256];
    assert Big(w + 1, k3) == Big(w, k3 / 256) + [k3 % 256];
  }

  lemma LongBytes(x: nat)
    requires x < Pow256(8)
    ensures x / TWO_TO_THE_32 < TWO_TO_THE_32
    ensures Big(8, x) == Big(4, x / TWO_TO_THE_32) + Big(4, x % TWO_TO_THE_32)
  {
    assert Pow256(4) == TWO_TO_THE_32 && Pow256(8) == TWO_TO_THE_32 * TWO_TO_THE_32;
    var y := x % TWO_TO_THE_32;
    BigLastFour(4, x);
    BigLastFour(0, y);
    var k1, j1 := x / 256, y / 256;
    var k2, j2 := k1 / 256, j1 / 256;
    var k3, j3 := k2 / 256, j2 / 256;
    assert x / TWO_TO_THE_32 == k3 / 256;
    assert x == (k3 / 256) * TWO_TO_THE_32 + y;
    assert y % 256 == x % 256 && k1 == (k3 / 256) * 0x100_0000 + j1;
    assert j1 % 256 == k1 % 256 && k2 == (k3 / 256) * 0x1_0000 + j2;
    assert j2 % 256 == k2 % 256 && k3 == (k3 / 256) * 0x100 + j3;
    assert j3 % 256 == k3 % 256;
    hide Big, Pow256;
  }

  lemma OverlayByBytes(b: seq<Bytes>, i: nat, x0: byte, x1: byte, x2: byte, x3: byte)
    requires |b| == 5 && i + 4 <= |b[0]|
    requires WrittenAt(b[0], b[1], i, x0) && WrittenAt(b[1], b[2], i + 1, x1)
    requires WrittenAt(b[2], b[3], i + 2, x2) && WrittenAt(b[3], b[4], i + 3, x3)
    ensures b[4] == Overlay(b[0], i, [x0, x1, x2, x3])
  {
  }

  lemma OverlaysJoin(b: Bytes, i: nat, x: Bytes, y: Bytes)
    requires i + |x| + |y| <= |b|
    ensures Overlay(Overlay(b, i, x), i + |x|, y) == Overlay(b, i, x + y)
  {
    var l, r := Overlay(Overlay(b, i, x), i + |x|, y), Overlay(b, i, x + y);
    forall k | 0 <= k < |b| ensures l[k] == r[k] {
      OverlayAt(b, i, x, k);
      OverlayAt(Overlay(b, i, x), i + |x|, y, k);
      OverlayAt(b, i, x + y, k);
    }
  }

  lemma OverlayPrefix(b: Bytes, n: nat, i: nat, x: Bytes)
    requires i + |x| <= n <= |b|
    ensures Overlay(b, i, x)[..n] == Overlay(b[..n], i, x)
  {
    assert b == b[..n] + b[n..];
    OverlayInFront(b[..n], b[n..], i, x);
  }

  /** A char as an unsigned int. */
  function Widened(c: byte): (w: uint32)
    ensures w % 0x100 == c && (w == 0 <==> c == 0)
  {
    if c < 0x80 then c else TWO_TO_THE_32 - 0x100 + c
  }

  /** It is the number that the char stands for, which is negative from 0x80 on. */
  lemma WidenedIsTheChar(c: byte)
    ensures FromPattern(4, Widened(c)) == FromPattern(1, c)
  {
    assert Pow256(1) == 0x100 && Pow256(4) == TWO_TO_THE_32;
  }

  lemma OneByte(s: Stream)
    ensures GetNum(1, s) == (GetByte(s).0 as nat, GetByte(s).1)
  {
    assert GetNum(0, s) == (0, s);
  }

  class Unmarshall {
    var buf: array<byte>
    var sz: nat
    var ind: nat
    var ok: bool

    ghost predicate Valid()
      reads this
    {
      sz <= buf.Length
    }

    ghost function Value(): Stream
      reads this, buf
      requires Valid()
    {
      Stream(buf[..sz], ind, ok)
    }

    constructor (b: array<byte>, n: nat)
      requires n <= b.Length
      ensures Valid() && buf == b && Value() == Stream(b[..n], 0, true)
    {
      buf, sz, ind, ok := b, n, 0, true;
    }

    method IsOkDone() returns (r: bool)
      requires Valid()
      ensures r == OkDone(Value())
    {
      r := ok && ind == sz;
    }

    /** The byte goes through a char, so from 0x80 on it comes out with the upper bits set. */
    method RawByte() returns (w: uint32)
      requires Valid()
      modifies this`ind, this`ok
      ensures Valid() && w == Widened(GetByte(old(Value())).0) && Value() == GetByte(old(Value())).1
    {
      var c := 0;
      if ind >= sz {
        ok := false;
      } else {
        c := buf[ind];
        ind := ind + 1;
      }
      w := if c < 0x80 then c else TWO_TO_THE_32 - 0x100 + c;
    }

    method RawBytes(n: nat) returns (s: Bytes)
      requires Valid()
      modifies this`ind, this`ok
      ensures Valid() && (s, Value()) == GetBytes(n, old(Value()))
    {
      s := [];
      if ind + n > sz {
        ok := false;
      } else {
        s := buf[ind..ind + n];
        assert s == buf[..sz][ind..ind + n];
        ind := ind + n;
      }
    }

    /** unpack and the integer operators: the bytes one by one, most significant first. */
    method GetInt(w: Width) returns (p: nat)
      requires Valid()
      modifies this`ind, this`ok
      ensures Valid() && (p, Value()) == GetNum(w, old(Value()))
    {
      p := 0;
      var i := 0;
      while i < w
        invariant i <= w && Valid() && (p, Value()) == GetNum(i, old(Value()))
      {
        var c := RawByte();
        p := p * 256 + c % 0x100;
        i := i + 1;
      }
    }

    /** operator>> for every type; vectors and maps are read into empty ones. */
    method Get(t: Type) returns (v: Codec.Value)
      requires Valid()
      modifies this`ind, this`ok
      ensures Valid() && (v, Value()) == Dec(t, old(Value()))
      decreases t
    {
      match t
      case TBool =>
        OneByte(Value());
        var w := RawByte();
        v := Bool(w != 0);
      case TUnsigned(w) =>
        var p := GetInt(w);
        v := Num(p);
      case TSigned(w) =>
        var p := GetInt(w);
        v := Num(FromPattern(w, p));
      case TString =>
        var n := GetInt(4);
        v := Str([]);
        if ok {
          var s := RawBytes(n);
          v := Str(s);
        }
      case TVector(elem) =>
        var n := GetInt(4);
        var vs := GetElems(t, n);
        v := Vec(vs);
      case TMap(key, val) =>
        var n := GetInt(4);
        var m := GetEntries(t, n);
        v := Map(m);
    }

    method GetElems(t: Type, n: nat) returns (vs: seq<Codec.Value>)
      requires Valid() && t.TVector?
      modifies this`ind, this`ok
      ensures Valid() && (vs, Value()) == DecElems(t, n, old(Value()))
      decreases t, 0
    {
      vs := [];
      var i := 0;
      while i < n
        invariant i <= n && Valid() && (vs, Value()) == DecElems(t, i, old(Value()))
      {
        var z := Get(t.elem);
        vs := vs + [z];
        i := i + 1;
      }
    }

    method GetEntries(t: Type, n: nat) returns (m: seq<(Codec.Value, Codec.Value)>)
      requires Valid() && t.TMap?
      modifies this`ind, this`ok
      ensures Valid() && (m, Value()) == DecEntries(t, n, old(Value()))
      decreases t, 0
    {
      m := [];
      var i := 0;
      while i < n
        invariant i <= n && Valid() && (m, Value()) == DecEntries(t, i, old(Value()))
      {
        var a := Get(t.key);
        var b := Get(t.val);
        m := Assign(m, a, b);
        i := i + 1;
      }
    }

    method UnpackReqHeader() returns (h: ReqHeader)
      requires Valid() && ok
      modifies this`ind, this`ok
      ensures Valid() && (h, Value()) == UnpackReq(old(buf[..sz]))
    {
      BigIsBe32(0);
      ind := SIZE_SZ;
      var xid := GetInt(4);
      var proc := GetInt(4);
      var clt := GetInt(4);
      var srv := GetInt(4);
      var rep := GetInt(4);
      h := ReqHeader(xid, proc, clt, srv, rep);
      ind := RPC_HEADER_SZ;
    }

    method UnpackReplyHeader() returns (h: ReplyHeader)
      requires Valid() && ok
      modifies this`ind, this`ok
      ensures Valid() && (h, Value()) == UnpackReply(old(buf[..sz]))
    {
      BigIsBe32(0);
      ind := SIZE_SZ;
      var xid := GetInt(4);
      var ret := GetInt(4);
      h := ReplyHeader(xid, ret);
      ind := RPC_HEADER_SZ;
    }

    /** take_in: the other object's buffer, from behind the header; the other is left with nothing. */
    method TakeInFrom(another: Unmarshall)
      requires another != this && another.Valid()
      modifies this, another
      ensures Valid() && Value() == TakeIn(old(another.buf[..another.sz]))
      ensures another.Valid() && another.sz == 0 && another.ind == 0
    {
      buf, sz := another.buf, another.sz;
      another.sz, another.ind := 0, 0;
      ind := RPC_HEADER_SZ;
      ok := sz >= RPC_HEADER_SZ;
    }

    /** The handler wrapper h1::fn up to the call of the method, and call_m with a single result. */
    method Arguments(ts: seq<Type>) returns (args: Option<seq<Codec.Value>>)
      requires Valid()
      modifies this`ind, this`ok
      ensures Valid() && args == ReadArgs(ts, old(Value()))
    {
      var vs := [];
      var i := 0;
      while i < |ts|
        invariant i <= |ts| && Valid() && (vs, Value()) == DecAll(ts[..i], old(Value()))
      {
        var a := Get(ts[i]);
        vs := vs + [a];
        assert ts[..i + 1][..i] == ts[..i];
        i := i + 1;
      }
      assert ts[..i] == ts;
      var done := IsOkDone();
      args := if done then Some(vs) else None;
    }
  }
}
