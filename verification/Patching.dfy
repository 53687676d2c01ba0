/** What a relocation pass does to memory: patches written one after the other. */
module Patching {
  import opened Widths

  /** A 32-bit value for the four bytes at an address. */
  datatype Patch = Patch(addr: U64, value: int)

  function WritePatch(m: Bytes, p: Patch): Bytes {
    Write(m, p.addr, 4, p.value)
  }

  function WriteAll(m: Bytes, ps: seq<Patch>): Bytes {
    if ps == [] then m else WritePatch(WriteAll(m, ps[..|ps| - 1]), ps[|ps| - 1])
  }

  predicate Hits(p: Patch, x: int) {
    Covers(p.addr, 4, x)
  }

  /** The byte `p` writes at `x`. */
  function PatchByte(p: Patch, x: int): Byte
    requires Hits(p, x)
  {
    ByteOf(p.value, (x - p.addr) % 0x1_0000_0000_0000_0000)
  }

  datatype Cell = Absent | Present(b: Byte)

  function Look(m: Bytes, x: int): Cell {
    if x in m then Present(m[x]) else Absent
  }

  /** The byte of the last patch that hits `x`, or else what was there. */
  function LastHit(was: Cell, ps: seq<Patch>, x: int): Cell {
    if ps == [] then was
    else if Hits(ps[|ps| - 1], x) then Present(PatchByte(ps[|ps| - 1], x))
    else LastHit(was, ps[..|ps| - 1], x)
  }

  lemma {:induction false} BytesAfter(m: Bytes, ps: seq<Patch>, x: int)
    ensures Look(WriteAll(m, ps), x) == LastHit(Look(m, x), ps, x)
  {
    if ps != [] {
      var n := |ps| - 1;
      BytesAfter(m, ps[..n], x);
      WriteAt(WriteAll(m, ps[..n]), ps[n].addr, 4, ps[n].value, x);
    }
  }

  lemma SameBytes(a: Bytes, b: Bytes)
    requires forall x :: Look(a, x) == Look(b, x)
    ensures a == b
  {
    forall x
      ensures x in a <==> x in b
      ensures x in a ==> a[x] == b[x]
    {
      assert Look(a, x) == Look(b, x);
    }
  }

  /** Bytes that no patch hits stay as they are. */
  lemma OutsideIsKept(m: Bytes, ps: seq<Patch>, x: int)
    requires forall p :: p in ps ==> !Hits(p, x)
    ensures Look(WriteAll(m, ps), x) == Look(m, x)
  {
    BytesAfter(m, ps, x);
    NoHit(Look(m, x), ps, x);
  }

  lemma {:induction false} NoHit(was: Cell, ps: seq<Patch>, x: int)
    requires forall p :: p in ps ==> !Hits(p, x)
    ensures LastHit(was, ps, x) == was
  {
    if ps != [] {
      assert ps[|ps| - 1] in ps;
      NoHit(was, ps[..|ps| - 1], x);
    }
  }

  /** What a pass leaves at a byte, writing over it again leaves there. */
  lemma {:induction false} LastHitOf(was: Cell, now: Cell, ps: seq<Patch>, x: int)
    requires now == LastHit(was, ps, x)
    ensures LastHit(now, ps, x) == now
  {
    if ps != [] && !Hits(ps[|ps| - 1], x) {
      LastHitOf(was, now, ps[..|ps| - 1], x);
    }
  }

  /** A pass done twice is a pass done once, also where sites overlap. */
  lemma WriteTwice(m: Bytes, ps: seq<Patch>)
    ensures WriteAll(WriteAll(m, ps), ps) == WriteAll(m, ps)
  {
    forall x
      ensures Look(WriteAll(WriteAll(m, ps), ps), x) == Look(WriteAll(m, ps), x)
    {
      BytesAfter(WriteAll(m, ps), ps, x);
      BytesAfter(m, ps, x);
      LastHitOf(Look(m, x), LastHit(Look(m, x), ps, x), ps, x);
    }
    SameBytes(WriteAll(WriteAll(m, ps), ps), WriteAll(m, ps));
  }

  /** No byte belongs to two sites. */
  ghost predicate Disjoint(ps: seq<Patch>) {
    forall i, j, x :: 0 <= i < j < |ps| && Hits(ps[i], x) ==> !Hits(ps[j], x)
  }

  lemma {:induction false} OnlyHit(was: Cell, ps: seq<Patch>, p: Patch, x: int)
    requires p in ps && Hits(p, x) && forall q :: q in ps && Hits(q, x) ==> q == p
    ensures LastHit(was, ps, x) == Present(PatchByte(p, x))
  {
    var n := |ps| - 1;
    assert ps == ps[..n] + [ps[n]];
    if !Hits(ps[n], x) {
      OnlyHit(was, ps[..n], p, x);
    } else {
      assert ps[n] in ps;
    }
  }

  /** The order does not matter where the sites are disjoint. */
  lemma AnyOrder(m: Bytes, ps: seq<Patch>, qs: seq<Patch>)
    requires Disjoint(ps) && multiset(ps) == multiset(qs)
    ensures WriteAll(m, ps) == WriteAll(m, qs)
  {
    forall p
      ensures p in ps <==> p in qs
    {
      assert p in multiset(ps) <==> p in multiset(qs);
    }
    forall x
      ensures Look(WriteAll(m, ps), x) == Look(WriteAll(m, qs), x)
    {
      BytesAfter(m, ps, x);
      BytesAfter(m, qs, x);
      if p :| p in ps && Hits(p, x) {
        forall q | q in ps && Hits(q, x)
          ensures q == p
        {
          var i :| 0 <= i < |ps| && ps[i] == p;
          var j :| 0 <= j < |ps| && ps[j] == q;
          assert i == j;
        }
        OnlyHit(Look(m, x), ps, p, x);
        OnlyHit(Look(m, x), qs, p, x);
      } else {
        NoHit(Look(m, x), ps, x);
        NoHit(Look(m, x), qs, x);
      }
    }
    SameBytes(WriteAll(m, ps), WriteAll(m, qs));
  }

  lemma WriteNext(m: Bytes, ps: seq<Patch>, p: Patch)
    ensures WriteAll(m, ps + [p]) == WritePatch(WriteAll(m, ps), p)
  {
    assert (ps + [p])[..|ps|] == ps;
  }
}
