/**
 * The slice types CartS, SphrS and EquaS of package coord and the methods that
 * broadcast a single-element conversion over a slice (coord.go:97-101, 114-162,
 * 180-195, 215-228).
 *
 * A Go slice is a window on a backing array: here a `Slice<T>` holds the
 * backing array and a length, and its capacity is the length of the backing
 * array (every slice in this model starts at offset 0 of its array). A slice
 * passed by value is read through a `Slice<T>` object at the start of the call;
 * a method on a `*CartS` receiver takes the receiver as its first argument and
 * overwrites that object's fields, as `*cp = c` does.
 */
module Slices {
  import opened Cartesian
  import opened Spherical
  import opened Matrix

  class Slice<T> {
    var buf: array<T>
    var len: nat

    /** A slice never reaches past its capacity. */
    ghost predicate Valid()
      reads this
    {
      len <= buf.Length
    }

    /** The elements the slice shows, s[0:len(s)]. */
    function Elems(): seq<T>
      reads this, buf
      requires Valid()
    {
      buf[..len]
    }

    /** s[:n] of an array: a slice of length n over buf. */
    constructor (buf: array<T>, n: nat)
      requires n <= buf.Length
      ensures Valid() && this.buf == buf && len == n
    {
      this.buf := buf;
      len := n;
    }
  }

  /**
   * The slice every broadcast method aims at: f applied to each element of s,
   * in order, one result per element.
   */
  function Broadcast<A, B>(f: A -> B, s: seq<A>): (r: seq<B>)
    ensures |r| == |s|
    ensures forall i :: 0 <= i < |s| ==> r[i] == f(s[i])
  {
    if s == [] then [] else [f(s[0])] + Broadcast(f, s[1..])
  }

  /** A sequence that agrees with f on every element of s is Broadcast(f, s). */
  lemma BroadcastByElements<A, B>(f: A -> B, s: seq<A>, r: seq<B>)
    requires |r| == |s|
    requires forall i :: 0 <= i < |s| ==> r[i] == f(s[i])
    ensures r == Broadcast(f, s)
  {
  }

  /**
   * Every vector FromSphrS stores is a unit vector when sin² + cos² = 1 at
   * every angle it converts.
   */
  lemma {:induction false} BroadcastCartFromSphrIsUnit(lib: Lib, ss: seq<Sphr>)
    requires forall i :: 0 <= i < |ss| ==> Pythagorean(lib, ss[i].lon) && Pythagorean(lib, ss[i].lat)
    ensures var out := Broadcast(x => CartFromSphr(lib, x), ss);
            forall i :: 0 <= i < |out| ==> out[i].Square() == 1.0
  {
    var out := Broadcast(x => CartFromSphr(lib, x), ss);
    forall i | 0 <= i < |out|
      ensures out[i].Square() == 1.0
    {
      CartFromSphrIsUnit(lib, ss[i]);
    }
  }

  /**
   * Every vector FromEquaS stores is a unit vector when sin² + cos² = 1 at
   * every right ascension, as an angle, and every declination it converts.
   */
  lemma {:induction false} BroadcastCartFromEquaIsUnit(lib: Lib, es: seq<Equa>)
    requires forall i :: 0 <= i < |es| ==> Pythagorean(lib, lib.raAngle(es[i].ra)) && Pythagorean(lib, es[i].dec)
    ensures var out := Broadcast(x => CartFromSphr(lib, SphrFromEqua(lib, x)), es);
            forall i :: 0 <= i < |out| ==> out[i].Square() == 1.0
  {
    var out := Broadcast(x => CartFromSphr(lib, SphrFromEqua(lib, x)), es);
    forall i | 0 <= i < |out|
      ensures out[i].Square() == 1.0
    {
      CartFromEquaIsUnit(lib, es[i]);
    }
  }

  /**
   * cp.FromEquaS(e): converts each equatorial coordinate of e to a cartesian
   * unit vector. The receiver's backing array is kept when its capacity is at
   * least len(e) and replaced by a new one of length len(e) otherwise; either
   * way the receiver's length becomes len(e).
   */
  method FromEquaS(cp: Slice<Vec>, e: Slice<Equa>, lib: Lib)
    requires cp.Valid() && e.Valid()
    modifies cp, cp.buf
    ensures cp.Valid() && cp.len == e.len
    ensures old(cp.buf.Length) < e.len ==> fresh(cp.buf)
    ensures old(cp.buf.Length) < e.len ==> cp.buf.Length == e.len && old(cp.buf)[..] == old(cp.buf[..])
    ensures e.len <= old(cp.buf.Length) ==> cp.buf == old(cp.buf) && cp.buf[e.len..] == old(cp.buf[e.len..])
    ensures cp.Elems() == Broadcast(x => CartFromSphr(lib, SphrFromEqua(lib, x)), e.Elems())
  {
    var src, n := e.buf, e.len;
    var c := cp.buf;
    ghost var original := c;
    if c.Length < n {
      c := new Vec[n](_ => Zero);
    }
    ghost var before := c[..];
    var i := 0;
    while i < n
      invariant 0 <= i <= n <= c.Length
      invariant c != original ==> c.Length == n && original[..] == old(original[..])
      invariant forall k :: 0 <= k < i ==> c[k] == CartFromSphr(lib, SphrFromEqua(lib, src[k]))
      invariant forall k :: n <= k < c.Length ==> c[k] == before[k]
    {
      c[i] := CartFromSphr(lib, SphrFromEqua(lib, src[i]));
      i := i + 1;
    }
    BroadcastByElements(x => CartFromSphr(lib, SphrFromEqua(lib, x)), src[..n], c[..n]);
    cp.buf, cp.len := c, n;
  }

  /**
   * e.SphrS(): a new spherical slice of len(e) elements, element i being
   * e[i] converted by FromEqua.
   */
  method SphrS(e: Slice<Equa>, lib: Lib) returns (s: Slice<Sphr>)
    requires e.Valid()
    ensures fresh(s) && fresh(s.buf)
    ensures s.Valid() && s.len == s.buf.Length == e.len
    ensures s.Elems() == Broadcast(x => SphrFromEqua(lib, x), e.Elems())
  {
    var a := new Sphr[e.len](_ => Sphr(0.0, 0.0));
    var i := 0;
    while i < e.len
      invariant 0 <= i <= e.len
      invariant forall k :: 0 <= k < i ==> a[k] == SphrFromEqua(lib, e.buf[k])
    {
      a[i] := SphrFromEqua(lib, e.buf[i]);
      i := i + 1;
    }
    s := new Slice(a, e.len);
  }

  /**
   * cp.FromSphrS(s): converts each spherical coordinate of s to a cartesian
   * unit vector, with the same buffer reuse as FromEquaS.
   */
  method FromSphrS(cp: Slice<Vec>, s: Slice<Sphr>, lib: Lib)
    requires cp.Valid() && s.Valid()
    modifies cp, cp.buf
    ensures cp.Valid() && cp.len == s.len
    ensures old(cp.buf.Length) < s.len ==> fresh(cp.buf)
    ensures old(cp.buf.Length) < s.len ==> cp.buf.Length == s.len && old(cp.buf)[..] == old(cp.buf[..])
    ensures s.len <= old(cp.buf.Length) ==> cp.buf == old(cp.buf) && cp.buf[s.len..] == old(cp.buf[s.len..])
    ensures cp.Elems() == Broadcast(x => CartFromSphr(lib, x), s.Elems())
  {
    var src, n := s.buf, s.len;
    var c := cp.buf;
    ghost var original := c;
    if c.Length < n {
      c := new Vec[n](_ => Zero);
    }
    ghost var before := c[..];
    var i := 0;
    while i < n
      invariant 0 <= i <= n <= c.Length
      invariant c != original ==> c.Length == n && original[..] == old(original[..])
      invariant forall k :: 0 <= k < i ==> c[k] == CartFromSphr(lib, src[k])
      invariant forall k :: n <= k < c.Length ==> c[k] == before[k]
    {
      c[i] := CartFromSphr(lib, src[i]);
      i := i + 1;
    }
    BroadcastByElements(x => CartFromSphr(lib, x), src[..n], c[..n]);
    cp.buf, cp.len := c, n;
  }

  /**
   * sp.FromCartS(c): converts each cartesian vector of c to spherical
   * coordinates, with the same buffer reuse as FromEquaS.
   */
  method FromCartS(sp: Slice<Sphr>, c: Slice<Vec>, lib: Lib)
    requires sp.Valid() && c.Valid()
    modifies sp, sp.buf
    ensures sp.Valid() && sp.len == c.len
    ensures old(sp.buf.Length) < c.len ==> fresh(sp.buf)
    ensures old(sp.buf.Length) < c.len ==> sp.buf.Length == c.len && old(sp.buf)[..] == old(sp.buf[..])
    ensures c.len <= old(sp.buf.Length) ==> sp.buf == old(sp.buf) && sp.buf[c.len..] == old(sp.buf[c.len..])
    ensures sp.Elems() == Broadcast(x => SphrFromCart(lib, x), c.Elems())
  {
    var src, n := c.buf, c.len;
    var s := sp.buf;
    ghost var original := s;
    if s.Length < n {
      s := new Sphr[n](_ => Sphr(0.0, 0.0));
    }
    ghost var before := s[..];
    var i := 0;
    while i < n
      invariant 0 <= i <= n <= s.Length
      invariant s != original ==> s.Length == n && original[..] == old(original[..])
      invariant forall k :: 0 <= k < i ==> s[k] == SphrFromCart(lib, src[k])
      invariant forall k :: n <= k < s.Length ==> s[k] == before[k]
    {
      s[i] := SphrFromCart(lib, src[i]);
      i := i + 1;
    }
    BroadcastByElements(x => SphrFromCart(lib, x), src[..n], s[..n]);
    sp.buf, sp.len := s, n;
  }

  // ---------------------------------------------------------------------------
  // Mult3S. Its buffer step differs from the three above: when the capacity is
  // large enough it reslices the receiver to its OWN length, z[:len(z)], not to
  // len(a) (coord.go:221).

  /** The receiver's length after Mult3S's buffer step, as written. */
  function Mult3SLen(zLen: nat, zCap: nat, aLen: nat): nat
  {
    if zCap < aLen then aLen else zLen
  }

  /** Whether every index Mult3S's loop writes, 0 to len(a) - 1, lies inside the resliced receiver. */
  predicate Mult3SInBounds(zLen: nat, zCap: nat, aLen: nat)
  {
    aLen <= Mult3SLen(zLen, zCap, aLen)
  }

  /**
   * Mult3S stays in bounds exactly when it allocates or the receiver is already
   * at least as long as a; a receiver shorter than a whose capacity would hold
   * a makes the loop index past len(z), a run-time panic in Go.
   */
  lemma Mult3SInBoundsIff(zLen: nat, zCap: nat, aLen: nat)
    requires zLen <= zCap
    ensures Mult3SInBounds(zLen, zCap, aLen) <==> zCap < aLen || aLen <= zLen
    ensures Mult3SLen(zLen, zCap, aLen) == aLen <==> zCap < aLen || zLen == aLen
  {
  }

  /**
   * Two concrete receivers: an empty slice with capacity 3 and an input of
   * three vectors (the loop writes z[0] with len(z) = 0), and a receiver of
   * length 5 with an input of three vectors (the result keeps length 5).
   */
  lemma Mult3SCounterexamples()
    ensures !Mult3SInBounds(0, 3, 3)
    ensures Mult3SInBounds(5, 5, 3) && Mult3SLen(5, 5, 3) != 3
  {
  }

  /**
   * zp.Mult3S(rm, a), as written: multiplies each vector of a by rm. When the
   * receiver's capacity is below len(a) it gets a new array of length len(a);
   * otherwise it keeps its array AND its length, and only its first len(a)
   * elements are overwritten. a may be the receiver itself or share its array.
   */
  method Mult3S(zp: Slice<Vec>, rm: array<real>, a: Slice<Vec>)
    requires zp.Valid() && a.Valid() && rm.Length == 9
    requires Mult3SInBounds(zp.len, zp.buf.Length, a.len)
    modifies zp, zp.buf
    ensures zp.Valid()
    ensures zp.len == Mult3SLen(old(zp.len), old(zp.buf.Length), old(a.len))
    ensures old(zp.buf.Length) < old(a.len) ==> fresh(zp.buf)
    ensures old(zp.buf.Length) < old(a.len) ==> zp.buf.Length == old(a.len) && old(zp.buf)[..] == old(zp.buf[..])
    ensures old(a.len) <= old(zp.buf.Length) ==>
              zp.buf == old(zp.buf) && zp.buf[old(a.len)..] == old(zp.buf[a.len..])
    ensures var m := rm[..]; zp.buf[..old(a.len)] == Broadcast(v => Product(m, v), old(a.Elems()))
  {
    var src, n := a.buf, a.len;
    ghost var input := src[..n];
    var z, zLen := zp.buf, zp.len;
    ghost var original := z;
    if z.Length < n {
      z := new Vec[n](_ => Zero);
      zLen := n;
    }
    ghost var before := z[..];
    var i := 0;
    while i < n
      invariant 0 <= i <= n <= zLen <= z.Length
      invariant z != original ==> z.Length == n && original[..] == old(original[..])
      invariant forall k :: 0 <= k < i ==> z[k] == Product(rm[..], input[k])
      invariant forall k :: i <= k < n ==> src[k] == input[k]
      invariant forall k :: n <= k < z.Length ==> z[k] == before[k]
    {
      z[i] := Product(rm[..], src[i]);
      i := i + 1;
    }
    zp.buf, zp.len := z, zLen;
  }

  /**
   * Mult3S with the buffer step of the other broadcasts, z[:len(a)]: it needs
   * no condition on the receiver and always leaves it of length len(a).
   */
  method Mult3SAdjusted(zp: Slice<Vec>, rm: array<real>, a: Slice<Vec>)
    requires zp.Valid() && a.Valid() && rm.Length == 9
    modifies zp, zp.buf
    ensures zp.Valid() && zp.len == old(a.len)
    ensures old(zp.buf.Length) < old(a.len) ==> fresh(zp.buf)
    ensures old(zp.buf.Length) < old(a.len) ==> zp.buf.Length == old(a.len) && old(zp.buf)[..] == old(zp.buf[..])
    ensures old(a.len) <= old(zp.buf.Length) ==>
              zp.buf == old(zp.buf) && zp.buf[old(a.len)..] == old(zp.buf[a.len..])
    ensures var m := rm[..]; zp.buf[..old(a.len)] == Broadcast(v => Product(m, v), old(a.Elems()))
  {
    var src, n := a.buf, a.len;
    ghost var input := src[..n];
    var z := zp.buf;
    ghost var original := z;
    if z.Length < n {
      z := new Vec[n](_ => Zero);
    }
    ghost var before := z[..];
    var i := 0;
    while i < n
      invariant 0 <= i <= n <= z.Length
      invariant z != original ==> z.Length == n && original[..] == old(original[..])
      invariant forall k :: 0 <= k < i ==> z[k] == Product(rm[..], input[k])
      invariant forall k :: i <= k < n ==> src[k] == input[k]
      invariant forall k :: n <= k < z.Length ==> z[k] == before[k]
    {
      z[i] := Product(rm[..], src[i]);
      i := i + 1;
    }
    zp.buf, zp.len := z, n;
  }

  /**
   * The package's example: Mult3S by the X-axis rotation rm into an empty
   * receiver sends the three unit vectors to the three columns of the matrix.
   */
  method Mult3SExample(sin: real, cos: real, rm: array<real>) returns (out: seq<Vec>)
    requires rm.Length == 9 && rm[..] == XRotation(sin, cos)
    ensures out == [Vec(1.0, 0.0, 0.0), Vec(0.0, cos, sin), Vec(0.0, -sin, cos)]
  {
    var input := [Vec(1.0, 0.0, 0.0), Vec(0.0, 1.0, 0.0), Vec(0.0, 0.0, 1.0)];
    var aBuf := new Vec[3];
    aBuf[0], aBuf[1], aBuf[2] := input[0], input[1], input[2];
    var a := new Slice(aBuf, 3);
    var zBuf := new Vec[0];
    var z := new Slice(zBuf, 0);
    assert a.Elems() == input;
    Mult3S(z, rm, a);
    out := z.Elems();
    XRotationOnAxes(sin, cos);
    assert |out| == 3 && forall k :: 0 <= k < 3 ==> out[k] == Product(XRotation(sin, cos), input[k]);
  }
}
