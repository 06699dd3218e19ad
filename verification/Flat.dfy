/**
 Byte strings written out: integers byte by byte, lengths, flags and concatenations. The
 layouts of the wire formats are stated in these terms, without any codec.
 */
module Flat {
  import opened Common
  import opened Wire

  function U8(n: nat): bytes { [n % 256] }

  function U16(n: nat): bytes { [n / 256 % 256, n % 256] }

  function U32(n: nat): bytes { [n / 0x100_0000 % 256, n / 0x1_0000 % 256, n / 256 % 256, n % 256] }

  function U64(n: nat): bytes { U32(n / 0x1_0000_0000) + U32(n) }

  function Flag(v: bool): bytes { [if v then 1 else 0] }

  /** A length and the bytes. */
  function Sized(b: bytes): bytes { U32(|b|) + b }

  /** A flag and the bytes, if there are any. */
  function Perhaps(b: Option<bytes>): bytes { if b.Some? then [1] + b.value else [0] }

  function Each<T>(xs: seq<T>, f: T -> bytes): bytes {
    if xs == [] then [] else f(xs[0]) + Each(xs[1..], f)
  }

  /** A count and the elements. */
  function Counted<T>(xs: seq<T>, f: T -> bytes): bytes { U32(|xs|) + Each(xs, f) }

  function PerhapsSized(b: Option<bytes>): bytes { if b.Some? then [1] + Sized(b.value) else [0] }

  /** What a field can hold. */
  predicate IsU8(n: nat) { n < 0x100 }
  predicate IsU16(n: nat) { n < 0x1_0000 }
  predicate IsU32(n: nat) { n < 0x1_0000_0000 }
  predicate IsU64(n: nat) { n < 0x1_0000_0000_0000_0000 }
  predicate IsBlob(b: bytes) { IsU32(|b|) }
  predicate IsText(b: bytes) { IsU32(|b|) && Utf8(b) }
  predicate IsId(b: bytes) { |b| == 32 }

  predicate IsAscii(s: string) { forall i :: 0 <= i < |s| ==> s[i] < 128 as char }

  function Ascii(s: string): bytes
    requires IsAscii(s)
  {
    seq(|s|, i requires 0 <= i < |s| => s[i] as int)
  }

  // ----- the primitive codecs write these -----

  lemma BigEndianIsFlat(n: nat)
    ensures BigEndian(n, 1) == U8(n) && BigEndian(n, 2) == U16(n) && BigEndian(n, 4) == U32(n)
    ensures BigEndian(n, 8) == U64(n)
  {
    Two(n);
    Four(n);
    Eight(n);
  }

  lemma Two(n: nat)
    ensures BigEndian(n, 1) == U8(n) && BigEndian(n, 2) == U16(n)
  {
    assert BigEndian(n / 256, 1) == [n / 256 % 256] by { assert BigEndian(n / 256 / 256, 0) == []; }
    assert BigEndian(n, 1) == BigEndian(n / 256, 0) + [n % 256];
  }

  lemma Four(n: nat)
    ensures BigEndian(n, 4) == U32(n)
  {
    Two(n / 256 / 256);
    assert BigEndian(n, 4) == BigEndian(n / 256, 3) + [n % 256];
    assert BigEndian(n / 256, 3) == BigEndian(n / 256 / 256, 2) + [n / 256 % 256];
    assert n / 256 / 256 == n / 0x1_0000 && n / 256 / 256 / 256 == n / 0x100_0000;
  }

  lemma Eight(n: nat)
    ensures BigEndian(n, 8) == U64(n)
  {
    Split4(n, 4);
    Four(n);
    Four(n / 0x1_0000_0000);
    assert n / 256 / 256 / 256 / 256 == n / 0x1_0000_0000;
  }

  /** The low four bytes of a longer integer are those of the integer itself. */
  lemma Split4(n: nat, width: nat)
    ensures BigEndian(n, width + 4) == BigEndian(n / 256 / 256 / 256 / 256, width) + BigEndian(n, 4)
  {
    Unroll(n, width);
    Unroll(n, 0);
    hide BigEndian;
    Nothing(n / 256 / 256 / 256 / 256);
  }

  lemma Nothing(n: nat)
    ensures BigEndian(n, 0) == []
  {
  }

  lemma Unroll(n: nat, width: nat)
    ensures var n1, n2, n3 := n / 256, n / 256 / 256, n / 256 / 256 / 256;
      BigEndian(n, width + 4) == BigEndian(n3 / 256, width) + [n3 % 256, n2 % 256, n1 % 256, n % 256]
  {
    var n1, n2, n3 := n / 256, n / 256 / 256, n / 256 / 256 / 256;
    var base := BigEndian(n3 / 256, width);
    assert BigEndian(n, width + 4) == BigEndian(n1, width + 3) + [n % 256];
    assert BigEndian(n1, width + 3) == BigEndian(n2, width + 2) + [n1 % 256];
    assert BigEndian(n2, width + 2) == BigEndian(n3, width + 1) + [n2 % 256];
    assert BigEndian(n3, width + 1) == base + [n3 % 256];
  }

  lemma Powers()
    ensures Pow256(1) == 0x100 && Pow256(2) == 0x1_0000 && Pow256(4) == 0x1_0000_0000
    ensures Pow256(8) == 0x1_0000_0000_0000_0000
  {
    assert Pow256(3) == 0x100_0000 && Pow256(5) == 0x100_0000_0000 && Pow256(6) == 0x1_0000_0000_0000;
    assert Pow256(7) == 0x100_0000_0000_0000;
  }

  lemma UIntIsFlat(n: nat)
    ensures UInt(1).enc(n) == U8(n) && UInt(2).enc(n) == U16(n) && UInt(4).enc(n) == U32(n) && UInt(8).enc(n) == U64(n)
    ensures (UInt(1).fits(n) <==> IsU8(n)) && (UInt(2).fits(n) <==> IsU16(n))
    ensures (UInt(4).fits(n) <==> IsU32(n)) && (UInt(8).fits(n) <==> IsU64(n))
  {
    hide Pow256, BigEndian;
    BigEndianIsFlat(n);
    Powers();
  }

  lemma FixedIsFlat(width: nat, b: bytes)
    ensures Fixed(width).enc(b) == b && (Fixed(width).fits(b) <==> |b| == width)
  {
  }

  lemma BoolIsFlat(v: bool)
    ensures Bool().enc(v) == Flag(v) && Bool().fits(v)
  {
  }

  lemma BytesIsFlat(b: bytes)
    ensures Bytes().enc(b) == Sized(b) && (Bytes().fits(b) <==> IsBlob(b))
  {
    hide Pow256, BigEndian;
    BigEndianIsFlat(|b|);
    Powers();
  }

  lemma StrIsFlat(b: bytes)
    ensures Str().enc(b) == Sized(b) && (Str().fits(b) <==> IsText(b))
  {
    hide Bytes, Utf8;
    BytesIsFlat(b);
  }

  lemma MaybeIsFlat<T>(c: Codec<T>, v: Option<T>)
    ensures Maybe(c).enc(v) == (if v.Some? then [1] + c.enc(v.value) else [0])
    ensures Maybe(c).fits(v) <==> (v.Some? ==> c.fits(v.value))
  {
  }

  lemma FramedIsFlat<T>(c: Codec<T>, v: T)
    ensures Framed(c).enc(v) == Sized(c.enc(v))
    ensures Framed(c).fits(v) <==> c.fits(v) && IsBlob(c.enc(v))
  {
    hide Bytes;
    BytesIsFlat(c.enc(v));
  }

  lemma PairIsFlat<A, B>(a: Codec<A>, b: Codec<B>, x: A, y: B)
    ensures Pair(a, b).enc((x, y)) == a.enc(x) + b.enc(y)
    ensures Pair(a, b).fits((x, y)) <==> a.fits(x) && b.fits(y)
  {
  }

  lemma ShapedIsFlat<A, T>(s: Shape<A, T>, v: T)
    ensures Shaped(s).enc(v) == s.parts.enc(s.unwrap(v))
    ensures Shaped(s).fits(v) <==> s.covers(v) && s.parts.fits(s.unwrap(v))
  {
  }

  lemma TaggedIsFlat<T>(u: Union<T>, v: T)
    requires u.count < 256
    ensures 1 <= u.tagOf(v) <= u.count ==> Tagged(u).enc(v) == [u.tagOf(v)] + u.branch(u.tagOf(v)).enc(v)
    ensures Tagged(u).fits(v) <==> 1 <= u.tagOf(v) <= u.count && u.branch(u.tagOf(v)).fits(v)
  {
    hide UInt;
    UIntIsFlat(u.tagOf(v));
  }

  lemma {:induction false} EachIsFlat<T>(c: Codec<T>, xs: seq<T>, f: T -> bytes)
    requires forall x :: x in xs ==> c.enc(x) == f(x)
    ensures EncAll(c, xs) == Each(xs, f)
  {
    if xs != [] {
      assert xs[0] in xs && forall x :: x in xs[1..] ==> x in xs;
      EachIsFlat(c, xs[1..], f);
    }
  }

  lemma ListIsFlat<T>(c: Codec<T>, min: nat, xs: seq<T>, f: T -> bytes)
    requires min > 0 && forall x :: x in xs ==> c.enc(x) == f(x)
    ensures List(c, min).enc(xs) == Counted(xs, f)
    ensures List(c, min).fits(xs) <==> IsU32(|xs|) && forall x :: x in xs ==> c.fits(x)
  {
    hide Pow256, BigEndian, EncAll;
    BigEndianIsFlat(|xs|);
    EachIsFlat(c, xs, f);
    Powers();
    if forall x :: x in xs ==> c.fits(x) {
      assert forall i :: 0 <= i < |xs| ==> xs[i] in xs;
    }
  }

  lemma MaybeIdIsFlat(v: Option<bytes>)
    ensures Maybe(Fixed(32)).enc(v) == Perhaps(v) && (Maybe(Fixed(32)).fits(v) <==> (v.Some? ==> IsId(v.value)))
  {
  }

  lemma MaybeStrIsFlat(v: Option<bytes>)
    ensures Maybe(Str()).enc(v) == PerhapsSized(v) && (Maybe(Str()).fits(v) <==> (v.Some? ==> IsText(v.value)))
  {
    hide Str;
    if v.Some? {
      StrIsFlat(v.value);
    }
  }

  function Same(b: bytes): bytes { b }

  lemma IdsAreFlat(xs: seq<bytes>)
    ensures List(Fixed(32), 1).enc(xs) == Counted(xs, Same)
    ensures List(Fixed(32), 1).fits(xs) <==> IsU32(|xs|) && forall x :: x in xs ==> IsId(x)
  {
    hide List;
    ListIsFlat(Fixed(32), 1, xs, Same);
  }
}
