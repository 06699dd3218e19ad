/**
 The length-prefixed binary codec of `dante_proto::enc`, and codecs as values: a
 codec is an encoder, a decoder that consumes a prefix of its input, and the
 values it is meant for. The laws below compose, so each wire format is proved
 right by naming its parts.
 */
module Wire {
  import opened Common

  datatype WireError =
    | Eof
    | Trailing(count: nat)
    | LengthTooLarge(length: nat)
    | BadBool(found: byte)
    | BadUtf8
    | BadDiscriminant(tag: nat)
    | Invalid(what: string)

  /** What a read did: a value and the bytes it left, or an error. */
  datatype Parse<+T> = Done(value: T, rest: bytes) | Fail(error: WireError) {
    predicate IsFailure() { Fail? }

    function PropagateFailure<U>(): Parse<U>
      requires Fail?
    {
      Fail(error)
    }

    function Extract(): (T, bytes)
      requires Done?
    {
      (value, rest)
    }
  }

  type Decoded<+T> = Result<T, WireError>

  /** `Reader::finish`: a top-level value must use all of its input. */
  function Finish<T>(p: Parse<T>): Decoded<T> {
    match p
    case Fail(error) => Err(error)
    case Done(value, rest) => if rest == [] then Ok(value) else Err(Trailing(|rest|))
  }

  // ----- codecs and their laws -----

  datatype Codec<!T> = Codec(enc: T -> bytes, dec: bytes -> Parse<T>, fits: T -> bool)

  // Each law is stated at one point first, so that a proof says where it uses it.

  ghost predicate RoundTripsAt<T>(c: Codec<T>, v: T, rest: bytes) {
    c.fits(v) ==> c.dec(c.enc(v) + rest) == Done(v, rest)
  }

  ghost predicate ExtendsAt<T>(c: Codec<T>, b: bytes, more: bytes) {
    c.dec(b).Done? ==> c.dec(b + more) == Done(c.dec(b).value, c.dec(b).rest + more)
  }

  ghost predicate CanonicalAt<T>(c: Codec<T>, b: bytes) {
    c.dec(b).Done? ==> c.fits(c.dec(b).value) && b == c.enc(c.dec(b).value) + c.dec(b).rest
  }

  ghost predicate AtLeastAt<T>(c: Codec<T>, min: nat, v: T) {
    c.fits(v) ==> |c.enc(v)| >= min
  }

  /** Every value meant for the codec comes back from its encoding, and what follows is left alone. */
  ghost predicate RoundTrips<T(!new)>(c: Codec<T>) {
    forall v, rest :: RoundTripsAt(c, v, rest)
  }

  /** A read that succeeds does not depend on the bytes it leaves. */
  ghost predicate Extends<T>(c: Codec<T>) {
    forall b, more :: ExtendsAt(c, b, more)
  }

  ghost predicate Lawful<T(!new)>(c: Codec<T>) {
    RoundTrips(c) && Extends(c)
  }

  /** Whatever decodes is a value meant for the codec, and re-encodes to the bytes consumed. */
  ghost predicate Canonical<T>(c: Codec<T>) {
    forall b :: CanonicalAt(c, b)
  }

  /** Every encoding is at least `min` bytes long. */
  ghost predicate AtLeast<T(!new)>(c: Codec<T>, min: nat) {
    forall v :: AtLeastAt(c, min, v)
  }

  /** What decodes fits, and a read leaves no more than it was given. */
  ghost predicate SoundAt<T>(c: Codec<T>, b: bytes) {
    c.dec(b).Done? ==> c.fits(c.dec(b).value) && |c.dec(b).rest| <= |b|
  }

  /** What decodes fits if the input was short, or if it satisfies `ok`. */
  ghost predicate SoundForAt<T>(c: Codec<T>, ok: T -> bool, b: bytes) {
    c.dec(b).Done? ==>
      && |c.dec(b).rest| <= |b|
      && (|b| < Pow256(4) || ok(c.dec(b).value) ==> c.fits(c.dec(b).value))
  }

  /** Whatever decodes is a value meant for the codec. */
  ghost predicate Sound<T>(c: Codec<T>) {
    forall b :: SoundAt(c, b)
  }

  ghost predicate SoundFor<T>(c: Codec<T>, ok: T -> bool) {
    forall b :: SoundForAt(c, ok, b)
  }

  lemma RoundTrip<T(!new)>(c: Codec<T>, v: T, rest: bytes)
    requires RoundTrips(c) && c.fits(v)
    ensures c.dec(c.enc(v) + rest) == Done(v, rest)
    ensures Finish(c.dec(c.enc(v))) == Ok(v)
  {
    assert RoundTripsAt(c, v, rest) && RoundTripsAt(c, v, []);
    assert c.enc(v) + [] == c.enc(v);
  }

  lemma Extend<T>(c: Codec<T>, b: bytes, more: bytes)
    requires Extends(c) && c.dec(b).Done?
    ensures c.dec(b + more) == Done(c.dec(b).value, c.dec(b).rest + more)
  {
    assert ExtendsAt(c, b, more);
  }

  lemma Reencode<T>(c: Codec<T>, b: bytes)
    requires Canonical(c) && c.dec(b).Done?
    ensures c.fits(c.dec(b).value) && b == c.enc(c.dec(b).value) + c.dec(b).rest
  {
    assert CanonicalAt(c, b);
  }

  lemma Size<T(!new)>(c: Codec<T>, min: nat, v: T)
    requires AtLeast(c, min) && c.fits(v)
    ensures |c.enc(v)| >= min
  {
    assert AtLeastAt(c, min, v);
  }

  lemma AtLeastLess<T(!new)>(c: Codec<T>, min: nat, less: nat)
    requires AtLeast(c, min) && less <= min
    ensures AtLeast(c, less)
  {
    forall v: T ensures AtLeastAt(c, less, v) {
      assert AtLeastAt(c, min, v);
    }
  }

  lemma CanonicalExtends<T(!new)>(c: Codec<T>)
    requires RoundTrips(c) && Canonical(c)
    ensures Lawful(c)
  {
    forall b, more ensures ExtendsAt(c, b, more) {
      if c.dec(b).Done? {
        var p := c.dec(b);
        Reencode(c, b);
        RoundTrip(c, p.value, p.rest + more);
        assert b + more == c.enc(p.value) + (p.rest + more);
      }
    }
  }

  /** A top-level decoder accepts exactly the encodings, and inverts them. */
  lemma ExactInverse<T(!new)>(c: Codec<T>, b: bytes, v: T)
    requires RoundTrips(c) && Canonical(c)
    ensures Finish(c.dec(b)) == Ok(v) <==> c.fits(v) && b == c.enc(v)
  {
    if c.fits(v) {
      RoundTrip(c, v, []);
    }
    if Finish(c.dec(b)) == Ok(v) {
      Reencode(c, b);
      assert c.enc(v) + [] == c.enc(v);
    }
  }

  /** No proper prefix of an encoding decodes. */
  lemma PrefixFails<T(!new)>(c: Codec<T>, v: T, p: bytes)
    requires Lawful(c) && c.fits(v) && p <= c.enc(v)
    ensures c.dec(p).Done? ==> p == c.enc(v)
  {
    if c.dec(p).Done? {
      var more := c.enc(v)[|p|..];
      assert p + more == c.enc(v) + [];
      Extend(c, p, more);
      RoundTrip(c, v, []);
    }
  }

  // ----- integers, big-endian -----

  function Pow256(width: nat): nat {
    if width == 0 then 1 else 256 * Pow256(width - 1)
  }

  function BigEndian(n: nat, width: nat): (b: bytes)
    ensures |b| == width
  {
    if width == 0 then [] else BigEndian(n / 256, width - 1) + [n % 256]
  }

  function Value(b: bytes): nat {
    if b == [] then 0 else 256 * Value(b[..|b| - 1]) + b[|b| - 1]
  }

  lemma {:induction false} ValueOfBigEndian(n: nat, width: nat)
    requires n < Pow256(width)
    ensures Value(BigEndian(n, width)) == n
  {
    if width > 0 {
      ValueOfBigEndian(n / 256, width - 1);
    }
  }

  lemma {:induction false} BigEndianOfValue(b: bytes)
    ensures Value(b) < Pow256(|b|) && BigEndian(Value(b), |b|) == b
  {
    if b != [] {
      var init := b[..|b| - 1];
      BigEndianOfValue(init);
      assert Value(b) / 256 == Value(init) && Value(b) % 256 == b[|b| - 1];
    }
  }

  function UInt(width: nat): Codec<nat> {
    Codec(n => BigEndian(n, width),
          b => if |b| < width then Fail(Eof) else Done(Value(b[..width]), b[width..]),
          n => n < Pow256(width))
  }

  lemma UIntFits(width: nat, n: nat)
    ensures UInt(width).fits(n) <==> n < Pow256(width)
  {
  }

  lemma UIntLaws(width: nat)
    ensures Lawful(UInt(width)) && Canonical(UInt(width)) && AtLeast(UInt(width), width)
  {
    var c := UInt(width);
    forall n: nat, rest: bytes ensures RoundTripsAt(c, n, rest) {
      if c.fits(n) {
        ValueOfBigEndian(n, width);
        assert (BigEndian(n, width) + rest)[..width] == BigEndian(n, width);
        assert (BigEndian(n, width) + rest)[width..] == rest;
      }
    }
    forall b: bytes ensures CanonicalAt(c, b) {
      if c.dec(b).Done? {
        BigEndianOfValue(b[..width]);
      }
    }
    CanonicalExtends(c);
  }

  // ----- raw bytes, booleans, byte strings and text -----

  function Fixed(width: nat): Codec<bytes> {
    Codec(v => v, b => if |b| < width then Fail(Eof) else Done(b[..width], b[width..]), v => |v| == width)
  }

  lemma FixedLaws(width: nat)
    ensures Lawful(Fixed(width)) && Canonical(Fixed(width)) && AtLeast(Fixed(width), width)
  {
    var c := Fixed(width);
    forall v: bytes, rest: bytes ensures RoundTripsAt(c, v, rest) {
      if c.fits(v) {
        assert (v + rest)[..width] == v && (v + rest)[width..] == rest;
      }
    }
    CanonicalExtends(c);
  }

  function Bool(): Codec<bool> {
    Codec(v => [if v then 1 else 0],
          b => if b == [] then Fail(Eof)
               else if b[0] == 0 then Done(false, b[1..])
               else if b[0] == 1 then Done(true, b[1..])
               else Fail(BadBool(b[0])),
          v => true)
  }

  lemma BoolLaws()
    ensures Lawful(Bool()) && Canonical(Bool()) && AtLeast(Bool(), 1)
  {
    var c := Bool();
    forall v: bool, rest: bytes ensures RoundTripsAt(c, v, rest) {
      if c.fits(v) {
        assert (c.enc(v) + rest)[1..] == rest;
      }
    }
    CanonicalExtends(c);
  }

  function Unit(): Codec<()> {
    Codec(_ => [], b => Done((), b), _ => true)
  }

  lemma UnitLaws()
    ensures Lawful(Unit()) && Canonical(Unit())
  {
    var c := Unit();
    forall v: (), rest: bytes ensures RoundTripsAt(c, v, rest) {
      assert v == () && [] + rest == rest;
    }
    forall b: bytes ensures CanonicalAt(c, b) {
      assert [] + b == b;
    }
    CanonicalExtends(c);
  }

  /** A byte that must have one given value. */
  function Marker(value: byte, error: WireError): Codec<()> {
    Codec(_ => [value],
          b => if b == [] then Fail(Eof) else if b[0] == value then Done((), b[1..]) else Fail(error),
          _ => true)
  }

  lemma MarkerLaws(value: byte, error: WireError)
    ensures Lawful(Marker(value, error)) && Canonical(Marker(value, error))
  {
    var c := Marker(value, error);
    forall v: (), rest: bytes ensures RoundTripsAt(c, v, rest) {
      assert v == () && ([value] + rest)[1..] == rest;
    }
    CanonicalExtends(c);
  }

  /** A `u32` length and that many bytes. */
  function Bytes(): Codec<bytes> {
    Codec(v => BigEndian(|v|, 4) + v,
          b => var (n, rest) :- UInt(4).dec(b);
               if n > |rest| then Fail(LengthTooLarge(n)) else Done(rest[..n], rest[n..]),
          v => |v| < Pow256(4))
  }

  lemma BytesLaws()
    ensures Lawful(Bytes()) && Canonical(Bytes()) && AtLeast(Bytes(), 4)
  {
    var c := Bytes();
    UIntLaws(4);
    forall v: bytes, rest: bytes ensures RoundTripsAt(c, v, rest) {
      if c.fits(v) {
        RoundTrip(UInt(4), |v|, v + rest);
        assert c.enc(v) + rest == UInt(4).enc(|v|) + (v + rest);
        assert (v + rest)[..|v|] == v && (v + rest)[|v|..] == rest;
      }
    }
    forall b: bytes ensures CanonicalAt(c, b) {
      if c.dec(b).Done? {
        Reencode(UInt(4), b);
        var p := UInt(4).dec(b);
        assert p.rest == p.rest[..p.value] + p.rest[p.value..];
      }
    }
    CanonicalExtends(c);
  }

  predicate Tail(x: byte) { 0x80 <= x <= 0xBF }

  /** Well-formed UTF-8 (section 4 of RFC 3629). */
  predicate Utf8(b: bytes) {
    if b == [] then true
    else if b[0] <= 0x7F then Utf8(b[1..])
    else if 0xC2 <= b[0] <= 0xDF then |b| >= 2 && Tail(b[1]) && Utf8(b[2..])
    else if 0xE0 <= b[0] <= 0xEF then
      && |b| >= 3 && Tail(b[1]) && Tail(b[2])
      && (b[0] == 0xE0 ==> b[1] >= 0xA0) && (b[0] == 0xED ==> b[1] <= 0x9F)
      && Utf8(b[3..])
    else if 0xF0 <= b[0] <= 0xF4 then
      && |b| >= 4 && Tail(b[1]) && Tail(b[2]) && Tail(b[3])
      && (b[0] == 0xF0 ==> b[1] >= 0x90) && (b[0] == 0xF4 ==> b[1] <= 0x8F)
      && Utf8(b[4..])
    else false
  }

  /** A codec that refuses some of the values another one reads. */
  function Where<T>(c: Codec<T>, good: T -> bool, error: WireError): Codec<T> {
    Codec(c.enc,
          b => var (v, rest) :- c.dec(b); if good(v) then Done(v, rest) else Fail(error),
          v => c.fits(v) && good(v))
  }

  lemma WhereLaws<T(!new)>(c: Codec<T>, good: T -> bool, error: WireError)
    requires Lawful(c) && Canonical(c)
    ensures Lawful(Where(c, good, error)) && Canonical(Where(c, good, error))
  {
    var w := Where(c, good, error);
    forall v: T, rest: bytes ensures RoundTripsAt(w, v, rest) {
      assert RoundTripsAt(c, v, rest);
    }
    forall b: bytes ensures CanonicalAt(w, b) {
      assert CanonicalAt(c, b);
    }
    CanonicalExtends(w);
  }

  lemma WhereAtLeast<T(!new)>(c: Codec<T>, good: T -> bool, error: WireError, min: nat)
    requires AtLeast(c, min)
    ensures AtLeast(Where(c, good, error), min)
  {
    var w := Where(c, good, error);
    forall v: T ensures AtLeastAt(w, min, v) {
      assert AtLeastAt(c, min, v);
    }
  }

  /** Strings are the UTF-8 bytes that carry them. */
  function Str(): Codec<bytes> {
    Where(Bytes(), b => Utf8(b), BadUtf8)
  }

  lemma StrLaws()
    ensures Lawful(Str()) && Canonical(Str()) && AtLeast(Str(), 4)
  {
    BytesLaws();
    WhereLaws(Bytes(), b => Utf8(b), BadUtf8);
    WhereAtLeast(Bytes(), b => Utf8(b), BadUtf8, 4);
  }

  // ----- combining codecs -----

  function Pair<A, B>(a: Codec<A>, b: Codec<B>): Codec<(A, B)> {
    Codec((v: (A, B)) => a.enc(v.0) + b.enc(v.1),
          s => var (x, r1) :- a.dec(s); var (y, r2) :- b.dec(r1); Done((x, y), r2),
          (v: (A, B)) => a.fits(v.0) && b.fits(v.1))
  }

  lemma PairLaws<A(!new), B(!new)>(a: Codec<A>, b: Codec<B>)
    ensures Lawful(a) && Lawful(b) ==> Lawful(Pair(a, b))
    ensures Canonical(a) && Canonical(b) ==> Canonical(Pair(a, b))
  {
    hide Lawful, Canonical;
    if Lawful(a) && Lawful(b) {
      PairLawful(a, b);
    }
    if Canonical(a) && Canonical(b) {
      PairCanonical(a, b);
    }
  }

  lemma PairLawful<A(!new), B(!new)>(a: Codec<A>, b: Codec<B>)
    requires Lawful(a) && Lawful(b)
    ensures Lawful(Pair(a, b))
  {
    var c := Pair(a, b);
    forall v: (A, B), rest: bytes ensures RoundTripsAt(c, v, rest) {
      if c.fits(v) {
        RoundTrip(a, v.0, b.enc(v.1) + rest);
        RoundTrip(b, v.1, rest);
        assert c.enc(v) + rest == a.enc(v.0) + (b.enc(v.1) + rest);
      }
    }
    forall s, more ensures ExtendsAt(c, s, more) {
      if c.dec(s).Done? {
        Extend(a, s, more);
        Extend(b, a.dec(s).rest, more);
      }
    }
  }

  lemma PairCanonical<A(!new), B(!new)>(a: Codec<A>, b: Codec<B>)
    requires Canonical(a) && Canonical(b)
    ensures Canonical(Pair(a, b))
  {
    var c := Pair(a, b);
    forall s: bytes ensures CanonicalAt(c, s) {
      if c.dec(s).Done? {
        Reencode(a, s);
        Reencode(b, a.dec(s).rest);
        var p, q := a.dec(s), b.dec(a.dec(s).rest);
        assert s == a.enc(p.value) + (b.enc(q.value) + q.rest);
      }
    }
  }

  lemma PairFits<A, B>(a: Codec<A>, b: Codec<B>, x: A, y: B)
    ensures Pair(a, b).fits((x, y)) <==> a.fits(x) && b.fits(y)
  {
  }

  lemma PairAtLeast<A(!new), B(!new)>(a: Codec<A>, b: Codec<B>, m: nat, n: nat)
    requires AtLeast(a, m) && AtLeast(b, n)
    ensures AtLeast(Pair(a, b), m + n)
  {
    var c, sum := Pair(a, b), m + n;
    forall v: (A, B) ensures AtLeastAt(c, sum, v) {
      assert AtLeastAt(a, m, v.0) && AtLeastAt(b, n, v.1);
    }
  }

  /** How a type (or one variant of it, the values it `covers`) is laid out as `parts`. */
  datatype Shape<!A, !T> = Shape(parts: Codec<A>, wrap: A -> T, unwrap: T -> A, covers: T -> bool)

  function Shaped<A, T>(s: Shape<A, T>): Codec<T> {
    Codec(v => s.parts.enc(s.unwrap(v)),
          b => var (x, rest) :- s.parts.dec(b); Done(s.wrap(x), rest),
          v => s.covers(v) && s.parts.fits(s.unwrap(v)))
  }

  ghost predicate ExactParts<A, T>(s: Shape<A, T>, x: A) { s.covers(s.wrap(x)) && s.unwrap(s.wrap(x)) == x }
  ghost predicate ExactValue<A, T>(s: Shape<A, T>, v: T) { s.covers(v) ==> s.wrap(s.unwrap(v)) == v }

  /** Wrapping and unwrapping are inverse to each other. */
  ghost predicate Exact<A(!new), T(!new)>(s: Shape<A, T>) {
    (forall x :: ExactParts(s, x)) && (forall v :: ExactValue(s, v))
  }

  lemma ShapeLawful<A(!new), T(!new)>(s: Shape<A, T>)
    requires Exact(s) && Lawful(s.parts)
    ensures Lawful(Shaped(s))
  {
    var c := Shaped(s);
    forall v: T, rest: bytes ensures RoundTripsAt(c, v, rest) {
      assert RoundTripsAt(s.parts, s.unwrap(v), rest) && ExactValue(s, v);
    }
    forall b, more ensures ExtendsAt(c, b, more) {
      assert ExtendsAt(s.parts, b, more);
    }
  }

  lemma ShapeCanonical<A(!new), T(!new)>(s: Shape<A, T>)
    requires Exact(s) && Canonical(s.parts)
    ensures Canonical(Shaped(s))
  {
    var c := Shaped(s);
    forall b: bytes ensures CanonicalAt(c, b) {
      assert CanonicalAt(s.parts, b);
      if s.parts.dec(b).Done? {
        assert ExactParts(s, s.parts.dec(b).value);
      }
    }
  }

  lemma ShapeAtLeast<A(!new), T(!new)>(s: Shape<A, T>, min: nat)
    requires AtLeast(s.parts, min)
    ensures AtLeast(Shaped(s), min)
  {
    var c := Shaped(s);
    forall v: T ensures AtLeastAt(c, min, v) {
      assert AtLeastAt(s.parts, min, s.unwrap(v));
    }
  }

  /** A flag byte, and the value if it is set. */
  function Maybe<T>(c: Codec<T>): Codec<Option<T>> {
    Codec((v: Option<T>) => if v.Some? then [1] + c.enc(v.value) else [0],
          s => var (present, rest) :- Bool().dec(s);
               if !present then Done(None, rest)
               else var (x, rest') :- c.dec(rest); Done(Some(x), rest'),
          (v: Option<T>) => v.Some? ==> c.fits(v.value))
  }

  lemma MaybeLaws<T(!new)>(c: Codec<T>)
    requires Lawful(c) && Canonical(c)
    ensures Lawful(Maybe(c)) && Canonical(Maybe(c)) && AtLeast(Maybe(c), 1)
  {
    BoolLaws();
    var m := Maybe(c);
    forall v: Option<T>, rest: bytes ensures RoundTripsAt(m, v, rest) {
      if m.fits(v) {
        if v.Some? {
          RoundTrip(Bool(), true, c.enc(v.value) + rest);
          RoundTrip(c, v.value, rest);
          assert m.enc(v) + rest == Bool().enc(true) + (c.enc(v.value) + rest);
        } else {
          RoundTrip(Bool(), false, rest);
        }
      }
    }
    forall s: bytes ensures CanonicalAt(m, s) {
      if m.dec(s).Done? {
        Reencode(Bool(), s);
        var p := Bool().dec(s);
        if p.value {
          Reencode(c, p.rest);
          assert s == [1] + (c.enc(c.dec(p.rest).value) + c.dec(p.rest).rest);
        }
      }
    }
    CanonicalExtends(m);
  }

  /** A value framed as a byte string of its own, which it must fill. */
  function Framed<T>(c: Codec<T>): Codec<T> {
    Codec(v => Bytes().enc(c.enc(v)),
          s => var (inner, rest) :- Bytes().dec(s);
               match Finish(c.dec(inner)) case Ok(v) => Done(v, rest) case Err(e) => Fail(e),
          v => c.fits(v) && Bytes().fits(c.enc(v)))
  }

  lemma FramedLawful<T(!new)>(c: Codec<T>)
    requires RoundTrips(c)
    ensures Lawful(Framed(c)) && AtLeast(Framed(c), 4)
  {
    BytesLaws();
    var f := Framed(c);
    forall v: T, rest: bytes ensures RoundTripsAt(f, v, rest) {
      if f.fits(v) {
        RoundTrip(Bytes(), c.enc(v), rest);
        RoundTrip(c, v, []);
      }
    }
    forall s, more ensures ExtendsAt(f, s, more) {
      if f.dec(s).Done? {
        Extend(Bytes(), s, more);
      }
    }
  }

  lemma FramedCanonical<T(!new)>(c: Codec<T>)
    requires Canonical(c)
    ensures Canonical(Framed(c))
  {
    BytesLaws();
    var f := Framed(c);
    forall s: bytes ensures CanonicalAt(f, s) {
      if f.dec(s).Done? {
        Reencode(Bytes(), s);
        var inner := Bytes().dec(s).value;
        Reencode(c, inner);
        assert c.enc(c.dec(inner).value) + [] == c.enc(c.dec(inner).value);
      }
    }
  }

  // ----- tagged unions -----

  /** A discriminant byte from 1 to `count`, and the layout it selects. */
  datatype Union<!T> = Union(count: nat, tagOf: T -> nat, branch: nat -> Codec<T>)

  function Tagged<T>(u: Union<T>): Codec<T> {
    Codec(v => UInt(1).enc(u.tagOf(v)) + u.branch(u.tagOf(v)).enc(v),
          b => var (tag, rest) :- UInt(1).dec(b);
               if 1 <= tag <= u.count then u.branch(tag).dec(rest) else Fail(BadDiscriminant(tag)),
          v => 1 <= u.tagOf(v) <= u.count && u.branch(u.tagOf(v)).fits(v))
  }

  ghost predicate OwnTag<T>(u: Union<T>, tag: nat, v: T) {
    u.branch(tag).fits(v) ==> u.tagOf(v) == tag
  }

  ghost predicate GoodBranch<T(!new)>(u: Union<T>, tag: nat) {
    RoundTrips(u.branch(tag)) && Canonical(u.branch(tag)) && forall v :: OwnTag(u, tag, v)
  }

  ghost predicate CoversTag<A, T>(u: Union<T>, tag: nat, s: Shape<A, T>, v: T) {
    s.covers(v) ==> u.tagOf(v) == tag
  }

  /** One variant of a union, laid out by a shape that covers just that variant. */
  lemma VariantIsGood<A(!new), T(!new)>(u: Union<T>, tag: nat, s: Shape<A, T>)
    requires u.branch(tag) == Shaped(s) && Exact(s) && Lawful(s.parts) && Canonical(s.parts)
    requires forall v :: CoversTag(u, tag, s, v)
    ensures GoodBranch(u, tag)
  {
    ShapeLawful(s);
    ShapeCanonical(s);
    forall v: T ensures OwnTag(u, tag, v) {
      assert CoversTag(u, tag, s, v);
    }
  }

  lemma TaggedRoundTrips<T(!new)>(u: Union<T>, v: T, rest: bytes)
    requires u.count < 256 && Tagged(u).fits(v) && RoundTrips(u.branch(u.tagOf(v)))
    ensures Tagged(u).dec(Tagged(u).enc(v) + rest) == Done(v, rest)
  {
    hide UInt, RoundTrips, Canonical, Extends, AtLeast;
    var tag := u.tagOf(v);
    UIntLaws(1);
    UIntFits(1, tag);
    assert Pow256(1) == 256;
    RoundTrip(UInt(1), tag, u.branch(tag).enc(v) + rest);
    RoundTrip(u.branch(tag), v, rest);
    assert Tagged(u).enc(v) + rest == UInt(1).enc(tag) + (u.branch(tag).enc(v) + rest);
  }

  lemma TaggedReencodes<T(!new)>(u: Union<T>, b: bytes)
    requires Tagged(u).dec(b).Done? && Canonical(u.branch(UInt(1).dec(b).value))
    requires forall v :: OwnTag(u, UInt(1).dec(b).value, v)
    ensures CanonicalAt(Tagged(u), b)
  {
    hide UInt, RoundTrips, Extends, Canonical, AtLeast;
    UIntLaws(1);
    var p := UInt(1).dec(b);
    Reencode(UInt(1), b);
    Reencode(u.branch(p.value), p.rest);
    var q := u.branch(p.value).dec(p.rest);
    assert OwnTag(u, p.value, q.value);
    assert b == UInt(1).enc(p.value) + (u.branch(p.value).enc(q.value) + q.rest);
  }

  lemma TaggedLaws<T(!new)>(u: Union<T>)
    requires u.count < 256
    requires forall tag: nat :: 1 <= tag <= u.count ==> GoodBranch(u, tag)
    ensures Lawful(Tagged(u)) && Canonical(Tagged(u))
  {
    var c := Tagged(u);
    forall v: T, rest: bytes ensures RoundTripsAt(c, v, rest) {
      if c.fits(v) {
        assert GoodBranch(u, u.tagOf(v));
        TaggedRoundTrips(u, v, rest);
      }
    }
    forall b: bytes ensures CanonicalAt(c, b) {
      if c.dec(b).Done? {
        assert GoodBranch(u, UInt(1).dec(b).value);
        TaggedReencodes(u, b);
      }
    }
    CanonicalExtends(c);
  }

  // ----- lists -----

  function EncAll<T>(c: Codec<T>, xs: seq<T>): bytes {
    if xs == [] then [] else c.enc(xs[0]) + EncAll(c, xs[1..])
  }

  function DecAll<T>(c: Codec<T>, count: nat, b: bytes): Parse<seq<T>> {
    if count == 0 then Done([], b)
    else
      var (x, rest) :- c.dec(b);
      var (xs, rest') :- DecAll(c, count - 1, rest);
      Done([x] + xs, rest')
  }

  predicate AllFit<T>(c: Codec<T>, xs: seq<T>) {
    forall i :: 0 <= i < |xs| ==> c.fits(xs[i])
  }

  /** How many `min`-byte elements could fit into `size` bytes. */
  function MaxCount(size: nat, min: nat): nat
    requires min > 0
  {
    size / min
  }

  /**
   A `u32` count and that many elements. A count that `min`-byte elements could
   not fit into what is left of the input is refused before anything is read.
   */
  function List<T>(c: Codec<T>, min: nat): Codec<seq<T>>
    requires min > 0
  {
    Codec(xs => BigEndian(|xs|, 4) + EncAll(c, xs),
          b => var (n, rest) :- UInt(4).dec(b);
               if n > MaxCount(|rest|, min) then Fail(LengthTooLarge(n)) else DecAll(c, n, rest),
          xs => |xs| < Pow256(4) && AllFit(c, xs))
  }

  lemma ListFits<T>(c: Codec<T>, min: nat, xs: seq<T>)
    requires min > 0
    ensures List(c, min).fits(xs) <==> |xs| < Pow256(4) && AllFit(c, xs)
  {
  }

  lemma {:induction false} DecAllOfEncAll<T(!new)>(c: Codec<T>, xs: seq<T>, rest: bytes)
    requires RoundTrips(c) && AllFit(c, xs)
    ensures DecAll(c, |xs|, EncAll(c, xs) + rest) == Done(xs, rest)
  {
    if xs == [] {
      assert [] + rest == rest;
    } else {
      DecAllOfEncAll(c, xs[1..], rest);
      RoundTrip(c, xs[0], EncAll(c, xs[1..]) + rest);
      assert EncAll(c, xs) + rest == c.enc(xs[0]) + (EncAll(c, xs[1..]) + rest);
      assert [xs[0]] + xs[1..] == xs;
    }
  }

  lemma {:induction false} DecAllExtends<T>(c: Codec<T>, count: nat, b: bytes, more: bytes)
    requires Extends(c) && DecAll(c, count, b).Done?
    ensures DecAll(c, count, b + more) == Done(DecAll(c, count, b).value, DecAll(c, count, b).rest + more)
    decreases count
  {
    if count > 0 {
      Extend(c, b, more);
      DecAllExtends(c, count - 1, c.dec(b).rest, more);
    }
  }

  lemma {:induction false} EncAllOfDecAll<T>(c: Codec<T>, count: nat, b: bytes)
    requires Canonical(c) && DecAll(c, count, b).Done?
    ensures var p := DecAll(c, count, b); |p.value| == count && AllFit(c, p.value) && b == EncAll(c, p.value) + p.rest
    decreases count
  {
    if count > 0 {
      Reencode(c, b);
      EncAllOfDecAll(c, count - 1, c.dec(b).rest);
      var p, q := c.dec(b), DecAll(c, count - 1, c.dec(b).rest);
      assert ([p.value] + q.value)[1..] == q.value;
      assert b == c.enc(p.value) + (EncAll(c, q.value) + q.rest);
    }
  }

  lemma {:induction false} EncAllSize<T(!new)>(c: Codec<T>, min: nat, xs: seq<T>)
    requires AtLeast(c, min) && AllFit(c, xs)
    ensures |EncAll(c, xs)| >= |xs| * min
  {
    if xs != [] {
      Size(c, min, xs[0]);
      EncAllSize(c, min, xs[1..]);
      assert |xs| * min == |xs[1..]| * min + min;
    }
  }

  /** The count guard never refuses an honest encoding. */
  lemma CountGuardPasses(n: nat, min: nat, size: nat)
    requires min > 0 && size >= n * min
    ensures n <= MaxCount(size, min)
  {
    var q := size / min;
    assert size < q * min + min;
    if n > q {
      TimesGrows(q + 1, n, min);
      assert false;
    }
  }

  lemma TimesGrows(a: nat, b: nat, k: nat)
    requires a <= b
    ensures a * k <= b * k
  {
    assert b * k == a * k + (b - a) * k;
  }

  lemma GuardGrows(min: nat, size: nat, more: nat)
    requires min > 0
    ensures MaxCount(size, min) <= MaxCount(size + more, min)
  {
    CountGuardPasses(size / min, min, size + more);
  }

  lemma ListRoundTrips<T(!new)>(c: Codec<T>, min: nat, xs: seq<T>, rest: bytes)
    requires min > 0 && Lawful(c) && AtLeast(c, min) && List(c, min).fits(xs)
    ensures List(c, min).dec(List(c, min).enc(xs) + rest) == Done(xs, rest)
  {
    hide MaxCount, BigEndian, Value, Pow256;
    UIntLaws(4);
    var body := EncAll(c, xs) + rest;
    RoundTrip(UInt(4), |xs|, body);
    assert List(c, min).enc(xs) + rest == UInt(4).enc(|xs|) + body;
    EncAllSize(c, min, xs);
    CountGuardPasses(|xs|, min, |body|);
    DecAllOfEncAll(c, xs, rest);
  }

  lemma ListExtends<T(!new)>(c: Codec<T>, min: nat, b: bytes, more: bytes)
    requires min > 0 && Lawful(c) && List(c, min).dec(b).Done?
    ensures ExtendsAt(List(c, min), b, more)
  {
    hide MaxCount, BigEndian, Value, Pow256, DecAll, RoundTripsAt, CanonicalAt;
    UIntLaws(4);
    Extend(UInt(4), b, more);
    var p := UInt(4).dec(b);
    GuardGrows(min, |p.rest|, |more|);
    DecAllExtends(c, p.value, p.rest, more);
  }

  lemma ListLawful<T(!new)>(c: Codec<T>, min: nat)
    requires min > 0 && Lawful(c) && AtLeast(c, min)
    ensures Lawful(List(c, min)) && AtLeast(List(c, min), 4)
  {
    var l := List(c, min);
    forall xs: seq<T>, rest: bytes ensures RoundTripsAt(l, xs, rest) {
      if l.fits(xs) {
        ListRoundTrips(c, min, xs, rest);
      }
    }
    forall b, more ensures ExtendsAt(l, b, more) {
      if l.dec(b).Done? {
        ListExtends(c, min, b, more);
      }
    }
  }

  lemma ListCanonical<T(!new)>(c: Codec<T>, min: nat)
    requires min > 0 && Canonical(c)
    ensures Canonical(List(c, min))
  {
    UIntLaws(4);
    var l := List(c, min);
    forall b: bytes ensures CanonicalAt(l, b) {
      if l.dec(b).Done? {
        Reencode(UInt(4), b);
        var p := UInt(4).dec(b);
        EncAllOfDecAll(c, p.value, p.rest);
      }
    }
  }

  // ----- what decodes, fits -----

  lemma CanonicalSound<T>(c: Codec<T>)
    requires Canonical(c)
    ensures Sound(c)
  {
    forall b: bytes ensures SoundAt(c, b) {
      assert CanonicalAt(c, b);
    }
  }

  lemma PairSound<A, B>(a: Codec<A>, b: Codec<B>)
    requires Sound(a) && Sound(b)
    ensures Sound(Pair(a, b))
  {
    var c := Pair(a, b);
    forall s: bytes ensures SoundAt(c, s) {
      assert SoundAt(a, s);
      if a.dec(s).Done? {
        assert SoundAt(b, a.dec(s).rest);
      }
    }
  }

  lemma ShapeSound<A(!new), T(!new)>(s: Shape<A, T>)
    requires Exact(s) && Sound(s.parts)
    ensures Sound(Shaped(s))
  {
    var c := Shaped(s);
    forall b: bytes ensures SoundAt(c, b) {
      assert SoundAt(s.parts, b);
      if s.parts.dec(b).Done? {
        assert ExactParts(s, s.parts.dec(b).value);
      }
    }
  }

  lemma {:induction false} DecAllSound<T>(c: Codec<T>, ok: T -> bool, count: nat, b: bytes)
    requires SoundFor(c, ok) && DecAll(c, count, b).Done?
    ensures var p := DecAll(c, count, b);
      && |p.value| == count && |p.rest| <= |b|
      && (|b| < Pow256(4) || (forall i :: 0 <= i < count ==> ok(p.value[i])) ==> AllFit(c, p.value))
    decreases count
  {
    hide Pow256;
    if count > 0 {
      assert SoundForAt(c, ok, b);
      var first := c.dec(b);
      DecAllSound(c, ok, count - 1, first.rest);
      var xs, rest := DecAll(c, count, b).value, DecAll(c, count - 1, first.rest).value;
      assert xs == [first.value] + rest;
      if forall i :: 0 <= i < count ==> ok(xs[i]) {
        forall i | 0 <= i < count - 1 ensures ok(rest[i]) {
          assert rest[i] == xs[i + 1];
        }
      }
    }
  }

  lemma SoundIsSoundFor<T>(c: Codec<T>, ok: T -> bool)
    requires Sound(c)
    ensures SoundFor(c, ok)
  {
    forall b: bytes ensures SoundForAt(c, ok, b) {
      assert SoundAt(c, b);
    }
  }

  lemma ListSoundFor<T>(c: Codec<T>, min: nat, ok: T -> bool, all: seq<T> -> bool)
    requires min > 0 && SoundFor(c, ok)
    requires forall xs :: all(xs) ==> forall i :: 0 <= i < |xs| ==> ok(xs[i])
    ensures SoundFor(List(c, min), all)
  {
    hide Pow256, DecAll, MaxCount, BigEndian, Value;
    UIntLaws(4);
    var l := List(c, min);
    forall b: bytes ensures SoundForAt(l, all, b) {
      if l.dec(b).Done? {
        Reencode(UInt(4), b);
        var p := UInt(4).dec(b);
        DecAllSound(c, ok, p.value, p.rest);
      }
    }
  }

  lemma ListSound<T>(c: Codec<T>, min: nat)
    requires min > 0 && Sound(c)
    ensures Sound(List(c, min))
  {
    hide Pow256, DecAll, MaxCount, BigEndian, Value;
    SoundIsSoundFor(c, _ => true);
    ListSoundFor(c, min, _ => true, _ => true);
    var l := List(c, min);
    forall b: bytes ensures SoundAt(l, b) {
      assert SoundForAt(l, _ => true, b);
    }
  }

  lemma PairSoundFor<A(!new), B(!new)>(
      a: Codec<A>, okA: A -> bool, b: Codec<B>, okB: B -> bool, ok: ((A, B)) -> bool)
    requires SoundFor(a, okA) && SoundFor(b, okB)
    requires forall v :: ok(v) ==> okA(v.0) && okB(v.1)
    ensures SoundFor(Pair(a, b), ok)
  {
    hide Pow256;
    var c := Pair(a, b);
    forall s: bytes ensures SoundForAt(c, ok, s) {
      assert SoundForAt(a, okA, s);
      if a.dec(s).Done? {
        assert SoundForAt(b, okB, a.dec(s).rest);
      }
    }
  }

  lemma ShapeSoundFor<A(!new), T(!new)>(s: Shape<A, T>, okParts: A -> bool, ok: T -> bool)
    requires Exact(s) && SoundFor(s.parts, okParts) && forall x :: ok(s.wrap(x)) ==> okParts(x)
    ensures SoundFor(Shaped(s), ok)
  {
    hide Pow256;
    var c := Shaped(s);
    forall b: bytes ensures SoundForAt(c, ok, b) {
      assert SoundForAt(s.parts, okParts, b);
      if s.parts.dec(b).Done? {
        assert ExactParts(s, s.parts.dec(b).value);
      }
    }
  }

  // ----- the loops every list codec runs -----

  lemma {:induction false} DecAllSnoc<T>(c: Codec<T>, count: nat, b: bytes)
    ensures DecAll(c, count + 1, b) ==
      match DecAll(c, count, b)
      case Fail(e) => Fail(e)
      case Done(xs, rest) =>
        (match c.dec(rest) case Fail(e) => Fail(e) case Done(x, rest') => Done(xs + [x], rest'))
    decreases count
  {
    if c.dec(b).Done? {
      var x := c.dec(b).value;
      if count == 0 {
        assert [x] + [] == [] + [x];
      } else {
        DecAllSnoc(c, count - 1, c.dec(b).rest);
        var init := DecAll(c, count - 1, c.dec(b).rest);
        if init.Done? && c.dec(init.rest).Done? {
          assert [x] + (init.value + [c.dec(init.rest).value]) == ([x] + init.value) + [c.dec(init.rest).value];
        }
      }
    }
  }

  lemma {:induction false} DecAllStops<T>(c: Codec<T>, count: nat, more: nat, b: bytes)
    requires DecAll(c, count, b).Fail?
    ensures DecAll(c, count + more, b) == DecAll(c, count, b)
  {
    if more > 0 {
      DecAllStops(c, count, more - 1, b);
      DecAllSnoc(c, count + more - 1, b);
    }
  }

  /** Reads `count` elements one after the other into a vector, moving a cursor. */
  method ReadMany<T>(c: Codec<T>, count: nat, b: bytes) returns (r: Parse<seq<T>>)
    ensures r == DecAll(c, count, b)
  {
    var xs, rest := [], b;
    for i := 0 to count
      invariant DecAll(c, i, b) == Done(xs, rest)
    {
      DecAllSnoc(c, i, b);
      var p := c.dec(rest);
      if p.Fail? {
        DecAllStops(c, i + 1, count - i - 1, b);
        return Fail(p.error);
      }
      xs, rest := xs + [p.value], p.rest;
    }
    r := Done(xs, rest);
  }

  lemma {:induction false} EncAllSnoc<T>(c: Codec<T>, xs: seq<T>, x: T)
    ensures EncAll(c, xs + [x]) == EncAll(c, xs) + c.enc(x)
  {
    if xs == [] {
      assert [x][1..] == [];
    } else {
      EncAllSnoc(c, xs[1..], x);
      assert (xs + [x])[1..] == xs[1..] + [x];
    }
  }

  /** Appends the encoding of each element in turn. */
  method WriteMany<T>(c: Codec<T>, xs: seq<T>, buf: bytes) returns (out: bytes)
    ensures out == buf + EncAll(c, xs)
  {
    out := buf;
    for i := 0 to |xs|
      invariant out == buf + EncAll(c, xs[..i])
    {
      EncAllSnoc(c, xs[..i], xs[i]);
      assert xs[..i + 1] == xs[..i] + [xs[i]];
      out := out + c.enc(xs[i]);
    }
    assert xs[..|xs|] == xs;
  }

  /** A count, its guard, and the loop over the elements. */
  method ReadList<T>(c: Codec<T>, min: nat, b: bytes) returns (r: Parse<seq<T>>)
    requires min > 0
    ensures r == List(c, min).dec(b)
  {
    var count := UInt(4).dec(b);
    if count.Fail? {
      return Fail(count.error);
    }
    if count.value > MaxCount(|count.rest|, min) {
      return Fail(LengthTooLarge(count.value));
    }
    r := ReadMany(c, count.value, count.rest);
  }

  /** A count and the loop that appends the elements. */
  method WriteList<T>(c: Codec<T>, min: nat, xs: seq<T>, buf: bytes) returns (out: bytes)
    requires min > 0
    ensures out == buf + List(c, min).enc(xs)
  {
    out := WriteMany(c, xs, buf + BigEndian(|xs|, 4));
  }
}
