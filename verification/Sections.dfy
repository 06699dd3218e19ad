/**
 Trailing optional sections: lists appended to a format over time, each read only
 while bytes remain, so that data written before a section existed still loads.
 */
module Sections {
  import opened Common
  import opened Wire

  /**
   `count` sections written one after the other. `upto(v, k)` are the bytes of the
   first `k` of them, and `cut(v, k)` is the value whose later sections are empty.
   */
  datatype Tail<!T> = Tail(
    enc: T -> bytes, dec: bytes -> Parse<T>, fits: T -> bool,
    count: nat, upto: (T, nat) -> bytes, cut: (T, nat) -> T)

  function End(): Tail<()> {
    Tail(_ => [], b => Done((), b), _ => true, 0, (_, _) => [], (_, _) => ())
  }

  /** A section is read only while bytes remain. */
  function Optional<A>(c: Codec<seq<A>>, b: bytes): Parse<seq<A>> {
    if b == [] then Done([], []) else c.dec(b)
  }

  function Less(k: nat): nat { if k == 0 then 0 else k - 1 }

  function Kept<A>(xs: seq<A>, k: nat): seq<A> { if k == 0 then [] else xs }

  function DecThen<A, T>(c: Codec<seq<A>>, t: Tail<T>, b: bytes): Parse<(seq<A>, T)> {
    var (xs, r1) :- Optional(c, b);
    var (y, r2) :- t.dec(r1);
    Done((xs, y), r2)
  }

  function Then<A, T>(c: Codec<seq<A>>, t: Tail<T>): Tail<(seq<A>, T)> {
    Tail((v: (seq<A>, T)) => c.enc(v.0) + t.enc(v.1),
         b => DecThen(c, t, b),
         (v: (seq<A>, T)) => c.fits(v.0) && t.fits(v.1),
         t.count + 1,
         (v: (seq<A>, T), k: nat) => if k == 0 then [] else c.enc(v.0) + t.upto(v.1, Less(k)),
         (v: (seq<A>, T), k: nat) => (Kept(v.0, k), t.cut(v.1, Less(k))))
  }

  // ----- laws, at one point and for all -----

  ghost predicate WholeAt<T>(t: Tail<T>, v: T) {
    t.enc(v) == t.upto(v, t.count) && t.cut(v, t.count) == v && t.upto(v, 0) == []
  }

  /** The first `k` sections load as the value with the later ones empty. */
  ghost predicate LoadsAt<T>(t: Tail<T>, v: T, k: nat) {
    t.fits(v) && k <= t.count ==> t.dec(t.upto(v, k)) == Done(t.cut(v, k), [])
  }

  ghost predicate IsBoundary<T>(t: Tail<T>, v: T, p: bytes, k: nat) {
    k <= t.count && p == t.upto(v, k)
  }

  /** Only section boundaries load. */
  ghost predicate StopsAt<T>(t: Tail<T>, v: T, p: bytes) {
    t.fits(v) && p <= t.enc(v) && Finish(t.dec(p)).Ok? ==> exists k: nat :: IsBoundary(t, v, p, k)
  }

  /** What loads can be written again. */
  ghost predicate FitsAt<T>(t: Tail<T>, b: bytes) {
    t.dec(b).Done? ==> t.fits(t.dec(b).value)
  }

  /** Sections that are all there are read without looking at what follows. */
  ghost predicate PassesAt<T>(t: Tail<T>, v: T, more: bytes) {
    t.fits(v) ==> t.dec(t.enc(v) + more) == Done(v, more)
  }

  ghost predicate Passes<T(!new)>(t: Tail<T>) { forall v, more :: PassesAt(t, v, more) }
  ghost predicate Whole<T(!new)>(t: Tail<T>) { forall v :: WholeAt(t, v) }
  ghost predicate Loads<T(!new)>(t: Tail<T>) { forall v, k: nat :: LoadsAt(t, v, k) }
  ghost predicate Stops<T(!new)>(t: Tail<T>) { forall v, p :: StopsAt(t, v, p) }

  ghost predicate Fits<T>(t: Tail<T>) { forall b :: FitsAt(t, b) }

  ghost predicate Good<T(!new)>(t: Tail<T>) { Whole(t) && Loads(t) && Stops(t) && Fits(t) && Passes(t) }

  lemma EndIsGood()
    ensures Good(End())
  {
    var t := End();
    forall v: () ensures WholeAt(t, v) { assert v == (); }
    forall v: (), more: bytes ensures PassesAt(t, v, more) {
      assert v == () && [] + more == more;
    }
    forall v: (), p: bytes ensures StopsAt(t, v, p) {
      if p <= t.enc(v) {
        assert p == [] && IsBoundary(t, v, p, 0);
      }
    }
  }

  ghost predicate GoodSection<A(!new)>(c: Codec<seq<A>>) {
    Lawful(c) && AtLeast(c, 1) && Sound(c)
  }

  lemma ThenDec<A, T>(c: Codec<seq<A>>, t: Tail<T>, b: bytes, xs: seq<A>, rest: bytes, y: T)
    requires Optional(c, b) == Done(xs, rest) && t.dec(rest) == Done(y, [])
    ensures Then(c, t).dec(b) == Done((xs, y), [])
  {
  }

  lemma ThenLoads<A(!new), T(!new)>(c: Codec<seq<A>>, t: Tail<T>, v: (seq<A>, T), k: nat)
    requires GoodSection(c) && Good(t)
    ensures LoadsAt(Then(c, t), v, k)
  {
    hide RoundTrips, Extends, AtLeast;
    var s := Then(c, t);
    if s.fits(v) && k <= s.count {
      assert LoadsAt(t, v.1, Less(k));
      CutStep(c, t, v, k);
      if k == 0 {
        assert WholeAt(t, v.1);
        ThenDec(c, t, [], [], [], t.cut(v.1, 0));
      } else {
        var rest := t.upto(v.1, Less(k));
        RoundTrip(c, v.0, rest);
        Size(c, 1, v.0);
        ThenDec(c, t, c.enc(v.0) + rest, v.0, rest, t.cut(v.1, Less(k)));
      }
    }
  }

  lemma ThenStops<A(!new), T(!new)>(c: Codec<seq<A>>, t: Tail<T>, v: (seq<A>, T), p: bytes)
    requires GoodSection(c) && Good(t)
    ensures StopsAt(Then(c, t), v, p)
  {
    var s := Then(c, t);
    if s.fits(v) && p <= s.enc(v) && Finish(s.dec(p)).Ok? {
      if p == [] {
        assert IsBoundary(s, v, p, 0);
      } else if |p| < |c.enc(v.0)| {
        assert p <= c.enc(v.0);
        PrefixFails(c, v.0, p);
        assert false;
      } else {
        var q := p[|c.enc(v.0)|..];
        assert p == c.enc(v.0) + q && q <= t.enc(v.1);
        RoundTrip(c, v.0, q);
        assert StopsAt(t, v.1, q);
        var k: nat :| IsBoundary(t, v.1, q, k);
        assert Less(k + 1) == k;
        assert IsBoundary(s, v, p, k + 1);
      }
    }
  }

  lemma ThenPasses<A(!new), T(!new)>(c: Codec<seq<A>>, t: Tail<T>, v: (seq<A>, T), more: bytes)
    requires GoodSection(c) && Good(t)
    ensures PassesAt(Then(c, t), v, more)
  {
    hide RoundTrips, Extends, AtLeast, Sound, Whole, Loads, Stops, Fits;
    var s := Then(c, t);
    if s.fits(v) {
      var rest := t.enc(v.1) + more;
      assert PassesAt(t, v.1, more);
      RoundTrip(c, v.0, rest);
      Size(c, 1, v.0);
      assert s.enc(v) + more == c.enc(v.0) + rest;
    }
  }

  lemma ThenFits<A(!new), T(!new)>(c: Codec<seq<A>>, t: Tail<T>, b: bytes)
    requires GoodSection(c) && Good(t) && c.fits([])
    ensures FitsAt(Then(c, t), b)
  {
    hide RoundTrips, Extends, AtLeast, Whole, Loads, Stops, Passes;
    assert SoundAt(c, b);
    var first := Optional(c, b);
    if first.Done? {
      assert FitsAt(t, first.rest);
    }
  }

  /** Putting a section in front of good sections is good. */
  lemma ThenIsGood<A(!new), T(!new)>(c: Codec<seq<A>>, t: Tail<T>)
    requires GoodSection(c) && Good(t) && c.fits([])
    ensures Good(Then(c, t))
  {
    var s := Then(c, t);
    forall v: (seq<A>, T) ensures WholeAt(s, v) {
      assert WholeAt(t, v.1) && Less(s.count) == t.count;
      assert s.cut(v, s.count) == (Kept(v.0, s.count), t.cut(v.1, t.count));
      assert s.upto(v, s.count) == c.enc(v.0) + t.upto(v.1, t.count);
    }
    forall v: (seq<A>, T), k: nat ensures LoadsAt(s, v, k) {
      ThenLoads(c, t, v, k);
    }
    forall v: (seq<A>, T), p: bytes ensures StopsAt(s, v, p) {
      ThenStops(c, t, v, p);
    }
    forall b: bytes ensures FitsAt(s, b) {
      ThenFits(c, t, b);
    }
    forall v: (seq<A>, T), more: bytes ensures PassesAt(s, v, more) {
      ThenPasses(c, t, v, more);
    }
  }

  lemma CutStep<A, T>(c: Codec<seq<A>>, t: Tail<T>, v: (seq<A>, T), k: nat)
    ensures Then(c, t).cut(v, k) == (Kept(v.0, k), t.cut(v.1, Less(k)))
  {
  }

  // ----- named rows -----

  /** Sections whose rows have names instead of positions. */
  function Wrapped<A, T>(t: Tail<A>, wrap: A -> T, unwrap: T -> A): Tail<T> {
    Tail(v => t.enc(unwrap(v)),
         b => DecWrapped(t, wrap, b),
         v => t.fits(unwrap(v)),
         t.count,
         (v, k: nat) => t.upto(unwrap(v), k),
         (v, k: nat) => wrap(t.cut(unwrap(v), k)))
  }

  function DecWrapped<A, T>(t: Tail<A>, wrap: A -> T, b: bytes): Parse<T> {
    var (x, rest) :- t.dec(b);
    Done(wrap(x), rest)
  }

  ghost predicate InverseAt<A, T>(wrap: A -> T, unwrap: T -> A, x: A, v: T) {
    unwrap(wrap(x)) == x && wrap(unwrap(v)) == v
  }

  lemma WrappedIsGood<A(!new), T(!new)>(t: Tail<A>, wrap: A -> T, unwrap: T -> A)
    requires Good(t) && forall x, v :: InverseAt(wrap, unwrap, x, v)
    ensures Good(Wrapped(t, wrap, unwrap)) && Wrapped(t, wrap, unwrap).count == t.count
  {
    var s := Wrapped(t, wrap, unwrap);
    forall v: T ensures WholeAt(s, v) {
      assert WholeAt(t, unwrap(v)) && InverseAt(wrap, unwrap, unwrap(v), v);
    }
    forall v: T, k: nat ensures LoadsAt(s, v, k) {
      assert LoadsAt(t, unwrap(v), k);
    }
    forall v: T, p: bytes ensures StopsAt(s, v, p) {
      assert StopsAt(t, unwrap(v), p);
      if s.fits(v) && p <= s.enc(v) && Finish(s.dec(p)).Ok? {
        var k: nat :| IsBoundary(t, unwrap(v), p, k);
        assert IsBoundary(s, v, p, k);
      }
    }
    forall v: T, more: bytes ensures PassesAt(s, v, more) {
      assert PassesAt(t, unwrap(v), more) && InverseAt(wrap, unwrap, unwrap(v), v);
    }
    forall b: bytes ensures FitsAt(s, b) {
      assert FitsAt(t, b);
      if t.dec(b).Done? {
        var x := t.dec(b).value;
        assert InverseAt(wrap, unwrap, x, wrap(x));
      }
    }
  }

  lemma WrappedParts<A, T>(t: Tail<A>, wrap: A -> T, unwrap: T -> A, v: T, k: nat, b: bytes)
    ensures var s := Wrapped(t, wrap, unwrap);
      && s.cut(v, k) == wrap(t.cut(unwrap(v), k)) && (s.fits(v) <==> t.fits(unwrap(v)))
      && s.enc(v) == t.enc(unwrap(v)) && s.dec(b) == DecWrapped(t, wrap, b) && s.count == t.count
  {
  }

  lemma FitsStep<A, T>(c: Codec<seq<A>>, t: Tail<T>, v: (seq<A>, T))
    ensures Then(c, t).fits(v) <==> c.fits(v.0) && t.fits(v.1)
  {
  }

  // ----- a mandatory part in front -----

  /** A front that must be there, and the sections after it. */
  function WithTail<A, T>(c: Codec<A>, t: Tail<T>, b: bytes): Parse<(A, T)> {
    var (x, r1) :- c.dec(b);
    var (y, r2) :- t.dec(r1);
    Done((x, y), r2)
  }

  /** A prefix of an encoding loads exactly when it ends at a boundary from the end of the front on. */
  lemma PrefixesThatLoad<A(!new), T(!new)>(c: Codec<A>, t: Tail<T>, x: A, y: T, p: bytes)
    requires Lawful(c) && Good(t) && c.fits(x) && t.fits(y) && p <= c.enc(x) + t.enc(y)
    ensures Finish(WithTail(c, t, p)).Ok? <==> exists k: nat :: k <= t.count && p == c.enc(x) + t.upto(y, k)
  {
    if Finish(WithTail(c, t, p)).Ok? {
      if |p| < |c.enc(x)| {
        assert p <= c.enc(x);
        PrefixFails(c, x, p);
        assert false;
      }
      var q := p[|c.enc(x)|..];
      assert p == c.enc(x) + q && q <= t.enc(y);
      RoundTrip(c, x, q);
      assert StopsAt(t, y, q);
      var k: nat :| IsBoundary(t, y, q, k);
      assert k <= t.count && p == c.enc(x) + t.upto(y, k);
    }
    if k: nat :| k <= t.count && p == c.enc(x) + t.upto(y, k) {
      BoundaryLoads(c, t, x, y, k);
    }
  }

  /** What a prefix that ends after `k` sections loads as. */
  lemma BoundaryLoads<A(!new), T(!new)>(c: Codec<A>, t: Tail<T>, x: A, y: T, k: nat)
    requires Lawful(c) && Good(t) && c.fits(x) && t.fits(y) && k <= t.count
    ensures Finish(WithTail(c, t, c.enc(x) + t.upto(y, k))) == Ok((x, t.cut(y, k)))
  {
    RoundTrip(c, x, t.upto(y, k));
    assert LoadsAt(t, y, k);
  }

  /** Bytes after a whole encoding are refused. */
  lemma NothingMayFollow<A(!new), T(!new)>(c: Codec<A>, t: Tail<T>, x: A, y: T, more: bytes)
    requires Lawful(c) && Good(t) && c.fits(x) && t.fits(y)
    ensures WithTail(c, t, c.enc(x) + t.enc(y) + more) == Done((x, y), more)
  {
    RoundTrip(c, x, t.enc(y) + more);
    assert PassesAt(t, y, more);
    assert c.enc(x) + t.enc(y) + more == c.enc(x) + (t.enc(y) + more);
  }

  // ----- sections as a list of byte strings -----

  function Join(parts: seq<bytes>): bytes {
    if parts == [] then [] else parts[0] + Join(parts[1..])
  }

  /** The first `k` sections are the first `k` strings. */
  ghost predicate ListedAs<T>(t: Tail<T>, v: T, parts: seq<bytes>) {
    |parts| == t.count && forall k: nat :: k <= t.count ==> t.upto(v, k) == Join(parts[..k])
  }

  lemma EndListed()
    ensures ListedAs(End(), (), [])
  {
  }

  lemma ThenListed<A, T>(c: Codec<seq<A>>, t: Tail<T>, xs: seq<A>, y: T, first: bytes, parts: seq<bytes>)
    requires c.enc(xs) == first && ListedAs(t, y, parts)
    ensures ListedAs(Then(c, t), (xs, y), [first] + parts)
  {
    var s, v, all := Then(c, t), (xs, y), [first] + parts;
    forall k: nat | k <= s.count ensures s.upto(v, k) == Join(all[..k]) {
      if k > 0 {
        assert all[..k][1..] == parts[..k - 1] && Less(k) == k - 1;
      }
    }
  }

  lemma WrappedListed<A, T>(t: Tail<A>, wrap: A -> T, unwrap: T -> A, v: T, parts: seq<bytes>)
    requires ListedAs(t, unwrap(v), parts)
    ensures ListedAs(Wrapped(t, wrap, unwrap), v, parts)
  {
  }

  // ----- reading and writing one section -----

  method ReadSection<A>(c: Codec<A>, b: bytes) returns (r: Parse<seq<A>>)
    ensures r == Optional(List(c, 1), b)
  {
    if b == [] {
      return Done([], []);
    }
    r := ReadList(c, 1, b);
  }

  /** Appends a section; what is still to be written after it is `t.enc(rows)`. */
  method WriteSection<A, T>(c: Codec<A>, xs: seq<A>, buf: bytes, ghost t: Tail<T>, ghost rows: T) returns (out: bytes)
    ensures out + t.enc(rows) == buf + Then(List(c, 1), t).enc((xs, rows))
  {
    out := WriteList(c, 1, xs, buf);
    assert out + t.enc(rows) == buf + (List(c, 1).enc(xs) + t.enc(rows));
  }
}
