/**
 Saving and reloading: `export`, encode, decode, `import` for ratchets and prekey
 pools, and runs in which a reload may happen between any two calls.
 */
module Snapshot {
  import opened Common
  import opened Crypto
  import opened RatchetSpec
  import Safety = RatchetSafety
  import X = X3dh
  import opened Wire
  import P = Packets

  /**
   How the symbolic values of a run are carried in 32-byte strings. Only the
   finitely many values in hand need to be told apart, so nothing is asked of
   any other value.
   */
  datatype Repr = Repr(
    secret: Secret -> bytes, toSecret: bytes -> Secret,
    point: Point -> bytes, toPoint: bytes -> Point,
    key: Key -> bytes, toKey: bytes -> Key,
    data: seq<Point> -> bytes, toData: bytes -> seq<Point>)
  {
    ghost predicate Secrets(s: Secret) { |secret(s)| == 32 && toSecret(secret(s)) == s }
    ghost predicate Points(p: Point) { |point(p)| == 32 && toPoint(point(p)) == p }
    ghost predicate Keys(k: Key) { |key(k)| == 32 && toKey(key(k)) == k }
    ghost predicate Data(ad: seq<Point>) { |data(ad)| < Pow256(4) && toData(data(ad)) == ad }
  }

  function MapOption<A, B>(f: A -> B, x: Option<A>): Option<B> {
    if x.Some? then Some(f(x.value)) else None
  }

  /** The retained keys, read off the map in the order given. */
  function Listed(r: Repr, s: State, order: seq<(Point, nat)>): seq<(bytes, (nat, bytes))>
    requires forall k :: k in order ==> k in s.skipped
  {
    seq(|order|, i requires 0 <= i < |order| =>
      (r.point(order[i].0), (order[i].1, r.key(s.skipped[order[i]]))))
  }

  function Export(r: Repr, s: State, order: seq<(Point, nat)>): P.RatchetState
    requires forall k :: k in order ==> k in s.skipped
  {
    P.RatchetState(r.secret(s.dhs), MapOption(r.point, s.dhr), r.key(s.rk), MapOption(r.key, s.cks),
                   MapOption(r.key, s.ckr), s.ns, s.nr, s.pn, Listed(r, s, order))
  }

  /** Collecting a list of entries into a map. */
  function Collected(r: Repr, entries: seq<(bytes, (nat, bytes))>): map<(Point, nat), Key> {
    if entries == [] then map[]
    else
      var (dh, (n, mk)) := entries[|entries| - 1];
      Collected(r, entries[..|entries| - 1])[(r.toPoint(dh), n) := r.toKey(mk)]
  }

  function Import(r: Repr, p: P.RatchetState): State {
    State(r.toSecret(p.dhs), MapOption(r.toPoint, p.dhr), r.toKey(p.rk), MapOption(r.toKey, p.cks),
          MapOption(r.toKey, p.ckr), p.ns, p.nr, p.pn, Collected(r, p.skipped))
  }

  /** `order` lists the retained keys, each once, in any order. */
  ghost predicate Enumerates(s: State, order: seq<(Point, nat)>) {
    && (forall k :: k in order <==> k in s.skipped)
    && (forall i, j :: 0 <= i < j < |order| ==> order[i] != order[j])
  }

  /** The state's values have representations, and its counters fit their 32 bits. */
  ghost predicate Representable(r: Repr, s: State) {
    && r.Secrets(s.dhs) && r.Keys(s.rk)
    && (s.dhr.Some? ==> r.Points(s.dhr.value)) && (s.cks.Some? ==> r.Keys(s.cks.value)) &&
      (s.ckr.Some? ==> r.Keys(s.ckr.value))
    && (forall k :: k in s.skipped ==> r.Points(k.0) && k.1 < Pow256(4) && r.Keys(s.skipped[k]))
    && s.ns < Pow256(4) && s.nr < Pow256(4) && s.pn < Pow256(4) && |s.skipped| < Pow256(4)
  }

  lemma {:induction false} CollectedLists(r: Repr, s: State, order: seq<(Point, nat)>, k: (Point, nat))
    requires Representable(r, s) && forall q :: q in order ==> q in s.skipped
    ensures k in Collected(r, Listed(r, s, order)) <==> k in order
    ensures k in order ==> Collected(r, Listed(r, s, order))[k] == s.skipped[k]
    decreases |order|
  {
    if order != [] {
      var init, last := order[..|order| - 1], order[|order| - 1];
      CollectedLists(r, s, init, k);
      assert Listed(r, s, order)[..|order| - 1] == Listed(r, s, init);
      assert last in order;
      assert order == init + [last];
    }
  }

  lemma ImportOfExport(r: Repr, s: State, order: seq<(Point, nat)>)
    requires Representable(r, s) && Enumerates(s, order)
    ensures Import(r, Export(r, s, order)) == s
  {
    forall k ensures k in Collected(r, Listed(r, s, order)) <==> k in s.skipped
             ensures k in s.skipped ==> Collected(r, Listed(r, s, order))[k] == s.skipped[k]
    {
      CollectedLists(r, s, order, k);
    }
  }

  lemma {:induction false} EnumerationLength(s: State, order: seq<(Point, nat)>)
    requires Enumerates(s, order)
    ensures |order| == |s.skipped|
  {
    DistinctLength(order);
    assert (set k | k in order) == s.skipped.Keys;
  }

  lemma {:induction false} DistinctLength<T>(order: seq<T>)
    requires forall i, j :: 0 <= i < j < |order| ==> order[i] != order[j]
    ensures |set k | k in order| == |order|
  {
    if order != [] {
      var init, last := order[..|order| - 1], order[|order| - 1];
      DistinctLength(init);
      assert (set k | k in order) == (set k | k in init) + {last};
    }
  }

  /** A session in memory: its ratchet and the associated data it seals and opens with. */
  datatype Live = Live(ratchet: State, ad: seq<Point>)

  function ExportSession(r: Repr, l: Live, order: seq<(Point, nat)>): P.SessionState
    requires forall k :: k in order ==> k in l.ratchet.skipped
  {
    P.SessionState(Export(r, l.ratchet, order), r.data(l.ad))
  }

  function ImportSession(r: Repr, p: P.SessionState): Live { Live(Import(r, p.ratchet), r.toData(p.ad)) }

  /** What comes back from saving a session and loading it, if it loads. */
  function Reloaded(r: Repr, l: Live, order: seq<(Point, nat)>): Option<Live>
    requires forall k :: k in order ==> k in l.ratchet.skipped
  {
    match Finish(P.SessionCodec().dec(P.SessionCodec().enc(ExportSession(r, l, order))))
    case Ok(state) => Some(ImportSession(r, state))
    case Err(_) => None
  }

  lemma ListedFits(r: Repr, s: State, order: seq<(Point, nat)>)
    requires Representable(r, s) && Enumerates(s, order)
    ensures List(P.KeptKey(), 1).fits(Listed(r, s, order))
  {
    hide Pow256, List, P.KeptKey;
    EnumerationLength(s, order);
    var entries := Listed(r, s, order);
    forall i | 0 <= i < |order|
      ensures |entries[i].0| == 32 && entries[i].1.0 < Pow256(4) && |entries[i].1.1| == 32
    {
      assert order[i] in order;
    }
    P.KeptKeysFit(entries);
  }

  lemma ExportFits(r: Repr, s: State, order: seq<(Point, nat)>)
    requires Representable(r, s) && Enumerates(s, order)
    ensures P.RatchetCodec().fits(Export(r, s, order))
  {
    hide Pow256, List, P.KeptKey, P.RatchetCodec, P.Counters, Listed;
    ListedFits(r, s, order);
    P.CountersFit(s.ns, s.nr, s.pn, Listed(r, s, order));
    P.RatchetFits(Export(r, s, order));
  }

  /** The session can be saved: its values have representations, and the ratchet's snapshot fits its frame. */
  ghost predicate CanReload(r: Repr, l: Live, order: seq<(Point, nat)>) {
    && Representable(r, l.ratchet) && Enumerates(l.ratchet, order) && r.Data(l.ad)
    && |P.RatchetCodec().enc(Export(r, l.ratchet, order))| < Pow256(4)
  }

  /**
   Saving a session and loading it back gives exactly the session saved, for every
   order in which the retained keys happen to be enumerated.
   */
  lemma ReloadIsIdentity(r: Repr, l: Live, order: seq<(Point, nat)>)
    requires CanReload(r, l, order)
    ensures Reloaded(r, l, order) == Some(l)
  {
    hide RoundTrips, Extends, Canonical, Pow256, Export, Import, P.SessionCodec, P.RatchetCodec;
    P.SessionLaws();
    ExportFits(r, l.ratchet, order);
    P.SessionFits(ExportSession(r, l, order));
    RoundTrip(P.SessionCodec(), ExportSession(r, l, order), []);
    ImportOfExport(r, l.ratchet, order);
  }

  // ----- runs with reloads -----

  /** A call on the session, or a reload that happens to enumerate the retained keys as `order`. */
  datatype Move =
    | Seal(plaintext: bytes)
    | Open(header: Header, ct: Ciphertext, drawn: Secret)
    | Reload(order: seq<(Point, nat)>)

  /** The ratchet call that a session's call makes with its associated data. */
  function CallOf(ad: seq<Point>, move: Move): Safety.Input
    requires !move.Reload?
  {
    match move
    case Seal(plaintext) => Safety.Send(plaintext, ad)
    case Open(header, ct, drawn) => Safety.Receive(header, ct, ad, drawn)
  }

  /** Every reload of a run happens in a session that can be saved. */
  ghost predicate ReloadsFit(r: Repr, l: Live, moves: seq<Move>)
    decreases |moves|, 0
  {
    moves == [] ||
    var prefix, last := moves[..|moves| - 1], moves[|moves| - 1];
    ReloadsFit(r, l, prefix) && (last.Reload? ==> CanReload(r, RunMoves(r, l, prefix), last.order))
  }

  ghost function RunMoves(r: Repr, l: Live, moves: seq<Move>): Live
    requires ReloadsFit(r, l, moves)
    decreases |moves|, 1
  {
    if moves == [] then l
    else
      var before, last := RunMoves(r, l, moves[..|moves| - 1]), moves[|moves| - 1];
      if last.Reload? then
        ReloadIsIdentity(r, before, last.order);
        Reloaded(r, before, last.order).value
      else before.(ratchet := Safety.After(before.ratchet, CallOf(before.ad, last)))
  }

  /** The ratchet calls of a session that has the associated data `ad` throughout. */
  function Calls(ad: seq<Point>, moves: seq<Move>): seq<Safety.Input> {
    if moves == [] then []
    else
      var last := moves[|moves| - 1];
      Calls(ad, moves[..|moves| - 1]) + if last.Reload? then [] else [CallOf(ad, last)]
  }

  /** Reloads at arbitrary points change no later session, hence no later result of any call. */
  lemma {:induction false} ReloadsChangeNothing(r: Repr, l: Live, moves: seq<Move>)
    requires ReloadsFit(r, l, moves)
    ensures RunMoves(r, l, moves) == Live(Safety.Run(l.ratchet, Calls(l.ad, moves)), l.ad)
    decreases |moves|
  {
    hide Safety.After, CanReload, Reloaded;
    if moves != [] {
      var prefix, last := moves[..|moves| - 1], moves[|moves| - 1];
      ReloadsChangeNothing(r, l, prefix);
      var calls := Calls(l.ad, prefix);
      if last.Reload? {
        assert calls + [] == calls;
        ReloadIsIdentity(r, RunMoves(r, l, prefix), last.order);
      } else {
        assert (calls + [CallOf(l.ad, last)])[..|calls|] == calls;
      }
    }
  }

  /** A session that was reloaded any number of times still has a peer key for its receiving chain. */
  lemma ReloadedRunsAreValid(r: Repr, l: Live, sk: Key, moves: seq<Move>)
    requires Safety.Initial(l.ratchet, sk) && ReloadsFit(r, l, moves)
    ensures RunMoves(r, l, moves).ratchet.Valid()
    ensures |RunMoves(r, l, moves).ratchet.skipped| <= 2 * MAX_SKIP * Safety.Receives(Calls(l.ad, moves))
  {
    hide ReloadsFit, RunMoves, Safety.Initial, Safety.Run;
    ReloadsChangeNothing(r, l, moves);
    Safety.RunRetainsBoundedly(l.ratchet, sk, Calls(l.ad, moves));
  }

  // ----- prekey pools -----

  function ExportPool(r: Repr, pool: X.Pool): P.PreKeyState {
    P.PreKeyState(r.secret(pool.spk), seq(|pool.otps|, i requires 0 <= i < |pool.otps| => r.secret(pool.otps[i])))
  }

  function ImportPool(r: Repr, p: P.PreKeyState): X.Pool {
    X.Pool(r.toSecret(p.spk), seq(|p.otps|, i requires 0 <= i < |p.otps| => r.toSecret(p.otps[i])))
  }

  /** What comes back from saving a pool and loading it, if it loads. */
  function ReloadedPool(r: Repr, pool: X.Pool): Option<X.Pool> {
    match Finish(P.PreKeyCodec().dec(P.PreKeyCodec().enc(ExportPool(r, pool))))
    case Ok(state) => Some(ImportPool(r, state))
    case Err(_) => None
  }

  /** A saved pool loads back unchanged, prekeys in the same order. */
  lemma PoolReloadIsIdentity(r: Repr, pool: X.Pool)
    requires r.Secrets(pool.spk) && (forall o :: o in pool.otps ==> r.Secrets(o)) && |pool.otps| < Pow256(4)
    ensures ReloadedPool(r, pool) == Some(pool)
  {
    hide RoundTrips, Extends, Canonical, Pow256, P.PreKeyCodec;
    P.PreKeyLaws();
    var out := ExportPool(r, pool);
    forall i | 0 <= i < |pool.otps| ensures r.Secrets(pool.otps[i]) {
      assert pool.otps[i] in pool.otps;
    }
    P.PreKeyFits(out);
    RoundTrip(P.PreKeyCodec(), out, []);
    assert ImportPool(r, out).otps == pool.otps;
  }
}
