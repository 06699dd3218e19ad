/**
 Sessions: X3DH and the Double Ratchet tied together, from the opening message
 to the two-party runs of `RatchetPair`, and the life of the prekey pool.
 */
module Session {
  import opened Common
  import opened Crypto
  import opened X3dh
  import R = RatchetSpec
  import Pair = RatchetPair
  import Live = Ratchet
  import Snapshot
  import Wire

  /** The first message of a conversation. */
  datatype InitMessage = InitMessage(ikA: Point, ekA: Point, usedOtp: Option<Point>, header: Header, ct: Ciphertext)

  datatype Established = Established(ratchet: R.State, ad: seq<Point>)

  /** `ek` and `ratchet` are the two secrets the call draws. */
  function Initiate(me: Identity, b: Bundle, text: bytes, ek: Secret, ratchet: Secret)
    : Outcome<(Established, InitMessage)>
  {
    var (hs, used) :- Initiator(me, b, ek);
    var s :- R.InitAlice(hs.sk, b.spk, ratchet);
    var e := R.Encrypt(s, text, hs.ad);
    if e.result.Err? then Err(e.result.error)
    else
      Ok((Established(e.state, hs.ad),
          InitMessage(PublicOf(me.ik), PublicOf(ek), used, e.result.value.0, e.result.value.1)))
  }

  /** What `accept` leaves of the pool, and the session with its opening plaintext. */
  function Accepted(me: Identity, pool: Pool, init: InitMessage, drawn: Secret): (Pool, Outcome<(Established, bytes)>) {
    var (left, hs) := Responder(me, pool, init.ekA, init.ikA, init.usedOtp);
    if hs.Err? then (left, Err(hs.error))
    else
      var e := R.Decrypt(R.InitBob(hs.value.sk, pool.spk), init.header, init.ct, hs.value.ad, drawn);
      if e.result.Err? then (left, Err(e.result.error))
      else (left, Ok((Established(e.state, hs.value.ad), e.result.value)))
  }

  /** `Session::accept`, on the live pool and a live ratchet. */
  method Accept(me: Identity, prekeys: PreKeySecrets, init: InitMessage, drawn: Secret)
      returns (r: Outcome<(Established, bytes)>)
    modifies prekeys
    ensures (prekeys.View(), r) == Accepted(me, old(prekeys.View()), init, drawn)
  {
    var spk := prekeys.spk;
    var dh1 := Agree(spk, init.ikA);
    if dh1.Err? { return Err(dh1.error); }
    var dh2 := Agree(me.ik, init.ekA);
    if dh2.Err? { return Err(dh2.error); }
    var dh3 := Agree(spk, init.ekA);
    if dh3.Err? { return Err(dh3.error); }
    var dhs := [dh1.value, dh2.value, dh3.value];
    if init.usedOtp.Some? {
      var otp := prekeys.TakeOtp(init.usedOtp.value);
      if otp.None? { return Err(UnknownOneTimePrekey); }
      var dh4 := Agree(otp.value, init.ekA);
      if dh4.Err? { return Err(dh4.error); }
      dhs := dhs + [dh4.value];
    }
    var ad := [init.ikA, PublicOf(me.ik)];
    var ratchet := new Live.Ratchet.Restore(R.InitBob(HandshakeKey(dhs), spk));
    var opening := ratchet.Decrypt(init.header, init.ct, ad, drawn);
    if opening.Err? { return Err(opening.error); }
    r := Ok((Established(ratchet.View(), ad), opening.value));
  }

  // ----- opening a conversation -----

  /** The responder still holds what the opening message asks for. */
  predicate Holds(pool: Pool, used: Option<Point>) {
    used.Some? ==> Position(pool.otps, used.value).Some?
  }

  lemma SameDh(a: Secret, b: Secret, c: Secret)
    ensures Dh(a, c) == Dh(b, c) <==> a == b
    ensures Dh(a, c) == Dh(c, a)
  {
  }

  /**
   Opening a conversation with any bundle at all: it succeeds exactly if every signature
   checks and no agreement is refused, and a bundle that does not verify is refused as such.
   */
  lemma InitiationIsExact(alice: Identity, b: Bundle, text: bytes, ek: Secret, ratchet: Secret)
    ensures var r := Initiate(alice, b, text, ek, ratchet);
      && (!Accepts(b) ==> r == Err(BadPrekeySignature))
      && (r.Ok? <==>
            && Accepts(b)
            && Agree(alice.ik, b.spk).Ok? && Agree(ek, b.ik).Ok? && Agree(ek, b.spk).Ok?
            && (b.otps != [] ==> Agree(ek, b.otps[0].0).Ok?)
            && Agree(ratchet, b.spk).Ok?)
      && (r.Err? ==> r.error == BadPrekeySignature || r.error == DegenerateAgreement)
      && (r.Ok? ==> r.value.1.usedOtp == if b.otps == [] then None else Some(b.otps[0].0))
  {
  }

  /** Keys that a relay swapped in are not used: what an initiator agrees with was published together. */
  lemma InitiatedKeysWerePublished(
      alice: Identity, bob: Identity, published: set<Pool>, b: Bundle, text: bytes, ek: Secret, ratchet: Secret)
    requires b.idk == KeyOf(bob.idk) && AllUnforged(bob, published, b)
    requires Initiate(alice, b, text, ek, ratchet).Ok?
    ensures var used := Initiate(alice, b, text, ek, ratchet).value.1.usedOtp;
      && SpkOccurs(bob, published, b.spk, b.spkSig)
      && (used.Some? ==> exists sig :: OtpOccurs(bob, published, b.spk, (used.value, sig)))
  {
    hide Initiate, Accepts, AllUnforged, SpkOccurs, OtpOccurs;
    InitiationIsExact(alice, b, text, ek, ratchet);
    AcceptanceIsExact(bob, published, b);
    if b.otps != [] {
      assert OtpOccurs(bob, published, b.spk, (b.otps[0].0, b.otps[0].1));
    }
  }

  /**
   Accepting any opening message at all: an agreement that is refused before the one-time
   prekey is looked up costs none, and a prekey that is not held is answered as unknown.
   */
  lemma AcceptRefuses(me: Identity, pool: Pool, init: InitMessage, drawn: Secret)
    ensures var (left, r) := Accepted(me, pool, init, drawn);
      var refused := Agree(pool.spk, init.ikA).Err? || Agree(me.ik, init.ekA).Err? || Agree(pool.spk, init.ekA).Err?;
      && (refused ==> left == pool && r == Err(DegenerateAgreement))
      && (!refused && init.usedOtp.None? ==> left == pool)
      && (!refused && !Holds(pool, init.usedOtp) ==> left == pool && r == Err(UnknownOneTimePrekey))
      && (!refused && init.usedOtp.Some? && Holds(pool, init.usedOtp) ==> |left.otps| + 1 == |pool.otps|)
  {
    hide R.Decrypt;
  }

  /** What the initiator sends, written out. */
  lemma InitiateSends(alice: Identity, bob: Identity, published: Pool, b: Bundle, text: bytes, ek: Secret,
      ratchet: Secret)
    requires SliceOf(b, Publish(bob, published))
    ensures var r := Initiate(alice, b, text, ek, ratchet);
      && r.Ok?
      && var init := r.value.1;
      && var dhs := [Dh(alice.ik, published.spk), Dh(ek, bob.ik), Dh(ek, published.spk)];
      && init.ikA == PublicOf(alice.ik) && init.ekA == PublicOf(ek)
      && (b.otps == [] ==> init.usedOtp == None)
      && (b.otps != [] ==>
            init.usedOtp == Some(b.otps[0].0) && b.otps[0].0.PublicOf? && b.otps[0].0.secret in published.otps)
      && init.header == Header(PublicOf(ratchet), 0, 0)
      && var sk := HandshakeKey(if init.usedOtp.None? then dhs else dhs + [Dh(ek, init.usedOtp.value.secret)]);
      && r.value.0.ad == [PublicOf(alice.ik), PublicOf(bob.ik)]
      && init.ct == SealUnder(Message(Chain(sk, Dh(ratchet, published.spk))), init.header, text, r.value.0.ad)
      && R.InitAlice(sk, PublicOf(published.spk), ratchet).Ok?
      && r.value.0.ratchet == R.Encrypt(R.InitAlice(sk, PublicOf(published.spk), ratchet).value, text,
        r.value.0.ad).state
  {
    PublishedVerify(bob, published);
    SlicesVerify(b, Publish(bob, published));
    if b.otps != [] {
      var j :| 0 <= j < |Publish(bob, published).otps| && Publish(bob, published).otps[j] == b.otps[0];
    }
  }

  /** The keys the responder derives from an opening message with honest public values. */
  lemma AcceptDerives(me: Identity, pool: Pool, init: InitMessage, drawn: Secret)
    requires init.ikA.PublicOf? && init.ekA.PublicOf? && init.header.dh.PublicOf? && init.header.pn == 0 &&
      init.header.n == 0
    ensures var (left, r) := Accepted(me, pool, init, drawn);
      var dhs := [Dh(pool.spk, init.ikA.secret), Dh(me.ik, init.ekA.secret), Dh(pool.spk, init.ekA.secret)];
      var ad := [init.ikA, PublicOf(me.ik)];
      && left == (if init.usedOtp.Some? then Take(pool, init.usedOtp.value).0 else pool)
      && if Holds(pool, init.usedOtp)
         then
           var sk := HandshakeKey(if init.usedOtp.None? then dhs
                                 else dhs + [Dh(init.usedOtp.value.secret, init.ekA.secret)]);
           var e := R.Decrypt(R.InitBob(sk, pool.spk), init.header, init.ct, ad, drawn);
           && e.result == OpenUnder(Message(Chain(sk, Dh(pool.spk, init.header.dh.secret))), init.header, init.ct, ad)
           && r == if e.result.Err? then Err(e.result.error) else Ok((Established(e.state, ad), e.result.value))
         else r == Err(UnknownOneTimePrekey)
  {
    var dhs := [Dh(pool.spk, init.ikA.secret), Dh(me.ik, init.ekA.secret), Dh(pool.spk, init.ekA.secret)];
    var sk := HandshakeKey(if init.usedOtp.Some? && init.usedOtp.value.PublicOf?
                           then dhs + [Dh(init.usedOtp.value.secret, init.ekA.secret)] else dhs);
    OpeningDecrypt(sk, pool.spk, init.header, init.ct, [init.ikA, PublicOf(me.ik)], drawn);
  }

  /** The first `decrypt` of a responder: one DH step, then message zero of the new chain. */
  lemma OpeningDecrypt(sk: Key, spk: Secret, header: Header, ct: Ciphertext, ad: seq<Point>, drawn: Secret)
    requires header.dh.PublicOf? && header.pn == 0 && header.n == 0
    ensures R.Decrypt(R.InitBob(sk, spk), header, ct, ad, drawn).result
         == OpenUnder(Message(Chain(sk, Dh(spk, header.dh.secret))), header, ct, ad)
  {
    assert forall s: R.State :: R.SkipMany(s, 0) == s;
  }

  /**
   An honest opening message is accepted exactly by the identity it was meant
   for, holding the signed prekey it was made for and the one-time prekey it
   names; the plaintext returned is then the one sent. Accepting spends that
   one-time prekey whatever comes of it.
   */
  lemma OpeningIsExact(alice: Identity, bob: Identity, published: Pool, b: Bundle, text: bytes, ek: Secret,
      ratchet: Secret, me: Identity, pool: Pool, drawn: Secret)
    requires SliceOf(b, Publish(bob, published))
    ensures var r := Initiate(alice, b, text, ek, ratchet);
      r.Ok? &&
      var init := r.value.1;
      var (left, got) := Accepted(me, pool, init, drawn);
      && (got.Ok? <==> me.ik == bob.ik && pool.spk == published.spk && Holds(pool, init.usedOtp))
      && (got.Ok? ==> got.value.1 == text && got.value.0.ad == r.value.0.ad)
      && (!Holds(pool, init.usedOtp) ==> got == Err(UnknownOneTimePrekey) && left == pool)
      && (init.usedOtp.Some? ==> left == Take(pool, init.usedOtp.value).0)
  {
    hide Initiate, Accepted, Publish, R.Decrypt, R.Encrypt;
    InitiateSends(alice, bob, published, b, text, ek, ratchet);
    var init := Initiate(alice, b, text, ek, ratchet).value.1;
    AcceptDerives(me, pool, init, drawn);
    SameDh(alice.ik, published.spk, pool.spk);
    SameDh(pool.spk, published.spk, alice.ik);
    SameDh(me.ik, bob.ik, ek);
    SameDh(pool.spk, published.spk, ratchet);
    SameDh(published.spk, alice.ik, alice.ik);
    SameDh(ek, bob.ik, bob.ik);
    SameDh(ek, published.spk, published.spk);
  }

  /**
   Opening a conversation puts the two ratchets two events into a run of
   `RatchetPair`, so everything proved of those runs holds of the session.
   */
  lemma OpeningStartsARun(alice: Identity, bob: Identity, published: Pool, b: Bundle, text: bytes, ek: Secret,
      ratchet: Secret, pool: Pool, c: Pair.Session)
    returns (worlds: seq<Pair.World>, events: seq<Pair.Event>)
    requires SliceOf(b, Publish(bob, published)) && Initiate(alice, b, text, ek, ratchet).Ok?
    requires pool.spk == published.spk && Holds(pool, Initiate(alice, b, text, ek, ratchet).value.1.usedOtp)
    requires Initiator(alice, b, ek).Ok? && c.sk == Initiator(alice, b, ek).value.0.sk &&
      c.ad == Initiator(alice, b, ek).value.0.ad
    requires c.secrets(0) == published.spk && c.secrets(1) == ratchet
    ensures var (sent, init) := Initiate(alice, b, text, ek, ratchet).value;
      var got := Accepted(bob, pool, init, c.secrets(2)).1;
      && Pair.IsRun(c, worlds, events) && |events| == 2
      && sent == Established(worlds[2].alice, c.ad) && got == Ok((Established(worlds[2].bob, c.ad), text))
  {
    var (sent, init) := Initiate(alice, b, text, ek, ratchet).value;
    InitiateSends(alice, bob, published, b, text, ek, ratchet);
    OpeningIsExact(alice, bob, published, b, text, ek, ratchet, bob, pool, c.secrets(2));
    AcceptDerives(bob, pool, init, c.secrets(2));
    SameDh(alice.ik, published.spk, published.spk);
    SameDh(ek, bob.ik, bob.ik);
    SameDh(ek, published.spk, published.spk);
    if init.usedOtp.Some? {
      SameDh(ek, init.usedOtp.value.secret, init.usedOtp.value.secret);
    }
    hide R.Decrypt;
    var m := Pair.Envelope(1, init.header, init.ct, text);
    events := [Pair.Send(Pair.Alice, text), Pair.Deliver(m)];
    var w0 := Pair.Start(c);
    var w1 := Pair.Next(c, w0, events[0]);
    assert w1.net == {m};
    var w2 := Pair.Next(c, w1, events[1]);
    worlds := [w0, w1, w2];
  }

  // ----- the life of the prekey pool -----

  /** What can happen to a pool during a run of the program, or between two when it is saved and loaded. */
  datatype PoolEvent =
    | Refill(target: nat)
    | Handle(init: InitMessage, drawn: Secret)
    | Spend(otp: Point)
    | Reload(repr: Snapshot.Repr)

  /** The pool, the next unused secret name, and the one-time prekeys taken so far, in order. */
  datatype PoolWorld = PoolWorld(pool: Pool, next: nat, taken: seq<Secret>)

  /** The one-time prekey an event takes out of the pool. */
  function TakenBy(me: Identity, w: PoolWorld, event: PoolEvent): seq<Secret> {
    var asked := match event
      case Refill(_) => None
      case Reload(_) => None
      case Handle(init, drawn) => if Accepted(me, w.pool, init, drawn).0 == w.pool then None else init.usedOtp
      case Spend(otp) => Some(otp);
    if asked.None? then []
    else
      var got := Take(w.pool, asked.value).1;
      if got.None? then [] else [got.value]
  }

  function PoolAfter(me: Identity, pool: Pool, next: nat, event: PoolEvent): Pool {
    match event
    case Refill(target) => TopUp(pool, target, next)
    case Handle(init, drawn) => Accepted(me, pool, init, drawn).0
    case Spend(otp) => Take(pool, otp).0
    case Reload(repr) =>
      var back := Snapshot.ReloadedPool(repr, pool);
      if back.Some? then back.value else pool
  }

  function PoolNext(me: Identity, w: PoolWorld, event: PoolEvent): PoolWorld {
    PoolWorld(PoolAfter(me, w.pool, w.next, event),
              if event.Refill? then w.next + Wanted(|w.pool.otps|, event.target) else w.next,
              w.taken + TakenBy(me, w, event))
  }

  /** A pool as `generate` makes it, and then any events. */
  function PoolRun(me: Identity, count: nat, next: nat, events: seq<PoolEvent>): PoolWorld {
    if events == [] then
      var n := if count <= MAX_OTPS then count else MAX_OTPS;
      PoolWorld(Pool(next, Drawn(next + 1, n)), next + 1 + n, [])
    else PoolNext(me, PoolRun(me, count, next, events[..|events| - 1]), events[|events| - 1])
  }

  /** The prekeys of the pool have 32-byte representations when it is saved. */
  ghost predicate CanReload(repr: Snapshot.Repr, pool: Pool) {
    repr.Secrets(pool.spk) && forall o :: o in pool.otps ==> repr.Secrets(o)
  }

  /** Every reload of a run happens in a pool that can be saved. */
  ghost predicate ReloadsFit(me: Identity, count: nat, next: nat, events: seq<PoolEvent>) {
    forall i :: 0 <= i < |events| && events[i].Reload? ==>
      CanReload(events[i].repr, PoolRun(me, count, next, events[..i]).pool)
  }

  ghost predicate Increasing(s: seq<Secret>) {
    forall i, j :: 0 <= i < j < |s| ==> s[i] < s[j]
  }

  /** Within bounds, in the order drawn, and sharing nothing with what was taken; nothing taken twice. */
  ghost predicate PoolOk(w: PoolWorld) {
    && |w.pool.otps| <= MAX_OTPS
    && Increasing(w.pool.otps)
    && (forall o :: o in w.pool.otps ==> o < w.next)
    && (forall o :: o in w.taken ==> o < w.next && o !in w.pool.otps)
    && (forall i, j :: 0 <= i < j < |w.taken| ==> w.taken[i] != w.taken[j])
  }

  /** `accept` takes the named one-time prekey or leaves the pool alone. */
  lemma AcceptTakes(me: Identity, pool: Pool, init: InitMessage, drawn: Secret)
    ensures var left := Accepted(me, pool, init, drawn).0;
      left == pool || (init.usedOtp.Some? && left == Take(pool, init.usedOtp.value).0)
  {
    hide R.Decrypt;
  }

  lemma RemoveAt(otps: seq<Secret>, at: nat)
    requires at < |otps| && Increasing(otps)
    ensures var left := otps[..at] + otps[at + 1..];
      Increasing(left) && otps[at] !in left && (forall o :: o in left ==> o in otps)
  {
    var left := otps[..at] + otps[at + 1..];
    assert forall i :: 0 <= i < |left| ==> left[i] == otps[if i < at then i else i + 1];
  }

  lemma TakeKeepsPool(w: PoolWorld, p: Point)
    requires PoolOk(w) && Take(w.pool, p).1.Some?
    ensures PoolOk(PoolWorld(Take(w.pool, p).0, w.next, w.taken + [Take(w.pool, p).1.value]))
  {
    var at := Position(w.pool.otps, p).value;
    var o := w.pool.otps[at];
    RemoveAt(w.pool.otps, at);
    hide Increasing;
    assert o in w.pool.otps && o !in w.taken;
    assert forall x :: x in w.taken + [o] <==> x in w.taken || x == o;
  }

  lemma TopUpKeepsPool(w: PoolWorld, target: nat)
    requires PoolOk(w)
    ensures PoolOk(PoolWorld(TopUp(w.pool, target, w.next), w.next + Wanted(|w.pool.otps|, target), w.taken))
  {
    var kept, more := w.pool.otps, Drawn(w.next, Wanted(|w.pool.otps|, target));
    forall o | o in kept + more ensures o < w.next + |more| && o !in w.taken {
      if o !in kept {
        assert o in more;
      }
    }
    assert forall i :: 0 <= i < |kept| ==> kept[i] in kept;
  }

  /** A pool within bounds comes back from the disk as it was. */
  lemma ReloadKeepsPool(me: Identity, w: PoolWorld, event: PoolEvent)
    requires PoolOk(w) && event.Reload? && CanReload(event.repr, w.pool)
    ensures Snapshot.ReloadedPool(event.repr, w.pool) == Some(w.pool)
    ensures PoolNext(me, w, event) == w
  {
    hide Snapshot.ReloadedPool;
    assert Wire.Pow256(4) == 0x1_0000_0000;
    Snapshot.PoolReloadIsIdentity(event.repr, w.pool);
    assert w.taken + [] == w.taken;
  }

  lemma PoolStep(me: Identity, w: PoolWorld, event: PoolEvent)
    requires PoolOk(w) && (event.Reload? ==> CanReload(event.repr, w.pool))
    ensures PoolOk(PoolNext(me, w, event)) && PoolNext(me, w, event).pool.spk == w.pool.spk
  {
    match event
    case Reload(_) => ReloadKeepsPool(me, w, event);
    case Refill(target) => TopUpKeepsPool(w, target);
    case Spend(otp) =>
      if Take(w.pool, otp).1.Some? {
        TakeKeepsPool(w, otp);
      }
    case Handle(init, drawn) =>
      hide Accepted;
      AcceptTakes(me, w.pool, init, drawn);
      if init.usedOtp.Some? && Take(w.pool, init.usedOtp.value).1.Some? {
        TakeKeepsPool(w, init.usedOtp.value);
      }
  }

  /**
   Over any interleaving, reloads included, the pool stays within `MAX_OTPS`, keeps its
   signed prekey and its prekeys in the order they were drawn, and never gives out the
   same one twice.
   */
  lemma {:induction false} PoolRunIsOk(me: Identity, count: nat, next: nat, events: seq<PoolEvent>)
    requires ReloadsFit(me, count, next, events)
    ensures PoolOk(PoolRun(me, count, next, events)) && PoolRun(me, count, next, events).pool.spk == next
  {
    hide PoolNext, CanReload;
    if events != [] {
      var prefix, last := events[..|events| - 1], events[|events| - 1];
      PrefixFits(me, count, next, events, |prefix|);
      PoolRunIsOk(me, count, next, prefix);
      PoolStep(me, PoolRun(me, count, next, prefix), last);
    }
  }

  lemma PrefixFits(me: Identity, count: nat, next: nat, events: seq<PoolEvent>, k: nat)
    requires ReloadsFit(me, count, next, events) && k <= |events|
    ensures ReloadsFit(me, count, next, events[..k])
  {
    forall i | 0 <= i < k && events[i].Reload?
      ensures CanReload(events[i].repr, PoolRun(me, count, next, events[..k][..i]).pool)
    {
      assert events[..k][..i] == events[..i];
    }
  }

  /**
   Conservation: the one-time prekeys drawn since the pool was generated are exactly those
   still held and those taken.
   */
  lemma {:induction false} PrekeysAreConserved(me: Identity, count: nat, next: nat, events: seq<PoolEvent>, o: Secret)
    requires ReloadsFit(me, count, next, events)
    ensures var w := PoolRun(me, count, next, events);
      w.next > next && (o in w.pool.otps || o in w.taken <==> next < o < w.next)
  {
    hide PoolNext, CanReload, PoolOk;
    if events == [] {
      var n := if count <= MAX_OTPS then count else MAX_OTPS;
      if next < o < next + 1 + n {
        assert Drawn(next + 1, n)[o - next - 1] == o;
      }
    } else {
      var prefix, last := events[..|events| - 1], events[|events| - 1];
      PrefixFits(me, count, next, events, |prefix|);
      PrekeysAreConserved(me, count, next, prefix, o);
      PoolRunIsOk(me, count, next, prefix);
      assert events[..|prefix|] == prefix;
      StepConserves(me, PoolRun(me, count, next, prefix), last, o);
    }
  }

  lemma StepConserves(me: Identity, w: PoolWorld, event: PoolEvent, o: Secret)
    requires PoolOk(w) && (event.Reload? ==> CanReload(event.repr, w.pool))
    ensures var v := PoolNext(me, w, event);
      v.next >= w.next &&
      (o in v.pool.otps || o in v.taken <==> o in w.pool.otps || o in w.taken || w.next <= o < v.next)
  {
    match event {
      case Refill(target) =>
        var more := Drawn(w.next, Wanted(|w.pool.otps|, target));
        if w.next <= o < w.next + |more| {
          assert more[o - w.next] == o;
        }
      case Reload(_) => ReloadKeepsPool(me, w, event);
      case Spend(otp) => TakeConserves(w, otp, o);
      case Handle(init, drawn) =>
        hide Accepted;
        AcceptTakes(me, w.pool, init, drawn);
        if init.usedOtp.Some? {
          TakeConserves(w, init.usedOtp.value, o);
        }
    }
  }

  lemma TakeConserves(w: PoolWorld, p: Point, o: Secret)
    ensures var (left, got) := Take(w.pool, p);
      && (got.None? ==> left == w.pool)
      && (got.Some? ==> left != w.pool && (o in w.pool.otps <==> o in left.otps || o == got.value))
  {
    hide Take;
    TakeRemovesOne(w.pool, p);
    var (left, got) := Take(w.pool, p);
    if got.Some? {
      var at :| 0 <= at <= |left.otps| && w.pool.otps == left.otps[..at] + [got.value] + left.otps[at..];
      assert left.otps == left.otps[..at] + left.otps[at..];
      assert |w.pool.otps| == |left.otps| + 1;
    }
  }

  lemma {:induction false} TakenStays(me: Identity, count: nat, next: nat, events: seq<PoolEvent>, k: nat, o: Secret)
    requires k <= |events| && o in PoolRun(me, count, next, events[..k]).taken
    ensures o in PoolRun(me, count, next, events).taken
    decreases |events|
  {
    if k < |events| {
      var prefix := events[..|events| - 1];
      assert prefix[..k] == events[..k];
      TakenStays(me, count, next, prefix, k, o);
    } else {
      assert events[..k] == events;
    }
  }

  /** The pool just before the event at position `i` of a run. */
  function PoolAt(me: Identity, count: nat, next: nat, events: seq<PoolEvent>, i: nat): Pool
    requires i <= |events|
  {
    PoolRun(me, count, next, events[..i]).pool
  }

  /** Bundles published at any points of a run, before and after top-ups and reloads, may be mixed by a relay. */
  lemma BundlesOfOneRunMix(
      me: Identity, count: nat, next: nat, events: seq<PoolEvent>, b: Bundle, head: nat, at: seq<nat>, from: seq<Pool>)
    requires ReloadsFit(me, count, next, events) && head <= |events| && |at| == |from|
    requires forall i :: 0 <= i < |at| ==> at[i] <= |events| && from[i] == PoolAt(me, count, next, events, at[i])
    requires Spliced(me, b, PoolAt(me, count, next, events, head), from)
    ensures Accepts(b)
  {
    hide PoolRun, ReloadsFit, Accepts, Spliced;
    PrefixFits(me, count, next, events, head);
    PoolRunIsOk(me, count, next, events[..head]);
    forall i | 0 <= i < |at| ensures from[i].spk == next {
      PrefixFits(me, count, next, events, at[i]);
      PoolRunIsOk(me, count, next, events[..at[i]]);
    }
    SplicesAreExact(me, b, PoolAt(me, count, next, events, head), from);
  }

  /** An accepted opening message records its one-time prekey as taken. */
  lemma AcceptRecords(me: Identity, w: PoolWorld, init: InitMessage, drawn: Secret)
    requires init.usedOtp.Some? && Accepted(me, w.pool, init, drawn).1.Ok?
    ensures init.usedOtp.value.PublicOf? && init.usedOtp.value.secret in PoolNext(me, w, Handle(init, drawn)).taken
  {
    hide R.Decrypt;
    var (left, got) := Take(w.pool, init.usedOtp.value);
    assert |left.otps| < |w.pool.otps|;
    assert TakenBy(me, w, Handle(init, drawn)) == [got.value];
  }

  /** Of all opening messages that name the same one-time prekey, at most one is ever accepted. */
  lemma OneTimePrekeyAcceptedOnce(me: Identity, count: nat, next: nat, events: seq<PoolEvent>, i: nat, j: nat)
    requires ReloadsFit(me, count, next, events) && i < j < |events| && events[i].Handle? && events[j].Handle?
    requires events[i].init.usedOtp.Some? && events[i].init.usedOtp == events[j].init.usedOtp
    requires Accepted(me, PoolAt(me, count, next, events, i), events[i].init, events[i].drawn).1.Ok?
    ensures Accepted(me, PoolAt(me, count, next, events, j), events[j].init, events[j].drawn).1.Err?
  {
    hide Accepted, TakenBy, ReloadsFit;
    var p := events[i].init.usedOtp.value;
    AcceptRecords(me, PoolRun(me, count, next, events[..i]), events[i].init, events[i].drawn);
    assert events[..i + 1][..i] == events[..i];
    assert events[..j][..i + 1] == events[..i + 1];
    TakenStays(me, count, next, events[..j], i + 1, p.secret);
    PrefixFits(me, count, next, events, j);
    PoolRunIsOk(me, count, next, events[..j]);
    NotHeld(me, PoolAt(me, count, next, events, j), events[j].init, events[j].drawn);
  }

  lemma NotHeld(me: Identity, pool: Pool, init: InitMessage, drawn: Secret)
    requires init.usedOtp.Some? && init.usedOtp.value.PublicOf? && init.usedOtp.value.secret !in pool.otps
    ensures Accepted(me, pool, init, drawn).1.Err?
  {
    hide R.Decrypt;
  }
}
