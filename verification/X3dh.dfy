/**
 X3DH: published prekey bundles, the pool of one-time prekeys, and the two sides
 of the handshake. Signatures are ideal: a signature verifies under a key only
 if it is the one that key's owner made over that very challenge.
 */
module X3dh {
  import opened Common
  import opened Crypto

  const MAX_OTPS := 100

  /** The long-term secrets of one user: a signing key and an agreement key. */
  datatype Identity = Identity(idk: nat, ik: Secret)

  datatype VerifyKey = KeyOf(signer: nat) | NotAKey(id: nat)

  /** What prekey signatures cover, separated by domain. */
  datatype Challenge = SpkChallenge(spk: Point) | OtpChallenge(spk: Point, otp: Point)

  datatype Signature = Signed(signer: nat, challenge: Challenge) | Forged(id: nat)

  datatype Bundle = Bundle(idk: VerifyKey, ik: Point, spk: Point, spkSig: Signature, otps: seq<(Point, Signature)>)

  predicate Verifies(key: VerifyKey, challenge: Challenge, sig: Signature) {
    key.KeyOf? && sig == Signed(key.signer, challenge)
  }

  // ----- bundles -----

  predicate Accepts(b: Bundle) {
    && Verifies(b.idk, SpkChallenge(b.spk), b.spkSig)
    && forall i :: 0 <= i < |b.otps| ==> Verifies(b.idk, OtpChallenge(b.spk, b.otps[i].0), b.otps[i].1)
  }

  /** `PreKeyBundle::verify`, as the loop that stops at the first bad signature. */
  method VerifyBundle(b: Bundle) returns (r: Outcome<()>)
    ensures r == if Accepts(b) then Ok(()) else Err(BadPrekeySignature)
  {
    if b.idk.NotAKey? {
      return Err(BadPrekeySignature);
    }
    if !Verifies(b.idk, SpkChallenge(b.spk), b.spkSig) {
      return Err(BadPrekeySignature);
    }
    for i := 0 to |b.otps|
      invariant forall j :: 0 <= j < i ==> Verifies(b.idk, OtpChallenge(b.spk, b.otps[j].0), b.otps[j].1)
    {
      if !Verifies(b.idk, OtpChallenge(b.spk, b.otps[i].0), b.otps[i].1) {
        return Err(BadPrekeySignature);
      }
    }
    r := Ok(());
  }

  /** The secret halves of one's own published prekeys. */
  datatype Pool = Pool(spk: Secret, otps: seq<Secret>)

  /** `PreKeySecrets::bundle`. */
  function Publish(me: Identity, pool: Pool): Bundle {
    var spk := PublicOf(pool.spk);
    Bundle(KeyOf(me.idk), PublicOf(me.ik), spk, Signed(me.idk, SpkChallenge(spk)),
           seq(|pool.otps|, i requires 0 <= i < |pool.otps| =>
             (PublicOf(pool.otps[i]), Signed(me.idk, OtpChallenge(spk, PublicOf(pool.otps[i]))))))
  }

  /** A published bundle lists every one-time prekey that is held, in order, under the owner's keys. */
  lemma PublishListsAll(me: Identity, pool: Pool)
    ensures var b := Publish(me, pool);
      && b.idk == KeyOf(me.idk) && b.ik == PublicOf(me.ik) && b.spk == PublicOf(pool.spk)
      && |b.otps| == |pool.otps| && forall i :: 0 <= i < |b.otps| ==> b.otps[i].0 == PublicOf(pool.otps[i])
  {
  }

  /** `b` keeps everything of `full` but some of its one-time prekeys, in any order and number. */
  predicate SliceOf(b: Bundle, full: Bundle) {
    b == full.(otps := b.otps) && forall i :: 0 <= i < |b.otps| ==> b.otps[i] in full.otps
  }

  /** A relay may hand out any selection of the one-time prekeys. */
  lemma SlicesVerify(b: Bundle, full: Bundle)
    requires SliceOf(b, full) && Accepts(full)
    ensures Accepts(b)
  {
    forall i | 0 <= i < |b.otps| ensures Verifies(b.idk, OtpChallenge(b.spk, b.otps[i].0), b.otps[i].1) {
      var j :| 0 <= j < |full.otps| && full.otps[j] == b.otps[i];
    }
  }

  lemma PublishedVerify(me: Identity, pool: Pool)
    ensures Accepts(Publish(me, pool))
  {
  }

  /** The signed prekey and the signature over it, as some published bundle has them. */
  ghost predicate SpkOccurs(me: Identity, published: set<Pool>, spk: Point, sig: Signature) {
    exists pool :: pool in published && Publish(me, pool).spk == spk && Publish(me, pool).spkSig == sig
  }

  /** The one-time prekey and its signature, as some published bundle with that signed prekey has them. */
  ghost predicate OtpOccurs(me: Identity, published: set<Pool>, spk: Point, entry: (Point, Signature)) {
    exists pool :: pool in published && Publish(me, pool).spk == spk && entry in Publish(me, pool).otps
  }

  ghost predicate SignatureOf(me: Identity, pool: Pool, sig: Signature) {
    sig == Publish(me, pool).spkSig ||
    exists i :: 0 <= i < |Publish(me, pool).otps| && sig == Publish(me, pool).otps[i].1
  }

  /** Signatures exist only where they were made: a prekey signature of `me` is one that `bundle` put in a bundle. */
  ghost predicate Unforged(me: Identity, published: set<Pool>, sig: Signature) {
    sig.Signed? && sig.signer == me.idk ==> exists pool :: pool in published && SignatureOf(me, pool, sig)
  }

  ghost predicate AllUnforged(me: Identity, published: set<Pool>, b: Bundle) {
    Unforged(me, published, b.spkSig) && forall i :: 0 <= i < |b.otps| ==> Unforged(me, published, b.otps[i].1)
  }

  /** A signature over a signed prekey in a published bundle is the one beside that signed prekey. */
  lemma SpkSignatureOccurs(me: Identity, published: set<Pool>, spk: Point, sig: Signature)
    requires Unforged(me, published, sig) && sig == Signed(me.idk, SpkChallenge(spk))
    ensures SpkOccurs(me, published, spk, sig)
  {
    var pool :| pool in published && SignatureOf(me, pool, sig);
    assert Publish(me, pool).spkSig == sig;
  }

  /** A signature over a one-time prekey in a published bundle is beside that prekey, under the same signed prekey. */
  lemma OtpSignatureOccurs(me: Identity, published: set<Pool>, spk: Point, otp: Point, sig: Signature)
    requires Unforged(me, published, sig) && sig == Signed(me.idk, OtpChallenge(spk, otp))
    ensures OtpOccurs(me, published, spk, (otp, sig))
  {
    var pool :| pool in published && SignatureOf(me, pool, sig);
    var i :| 0 <= i < |Publish(me, pool).otps| && sig == Publish(me, pool).otps[i].1;
    assert Publish(me, pool).otps[i] == (otp, sig);
  }

  /**
   A bundle under the identity's key, however it was put together from signatures that
   exist, is accepted exactly when its signed prekey with the signature over it, and
   every one-time prekey with its signature, occur in published bundles that have that
   same signed prekey.
   */
  lemma AcceptanceIsExact(me: Identity, published: set<Pool>, b: Bundle)
    requires b.idk == KeyOf(me.idk) && AllUnforged(me, published, b)
    ensures Accepts(b) <==>
              SpkOccurs(me, published, b.spk, b.spkSig) &&
              forall i :: 0 <= i < |b.otps| ==> OtpOccurs(me, published, b.spk, b.otps[i])
  {
    if Accepts(b) {
      SpkSignatureOccurs(me, published, b.spk, b.spkSig);
      forall i | 0 <= i < |b.otps| ensures OtpOccurs(me, published, b.spk, b.otps[i]) {
        OtpSignatureOccurs(me, published, b.spk, b.otps[i].0, b.otps[i].1);
      }
    }
    if SpkOccurs(me, published, b.spk, b.spkSig) &&
       forall i :: 0 <= i < |b.otps| ==> OtpOccurs(me, published, b.spk, b.otps[i])
    {
      forall i | 0 <= i < |b.otps| ensures Verifies(b.idk, OtpChallenge(b.spk, b.otps[i].0), b.otps[i].1) {
        PublishedOtpVerifies(me, published, b.spk, b.otps[i]);
      }
    }
  }

  lemma PublishedOtpVerifies(me: Identity, published: set<Pool>, spk: Point, entry: (Point, Signature))
    requires OtpOccurs(me, published, spk, entry)
    ensures Verifies(KeyOf(me.idk), OtpChallenge(spk, entry.0), entry.1)
  {
    var pool :| pool in published && Publish(me, pool).spk == spk && entry in Publish(me, pool).otps;
    var j :| 0 <= j < |Publish(me, pool).otps| && Publish(me, pool).otps[j] == entry;
  }

  /** `b` has the head of one published bundle and, at each position, a one-time prekey entry of another. */
  ghost predicate Spliced(me: Identity, b: Bundle, head: Pool, from: seq<Pool>) {
    && b == Publish(me, head).(otps := b.otps) && |from| == |b.otps|
    && forall i :: 0 <= i < |from| ==> b.otps[i] in Publish(me, from[i]).otps
  }

  /**
   Entries of several bundles, say from before and after a top-up, may be mixed exactly
   if all share one signed prekey.
   */
  lemma SplicesAreExact(me: Identity, b: Bundle, head: Pool, from: seq<Pool>)
    requires Spliced(me, b, head, from)
    ensures Accepts(b) <==> forall i :: 0 <= i < |from| ==> from[i].spk == head.spk
  {
    forall i | 0 <= i < |from|
      ensures Verifies(b.idk, OtpChallenge(b.spk, b.otps[i].0), b.otps[i].1) <==> from[i].spk == head.spk
    {
      var j :| 0 <= j < |Publish(me, from[i]).otps| && Publish(me, from[i]).otps[j] == b.otps[i];
    }
  }

  // ----- the pool -----

  /** The index of the first one-time prekey whose public value is `p`. */
  function Position(otps: seq<Secret>, p: Point): (r: Option<nat>)
    ensures r.Some? ==> r.value < |otps| && PublicOf(otps[r.value]) == p
    ensures r.None? ==> forall i :: 0 <= i < |otps| ==> PublicOf(otps[i]) != p
    ensures r.Some? ==> forall i :: 0 <= i < r.value ==> PublicOf(otps[i]) != p
  {
    if otps == [] then None
    else if PublicOf(otps[0]) == p then Some(0)
    else
      var rest := Position(otps[1..], p);
      if rest.None? then None else Some(rest.value + 1)
  }

  function Take(pool: Pool, p: Point): (Pool, Option<Secret>) {
    var at := Position(pool.otps, p);
    if at.None? then (pool, None)
    else (pool.(otps := pool.otps[..at.value] + pool.otps[at.value + 1..]), Some(pool.otps[at.value]))
  }

  /** Taking a prekey removes that one and leaves the others, in their order. */
  lemma TakeRemovesOne(pool: Pool, p: Point)
    ensures var (left, o) := Take(pool, p);
      && left.spk == pool.spk
      && (o.None? ==> left.otps == pool.otps && forall i :: 0 <= i < |pool.otps| ==> PublicOf(pool.otps[i]) != p)
      && (o.Some? ==>
            && PublicOf(o.value) == p
            && exists at :: 0 <= at <= |left.otps| && pool.otps == left.otps[..at] + [o.value] + left.otps[at..])
  {
    var (left, o) := Take(pool, p);
    if o.Some? {
      var at := Position(pool.otps, p).value;
      assert left.otps[..at] == pool.otps[..at] && left.otps[at..] == pool.otps[at + 1..];
      assert pool.otps == left.otps[..at] + [o.value] + left.otps[at..];
    }
  }

  /** `count` secrets drawn in a row, the first of them `next`. */
  function Drawn(next: nat, count: nat): seq<Secret> {
    seq(count, i requires 0 <= i => next + i)
  }

  function Wanted(have: nat, target: nat): nat {
    var want := if target <= MAX_OTPS then target else MAX_OTPS;
    if have < want then want - have else 0
  }

  function TopUp(pool: Pool, target: nat, next: nat): Pool {
    pool.(otps := pool.otps + Drawn(next, Wanted(|pool.otps|, target)))
  }

  /**
   A top-up keeps what is held and appends prekeys drawn in a row, until there are as many
   as asked for but at most 100; a pool that has that many is left alone.
   */
  lemma TopUpReaches(pool: Pool, target: nat, next: nat)
    ensures var up := TopUp(pool, target, next);
      && up.spk == pool.spk && pool.otps <= up.otps
      && (|pool.otps| >= target || |pool.otps| >= 100 ==> up.otps == pool.otps)
      && (|pool.otps| < target && |pool.otps| < 100 ==> |up.otps| == if target < 100 then target else 100)
      && forall i :: |pool.otps| <= i < |up.otps| ==> up.otps[i] == next + (i - |pool.otps|)
  {
  }

  class PreKeySecrets {
    var spk: Secret
    var otps: seq<Secret>

    function View(): Pool
      reads this
    {
      Pool(spk, otps)
    }

    /** Draws the signed prekey and then the one-time prekeys. */
    constructor Generate(count: nat, next: nat)
      ensures View() == Pool(next, Drawn(next + 1, if count <= MAX_OTPS then count else MAX_OTPS))
    {
      spk := next;
      otps := Drawn(next + 1, if count <= MAX_OTPS then count else MAX_OTPS);
    }

    method TakeOtp(p: Point) returns (r: Option<Secret>)
      modifies this
      ensures (View(), r) == Take(old(View()), p)
    {
      var at := Position(otps, p);
      if at.None? {
        return None;
      }
      r := Some(otps[at.value]);
      otps := otps[..at.value] + otps[at.value + 1..];
    }

    method Replenish(target: nat, next: nat) returns (minted: nat)
      modifies this
      ensures View() == TopUp(old(View()), target, next)
      ensures minted == Wanted(|old(otps)|, target)
    {
      var want := if target <= MAX_OTPS then target else MAX_OTPS;
      minted := 0;
      while |otps| < want
        invariant spk == old(spk) && otps == old(otps) + Drawn(next, minted)
        invariant |otps| <= want || minted == 0
      {
        otps := otps + [next + minted];
        minted := minted + 1;
      }
    }
  }

  // ----- the handshake -----

  /** The shared secret to seed the ratchet and the associated data, initiator first. */
  datatype Handshake = Handshake(sk: Key, ad: seq<Point>)

  function Initiator(me: Identity, b: Bundle, ek: Secret): Outcome<(Handshake, Option<Point>)> {
    if !Accepts(b) then Err(BadPrekeySignature)
    else
      var dh1 :- Agree(me.ik, b.spk);
      var dh2 :- Agree(ek, b.ik);
      var dh3 :- Agree(ek, b.spk);
      var dhs := [dh1, dh2, dh3];
      var ad := [PublicOf(me.ik), b.ik];
      if b.otps == [] then Ok((Handshake(HandshakeKey(dhs), ad), None))
      else
        var dh4 :- Agree(ek, b.otps[0].0);
        Ok((Handshake(HandshakeKey(dhs + [dh4]), ad), Some(b.otps[0].0)))
  }

  /** The pool returned is what is left of it, also when the call fails. */
  function Responder(me: Identity, pool: Pool, ekA: Point, ikA: Point, used: Option<Point>)
    : (Pool, Outcome<Handshake>)
  {
    var dh1 := Agree(pool.spk, ikA);
    if dh1.Err? then (pool, Err(dh1.error))
    else
      var dh2 := Agree(me.ik, ekA);
      if dh2.Err? then (pool, Err(dh2.error))
      else
        var dh3 := Agree(pool.spk, ekA);
        if dh3.Err? then (pool, Err(dh3.error))
        else
          var dhs := [dh1.value, dh2.value, dh3.value];
          var ad := [ikA, PublicOf(me.ik)];
          if used.None? then (pool, Ok(Handshake(HandshakeKey(dhs), ad)))
          else
            var (left, otp) := Take(pool, used.value);
            if otp.None? then (left, Err(UnknownOneTimePrekey))
            else
              var dh4 := Agree(otp.value, ekA);
              if dh4.Err? then (left, Err(dh4.error))
              else (left, Ok(Handshake(HandshakeKey(dhs + [dh4.value]), ad)))
  }
}
