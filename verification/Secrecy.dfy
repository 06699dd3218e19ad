/**
 What can be computed from a seized ratchet. Diffie-Hellman outputs are computable
 only from one of their two secrets, and a handshake key only from all its agreements.
 Keys used in the past stay out of reach (forward secrecy), and so do keys of chains
 begun after both sides have drawn again (post-compromise security).
 */
module Secrecy {
  import opened Common
  import opened Crypto
  import opened RatchetSpec
  import opened RatchetSafety
  import opened X3dh
  import Pair = RatchetPair

  /**
   Whoever seizes the state, knows the secrets `known` and has computed `keys` can
   compute `k` next: it is held; it is an agreement with a known secret, or with a
   public value that is nobody's; it is derived by `derive_sk`, `kdf_ck` or `kdf_rk`.
   */
  ghost predicate Computes(s: State, known: iset<Secret>, keys: seq<Key>, k: Key) {
    || (exists a :: RatchetSafety.Holds(s, a) == Some(k))
    || match k
       case Seed(_) => false
       case Agreed(a, b) => a in known || b in known
       case AgreedForeign(_, _) => true
       case HandshakeKey(agreements) => forall i :: 0 <= i < |agreements| ==> agreements[i] in keys
       case NextChain(ck) => ck in keys
       case Message(ck) => ck in keys
       case Root(rk, dh) => rk in keys && dh in keys
       case Chain(rk, dh) => rk in keys && dh in keys
  }

  /** A computation from the state and the known secrets, step by step. */
  ghost predicate Derivation(s: State, known: iset<Secret>, keys: seq<Key>) {
    forall i :: 0 <= i < |keys| ==> Computes(s, known, keys[..i], keys[i])
  }

  // ----- forward secrecy -----

  /** What a derivation chain starts from. */
  ghost function Origin(t: Key): Key {
    match t
    case Root(rk, _) => Origin(rk)
    case Chain(rk, _) => Origin(rk)
    case NextChain(ck) => Origin(ck)
    case Message(ck) => Origin(ck)
    case _ => t
  }

  lemma {:induction t} WithinSharesOrigin(k: Key, t: Key)
    requires Within(k, t)
    ensures Origin(k) == Origin(t)
  {
  }

  /** An agreement neither of whose secrets is known. */
  ghost predicate Unknown(known: iset<Secret>, k: Key) {
    k.Agreed? && k.low !in known && k.high !in known
  }

  /** A shared secret that the known secrets do not give away. */
  ghost predicate Hidden(known: iset<Secret>, sk: Key) {
    || sk.Seed?
    || (sk.HandshakeKey? && exists i :: 0 <= i < |sk.agreements| && Unknown(known, sk.agreements[i]))
  }

  ghost predicate AllFrom(s: State, origin: Key) {
    forall a :: RatchetSafety.Holds(s, a).Some? ==> Origin(RatchetSafety.Holds(s, a).value) == origin
  }

  lemma BelowSharesOrigin(s: State, origin: Key, k: Key)
    requires AllFrom(s, origin) && Below(s, k)
    ensures Origin(k) == origin
  {
    var b :| RatchetSafety.Holds(s, b).Some? && Within(RatchetSafety.Holds(s, b).value, k);
    WithinSharesOrigin(RatchetSafety.Holds(s, b).value, k);
  }

  lemma {:induction false} RunSharesOrigin(s: State, sk: Key, inputs: seq<Input>)
    requires Initial(s, sk)
    ensures AllFrom(Run(s, inputs), Origin(sk))
  {
    if inputs != [] {
      var prefix, last := inputs[..|inputs| - 1], inputs[|inputs| - 1];
      var before := Run(s, prefix);
      RunSharesOrigin(s, sk, prefix);
      StepIsSafe(before, last);
      forall a | RatchetSafety.Holds(After(before, last), a).Some?
        ensures Origin(RatchetSafety.Holds(After(before, last), a).value) == Origin(sk)
      {
        BelowSharesOrigin(before, Origin(sk), RatchetSafety.Holds(After(before, last), a).value);
      }
    }
  }

  /** An agreement with two unknown secrets is never computed. */
  lemma UnknownStaysUnknown(s: State, known: iset<Secret>, sk: Key, keys: seq<Key>, d: Key)
    requires Derivation(s, known, keys) && AllFrom(s, sk) && !sk.Agreed? && Unknown(known, d)
    ensures d !in keys
  {
    if i :| 0 <= i < |keys| && keys[i] == d {
      assert Computes(s, known, keys[..i], keys[i]);
      assert Origin(d) == d;
    }
  }

  /** The agreement `d` went into the derivation of `t`. */
  ghost predicate Passes(t: Key, d: Key) {
    match t
    case Root(rk, dh) => dh == d || Passes(rk, d)
    case Chain(rk, dh) => dh == d || Passes(rk, d)
    case NextChain(ck) => Passes(ck, d)
    case Message(ck) => Passes(ck, d)
    case _ => false
  }

  /** Every agreement that went into `k` can be computed. */
  ghost predicate TurnsExposed(known: iset<Secret>, k: Key) {
    forall d :: Passes(k, d) ==> !Unknown(known, d)
  }

  /**
   Whatever is computed comes from a held key, or does not start at the shared secret,
   or else the shared secret and every agreement on the way to it are exposed.
   */
  lemma {:induction false} DerivedKeys(s: State, known: iset<Secret>, sk: Key, keys: seq<Key>, i: nat)
    requires Derivation(s, known, keys) && AllFrom(s, sk) && (sk.Seed? || sk.HandshakeKey?) && i < |keys|
    ensures Below(s, keys[i]) || Origin(keys[i]) != sk || (!Hidden(known, sk) && TurnsExposed(known, keys[i]))
  {
    var k := keys[i];
    assert Computes(s, known, keys[..i], k);
    if a :| RatchetSafety.Holds(s, a) == Some(k) {
      assert Within(k, k);
    } else if k.HandshakeKey? && k == sk {
      forall j | 0 <= j < |sk.agreements| ensures !Unknown(known, sk.agreements[j]) {
        if Unknown(known, sk.agreements[j]) {
          UnknownStaysUnknown(s, known, sk, keys, sk.agreements[j]);
        }
      }
    } else if k.NextChain? || k.Message? || k.Root? || k.Chain? {
      var parent := if k.NextChain? || k.Message? then k.ck else k.rk;
      var j :| 0 <= j < i && keys[j] == parent;
      DerivedKeys(s, known, sk, keys, j);
      if Below(s, parent) {
        var b :| RatchetSafety.Holds(s, b).Some? && Within(RatchetSafety.Holds(s, b).value, parent);
        assert Within(RatchetSafety.Holds(s, b).value, k);
      } else if (k.Root? || k.Chain?) && Unknown(known, k.dh) {
        UnknownStaysUnknown(s, known, sk, keys, k.dh);
      }
    }
  }

  /**
   Forward secrecy. After any run, no message key the run has used can be computed from
   the whole current state (root key, both chain keys and every retained key), as long as
   the shared secret was not given away: it is a seed, or one of its agreements is between
   two unknown secrets. Any other secrets may be known, the current key pair among them.
   */
  lemma UsedKeysCannotBeRecovered(
      s: State, sk: Key, inputs: seq<Input>, i: nat, known: iset<Secret>, keys: seq<Key>)
    requires Initial(s, sk) && Hidden(known, sk)
    requires i < |inputs| && KeyAt(s, inputs, i).Some?
    requires Derivation(Run(s, inputs), known, keys)
    ensures KeyAt(s, inputs, i).value !in keys
  {
    hide Derivation, Initial, TurnsExposed;
    UsedKeyIsGone(s, sk, inputs, i);
    forall j | 0 <= j < |keys| ensures keys[j] != KeyAt(s, inputs, i).value {
      DerivedKeys(Run(s, inputs), known, sk, keys, j);
    }
  }

  /** A used key starts at the shared secret, and no held key leads to it. */
  lemma UsedKeyIsGone(s: State, sk: Key, inputs: seq<Input>, i: nat)
    requires Initial(s, sk) && (sk.Seed? || sk.HandshakeKey?) && i < |inputs| && KeyAt(s, inputs, i).Some?
    ensures var u := KeyAt(s, inputs, i).value;
      AllFrom(Run(s, inputs), sk) && Origin(u) == sk && !Below(Run(s, inputs), u)
  {
    hide Initial;
    var u := KeyAt(s, inputs, i).value;
    RunInvariant(s, sk, inputs);
    RunSharesOrigin(s, sk, inputs);
    RunSharesOrigin(s, sk, inputs[..i]);
    StepIsSafe(Run(s, inputs[..i]), inputs[i]);
    BelowSharesOrigin(Run(s, inputs[..i]), sk, u);
  }

  // ----- when a used key can be computed -----

  ghost predicate IsAgreed(d: Key) { d.Agreed? || d.AgreedForeign? }

  /** A seed, or what `derive_sk` makes of agreements. */
  ghost predicate SharedSecret(sk: Key) {
    sk.Seed? || (sk.HandshakeKey? && forall i :: 0 <= i < |sk.agreements| ==> IsAgreed(sk.agreements[i]))
  }

  /** `k` was made from the shared secret by key derivation, with nothing but agreements mixed in. */
  ghost predicate Made(k: Key, sk: Key) {
    k == sk ||
    match k
    case Root(rk, dh) => IsAgreed(dh) && Made(rk, sk)
    case Chain(rk, dh) => IsAgreed(dh) && Made(rk, sk)
    case NextChain(ck) => Made(ck, sk)
    case Message(ck) => Made(ck, sk)
    case _ => false
  }

  ghost predicate AllMade(s: State, sk: Key) {
    forall a :: RatchetSafety.Holds(s, a).Some? ==> Made(RatchetSafety.Holds(s, a).value, sk)
  }

  lemma SkipOneKeepsMade(s: State, sk: Key)
    requires AllMade(s, sk)
    ensures AllMade(SkipOne(s), sk)
  {
    var t := SkipOne(s);
    if s.ckr.Some? && s.dhr.Some? {
      assert RatchetSafety.Holds(s, ReceiveSlot) == s.ckr;
      var kept := KeptSlot(s.dhr.value, s.nr);
      forall a | RatchetSafety.Holds(t, a).Some? ensures Made(RatchetSafety.Holds(t, a).value, sk) {
        if a != kept && a != ReceiveSlot {
          assert RatchetSafety.Holds(t, a) == RatchetSafety.Holds(s, a);
        }
      }
    }
  }

  lemma {:induction false} SkipManyKeepsMade(s: State, sk: Key, count: nat)
    requires AllMade(s, sk)
    ensures AllMade(SkipMany(s, count), sk)
  {
    hide AllMade, SkipOne;
    if count > 0 {
      SkipManyKeepsMade(s, sk, count - 1);
      SkipOneKeepsMade(SkipMany(s, count - 1), sk);
    }
  }

  lemma SkipKeepsMade(s: State, sk: Key, until: nat)
    requires AllMade(s, sk)
    ensures AllMade(SkipMessageKeys(s, until).state, sk)
  {
    hide AllMade;
    SkipManyKeepsMade(s, sk, if s.nr < until then until - s.nr else 0);
  }

  /** Slots of `t` hold made keys, or what they held in `s`. */
  lemma SlotsKeepMade(s: State, t: State, sk: Key)
    requires AllMade(s, sk) && Made(t.rk, sk) && t.skipped == s.skipped
    requires t.cks.Some? ==> Made(t.cks.value, sk)
    requires t.ckr.Some? ==> Made(t.ckr.value, sk)
    ensures AllMade(t, sk)
  {
    forall a | RatchetSafety.Holds(t, a).Some? ensures Made(RatchetSafety.Holds(t, a).value, sk) {
      if a.KeptSlot? {
        assert RatchetSafety.Holds(t, a) == RatchetSafety.Holds(s, a);
      }
    }
  }

  lemma DhRatchetKeepsMade(s: State, sk: Key, header: Header, drawn: Secret)
    requires AllMade(s, sk)
    ensures AllMade(DhRatchet(s, header, drawn).state, sk)
  {
    assert RatchetSafety.Holds(s, RootSlot) == Some(s.rk) && RatchetSafety.Holds(s, SendSlot) == s.cks;
    assert RatchetSafety.Holds(s, ReceiveSlot) == s.ckr;
    SlotsKeepMade(s, DhRatchet(s, header, drawn).state, sk);
  }

  lemma InChainKeepsMade(s: State, sk: Key, header: Header, ct: Ciphertext, ad: seq<Point>)
    requires AllMade(s, sk)
    ensures var e := DecryptInChain(s, header, ct, ad);
      AllMade(e.state, sk) && (e.used.Some? ==> Made(e.used.value, sk))
  {
    hide SkipMessageKeys;
    SkipKeepsMade(s, sk, header.n);
    var t := SkipMessageKeys(s, header.n).state;
    assert RatchetSafety.Holds(t, RootSlot) == Some(t.rk) && RatchetSafety.Holds(t, SendSlot) == t.cks;
    assert RatchetSafety.Holds(t, ReceiveSlot) == t.ckr;
    SlotsKeepMade(t, DecryptInChain(s, header, ct, ad).state, sk);
  }

  lemma DecryptKeepsMade(s: State, sk: Key, header: Header, ct: Ciphertext, ad: seq<Point>, drawn: Secret)
    requires AllMade(s, sk)
    ensures var e := Decrypt(s, header, ct, ad, drawn);
      AllMade(e.state, sk) && (e.used.Some? ==> Made(e.used.value, sk))
  {
    hide SkipMessageKeys, DhRatchet, DecryptInChain;
    var slot := (header.dh, header.n);
    if slot in s.skipped {
      assert RatchetSafety.Holds(s, KeptSlot(slot.0, slot.1)) == Some(s.skipped[slot]);
      var t := s.(skipped := s.skipped - {slot});
      forall a | RatchetSafety.Holds(t, a).Some? ensures Made(RatchetSafety.Holds(t, a).value, sk) {
        assert RatchetSafety.Holds(t, a) == RatchetSafety.Holds(s, a);
      }
    } else if s.dhr == Some(header.dh) {
      InChainKeepsMade(s, sk, header, ct, ad);
    } else {
      hide AllMade;
      SkipKeepsMade(s, sk, header.pn);
      var skip := SkipMessageKeys(s, header.pn).state;
      DhRatchetKeepsMade(skip, sk, header, drawn);
      InChainKeepsMade(DhRatchet(skip, header, drawn).state, sk, header, ct, ad);
    }
  }

  lemma StepKeepsMade(s: State, sk: Key, input: Input)
    requires AllMade(s, sk)
    ensures AllMade(After(s, input), sk) && (KeyUsed(s, input).Some? ==> Made(KeyUsed(s, input).value, sk))
  {
    match input {
      case Send(plaintext, ad) =>
        assert RatchetSafety.Holds(s, RootSlot) == Some(s.rk) && RatchetSafety.Holds(s, SendSlot) == s.cks;
        assert RatchetSafety.Holds(s, ReceiveSlot) == s.ckr;
        SlotsKeepMade(s, After(s, input), sk);
      case Receive(header, ct, ad, drawn) =>
        hide Decrypt;
        DecryptKeepsMade(s, sk, header, ct, ad, drawn);
    }
  }

  lemma InitialIsMade(s: State, sk: Key)
    requires Initial(s, sk)
    ensures AllMade(s, sk)
  {
    if s.cks.Some? {
      var theirs, drawn :| InitAlice(sk, theirs, drawn) == Ok(s);
      assert Agree(drawn, theirs).Ok?;
    }
  }

  lemma {:induction false} RunIsMade(s: State, sk: Key, inputs: seq<Input>)
    requires Initial(s, sk)
    ensures AllMade(Run(s, inputs), sk)
  {
    hide After, Initial, AllMade;
    if inputs == [] {
      InitialIsMade(s, sk);
    } else {
      RunIsMade(s, sk, inputs[..|inputs| - 1]);
      StepKeepsMade(Run(s, inputs[..|inputs| - 1]), sk, inputs[|inputs| - 1]);
    }
  }

  /** The steps that lead from the agreements of a handshake to a key made from it. */
  ghost function Recipe(k: Key, sk: Key): seq<Key>
    requires Made(k, sk) && sk.HandshakeKey?
  {
    if k == sk then sk.agreements + [sk]
    else match k
      case Root(rk, dh) => Recipe(rk, sk) + [dh] + [k]
      case Chain(rk, dh) => Recipe(rk, sk) + [dh] + [k]
      case NextChain(ck) => Recipe(ck, sk) + [k]
      case Message(ck) => Recipe(ck, sk) + [k]
  }

  lemma OneMore(s: State, known: iset<Secret>, keys: seq<Key>, k: Key)
    requires Derivation(s, known, keys) && Computes(s, known, keys, k)
    ensures Derivation(s, known, keys + [k])
  {
    hide Computes;
    var more := keys + [k];
    forall i | 0 <= i < |more| ensures Computes(s, known, more[..i], more[i]) {
      if i < |keys| {
        assert more[..i] == keys[..i] && more[i] == keys[i];
      } else {
        assert more[..i] == keys;
      }
    }
  }

  lemma {:induction false} RecipeDerives(s: State, known: iset<Secret>, k: Key, sk: Key)
    requires SharedSecret(sk) && !Hidden(known, sk) && Made(k, sk) && TurnsExposed(known, k)
    ensures Derivation(s, known, Recipe(k, sk)) && k in Recipe(k, sk)
    decreases k
  {
    if k == sk {
      ExposedHandshakeIsComputed(s, known, sk);
    } else {
      var parent := if k.NextChain? || k.Message? then k.ck else k.rk;
      assert forall d :: Passes(parent, d) ==> Passes(k, d);
      RecipeDerives(s, known, parent, sk);
      var keys := Recipe(parent, sk);
      if k.Root? || k.Chain? {
        assert Passes(k, k.dh);
        OneMore(s, known, keys, k.dh);
        keys := keys + [k.dh];
      }
      OneMore(s, known, keys, k);
    }
  }

  /** A handshake key all of whose agreements are exposed is computed, from any state. */
  lemma ExposedHandshakeIsComputed(s: State, known: iset<Secret>, sk: Key)
    requires sk.HandshakeKey? && !Hidden(known, sk) && SharedSecret(sk)
    ensures Derivation(s, known, sk.agreements + [sk])
  {
    var keys := sk.agreements + [sk];
    forall i | 0 <= i < |keys| ensures Computes(s, known, keys[..i], keys[i]) {
      if i < |sk.agreements| {
        assert keys[i] == sk.agreements[i];
        assert !Unknown(known, sk.agreements[i]);
      } else {
        assert keys[..i] == sk.agreements;
      }
    }
  }

  /**
   After any run, a key that was used can be computed from the final state exactly when
   the shared secret is exposed and so is every agreement that went into the key.
   */
  lemma RecoveryIsExact(s: State, sk: Key, inputs: seq<Input>, i: nat, known: iset<Secret>)
    requires Initial(s, sk) && SharedSecret(sk) && i < |inputs| && KeyAt(s, inputs, i).Some?
    ensures var u := KeyAt(s, inputs, i).value;
      (exists keys :: Derivation(Run(s, inputs), known, keys) && u in keys) <==>
        !Hidden(known, sk) && TurnsExposed(known, u)
  {
    hide Derivation, Initial, TurnsExposed, Hidden, Run, KeyUsed;
    var u := KeyAt(s, inputs, i).value;
    UsedKeyIsGone(s, sk, inputs, i);
    if keys :| Derivation(Run(s, inputs), known, keys) && u in keys {
      var j :| 0 <= j < |keys| && keys[j] == u;
      DerivedKeys(Run(s, inputs), known, sk, keys, j);
    }
    if !Hidden(known, sk) && TurnsExposed(known, u) {
      RunIsMade(s, sk, inputs[..i]);
      StepKeepsMade(Run(s, inputs[..i]), sk, inputs[i]);
      RecipeDerives(Run(s, inputs), known, u, sk);
    }
  }

  /**
   For a handshake with a published bundle: its key stays hidden exactly when the
   ephemeral secret is unknown together with one of the responder's secrets used, or the
   initiator's identity secret together with the signed prekey.
   */
  lemma HandshakeIsHidden(alice: Identity, bob: Identity, pool: Pool, b: Bundle, ek: Secret, known: iset<Secret>)
    requires SliceOf(b, Publish(bob, pool))
    ensures var r := Initiator(alice, b, ek);
      r.Ok? &&
      (Hidden(known, r.value.0.sk) <==>
         || (alice.ik !in known && pool.spk !in known)
         || (ek !in known && (bob.ik !in known || pool.spk !in known ||
              (b.otps != [] && b.otps[0].0.PublicOf? && b.otps[0].0.secret !in known))))
  {
    PublishedVerify(bob, pool);
    SlicesVerify(b, Publish(bob, pool));
    if b.otps != [] {
      var j :| 0 <= j < |Publish(bob, pool).otps| && Publish(bob, pool).otps[j] == b.otps[0];
    }
    var ds := Initiator(alice, b, ek).value.0.sk.agreements;
    assert ds[0] == Dh(alice.ik, pool.spk) && ds[1] == Dh(ek, bob.ik) && ds[2] == Dh(ek, pool.spk);
    assert Unknown(known, ds[0]) <==> alice.ik !in known && pool.spk !in known;
    assert Unknown(known, ds[1]) <==> ek !in known && bob.ik !in known;
    assert Unknown(known, ds[2]) <==> ek !in known && pool.spk !in known;
    if b.otps != [] {
      assert ds[3] == Dh(ek, b.otps[0].0.secret);
      assert Unknown(known, ds[3]) <==> ek !in known && b.otps[0].0.secret !in known;
    }
  }

  // ----- post-compromise security -----

  /** Nothing held is the agreement `d` or was derived with it. */
  ghost predicate Untouched(s: State, d: Key) {
    forall a :: RatchetSafety.Holds(s, a).Some? ==>
      RatchetSafety.Holds(s, a).value != d && !Passes(RatchetSafety.Holds(s, a).value, d)
  }

  lemma {:induction false} StaysUntouched(s: State, known: iset<Secret>, keys: seq<Key>, d: Key, i: nat)
    requires Derivation(s, known, keys) && Untouched(s, d) && Unknown(known, d) && i < |keys|
    ensures keys[i] != d && !Passes(keys[i], d)
  {
    var k := keys[i];
    assert Computes(s, known, keys[..i], k);
    if !(exists a :: RatchetSafety.Holds(s, a) == Some(k)) && (k.NextChain? || k.Message? || k.Root? || k.Chain?) {
      var parent := if k.NextChain? || k.Message? then k.ck else k.rk;
      var j :| 0 <= j < i && keys[j] == parent;
      StaysUntouched(s, known, keys, d, j);
      if k.Root? || k.Chain? {
        var l :| 0 <= l < i && keys[l] == k.dh;
        StaysUntouched(s, known, keys, d, l);
      }
    }
  }

  /** The agreement that opens chain `e`. */
  ghost function Turn(c: Pair.Session, e: nat): Key
    requires e > 0
  {
    Dh(c.secrets(e - 1), c.secrets(e))
  }

  lemma TurnsDiffer(c: Pair.Session, i: nat, e: nat)
    requires Pair.DrawsAreDistinct(c) && 0 < i < e
    ensures Turn(c, i) != Turn(c, e)
  {
    assert Pair.Differ(i - 1, e) && Pair.Differ(i, e);
  }

  lemma {:induction false} OldRootsAreUntouched(c: Pair.Session, i: nat, e: nat)
    requires Pair.DrawsAreDistinct(c) && i < e && (c.sk.Seed? || c.sk.HandshakeKey?)
    ensures !Passes(Pair.RootKey(c, i), Turn(c, e)) && Pair.RootKey(c, i) != Turn(c, e)
  {
    hide Turn, Pair.DrawsAreDistinct;
    if i > 0 {
      OldRootsAreUntouched(c, i - 1, e);
      TurnsDiffer(c, i, e);
      assert Pair.RootKey(c, i) == Root(Pair.RootKey(c, i - 1), Turn(c, i)) by { TurnIs(c, i); }
    }
    IsAgreement(c, e);
  }

  lemma TurnIs(c: Pair.Session, e: nat)
    requires e > 0
    ensures Turn(c, e) == Dh(c.secrets(e - 1), c.secrets(e))
    ensures Pair.RootKey(c, e) == Root(Pair.RootKey(c, e - 1), Turn(c, e))
    ensures Pair.ChainKey(c, e) == Chain(Pair.RootKey(c, e - 1), Turn(c, e))
  {
  }

  lemma IsAgreement(c: Pair.Session, e: nat)
    requires e > 0
    ensures Turn(c, e).Agreed?
  {
  }

  lemma OldChainsAreUntouched(c: Pair.Session, j: nat, n: nat, e: nat)
    requires Pair.DrawsAreDistinct(c) && 0 < j < e && (c.sk.Seed? || c.sk.HandshakeKey?)
    ensures !Passes(Advance(Pair.ChainKey(c, j), n), Turn(c, e)) && !Advance(Pair.ChainKey(c, j), n).Agreed?
    decreases n
  {
    hide Turn, Pair.DrawsAreDistinct;
    if n == 0 {
      OldRootsAreUntouched(c, j - 1, e);
      TurnsDiffer(c, j, e);
      TurnIs(c, j);
    } else {
      OldChainsAreUntouched(c, j, n - 1, e);
    }
  }

  /** A side at epoch `e` holds nothing that the agreement of chain `e + 2` went into. */
  lemma EndIsUntouched(c: Pair.Session, s: State, e: nat, texts: Pair.Texts, done: set<(nat, nat)>)
    requires Pair.DrawsAreDistinct(c) && (c.sk.Seed? || c.sk.HandshakeKey?) && Pair.EndOk(c, s, e, texts, done)
    ensures Untouched(s, Turn(c, e + 2))
  {
    var d := Turn(c, e + 2);
    IsAgreement(c, e + 2);
    forall a | RatchetSafety.Holds(s, a).Some?
      ensures RatchetSafety.Holds(s, a).value != d && !Passes(RatchetSafety.Holds(s, a).value, d)
    {
      hide Turn, Pair.DrawsAreDistinct;
      match a {
        case RootSlot => OldRootsAreUntouched(c, e, e + 2);
        case SendSlot => OldChainsAreUntouched(c, e, s.ns, e + 2);
        case ReceiveSlot => OldChainsAreUntouched(c, e - 1, s.nr, e + 2);
        case KeptSlot(dh, n) =>
          var j: nat :| dh == PublicOf(c.secrets(j));
          assert Pair.Row(c, s, e, texts, done, j, n);
          OldChainsAreUntouched(c, j, n, e + 2);
      }
    }
  }

  lemma {:induction false} LaterRootsPass(c: Pair.Session, i: nat, e: nat)
    requires 0 < e <= i
    ensures Passes(Pair.RootKey(c, i), Turn(c, e))
  {
    hide Turn;
    TurnIs(c, i);
    if i > e {
      LaterRootsPass(c, i - 1, e);
    }
  }

  lemma {:induction false} LaterMessagesPass(c: Pair.Session, j: nat, n: nat, e: nat)
    requires 0 < e <= j
    ensures Passes(Advance(Pair.ChainKey(c, j), n), Turn(c, e))
    decreases n
  {
    hide Turn;
    if n > 0 {
      LaterMessagesPass(c, j, n - 1, e);
    } else {
      TurnIs(c, j);
      if j > e {
        LaterRootsPass(c, j - 1, e);
      }
    }
  }

  /**
   Post-compromise security. From the whole state of one side at epoch `e`, at any point
   of any run, and any secrets but those of the next two key pairs, no message key of
   chain `e + 2` or a later one can be computed.
   */
  lemma LaterChainsHeal(c: Pair.Session, worlds: seq<Pair.World>, events: seq<Pair.Event>, k: nat, p: Pair.Party,
      known: iset<Secret>, keys: seq<Key>, j: nat, n: nat)
    requires Pair.DrawsAreDistinct(c) && (c.sk.Seed? || c.sk.HandshakeKey?)
    requires Pair.IsRun(c, worlds, events) && k < |worlds|
    requires var e := worlds[k].Epoch(p); e + 2 <= j && c.secrets(e + 1) !in known && c.secrets(e + 2) !in known
    requires Derivation(worlds[k].Ratchet(p), known, keys)
    ensures Pair.MessageKey(c, j, n) !in keys
  {
    hide Derivation, Pair.IsRun, Pair.DrawsAreDistinct, Passes, Untouched, Pair.EndOk;
    var w := worlds[k];
    var e := w.Epoch(p);
    Pair.RunIsOk(c, worlds, events, k);
    EndIsUntouched(c, w.Ratchet(p), e, w.texts, w.done);
    LaterMessagesPass(c, j, n, e + 2);
    MessagePasses(Advance(Pair.ChainKey(c, j), n), Turn(c, e + 2));
    forall i | 0 <= i < |keys| ensures keys[i] != Pair.MessageKey(c, j, n) {
      StaysUntouched(w.Ratchet(p), known, keys, Turn(c, e + 2), i);
    }
  }

  lemma MessagePasses(ck: Key, d: Key)
    requires Passes(ck, d)
    ensures Passes(Message(ck), d)
  {
  }

  /** The bound is exact: with the current key pair known, the first key of chain `e + 1` is computed. */
  lemma NextChainIsExposed(c: Pair.Session, worlds: seq<Pair.World>, events: seq<Pair.Event>, k: nat, p: Pair.Party,
      known: iset<Secret>)
    requires Pair.DrawsAreDistinct(c) && Pair.IsRun(c, worlds, events) && k < |worlds|
    requires worlds[k].Ratchet(p).dhs in known
    ensures var e := worlds[k].Epoch(p);
      Derivation(worlds[k].Ratchet(p), known,
                 [Pair.RootKey(c, e), Turn(c, e + 1), Pair.ChainKey(c, e + 1), Pair.MessageKey(c, e + 1, 0)])
  {
    hide Derivation, Pair.IsRun, Pair.DrawsAreDistinct, Pair.RootKey, Pair.ChainKey, Turn;
    EndHolds(c, worlds, events, k, p);
    NextChainComputed(c, worlds[k].Ratchet(p), worlds[k].Epoch(p), known);
  }

  lemma EndHolds(c: Pair.Session, worlds: seq<Pair.World>, events: seq<Pair.Event>, k: nat, p: Pair.Party)
    requires Pair.DrawsAreDistinct(c) && Pair.IsRun(c, worlds, events) && k < |worlds|
    ensures var s, e := worlds[k].Ratchet(p), worlds[k].Epoch(p);
      s.dhs == c.secrets(e) && s.rk == Pair.RootKey(c, e)
  {
    hide Pair.IsRun, Pair.DrawsAreDistinct, Pair.RootKey;
    Pair.RunIsOk(c, worlds, events, k);
  }

  lemma NextChainComputed(c: Pair.Session, s: State, e: nat, known: iset<Secret>)
    requires s.dhs == c.secrets(e) && s.rk == Pair.RootKey(c, e) && s.dhs in known
    ensures Derivation(s, known, [Pair.RootKey(c, e), Turn(c, e + 1), Pair.ChainKey(c, e + 1),
                                  Pair.MessageKey(c, e + 1, 0)])
  {
    var keys := [Pair.RootKey(c, e), Turn(c, e + 1), Pair.ChainKey(c, e + 1), Pair.MessageKey(c, e + 1, 0)];
    TurnIs(c, e + 1);
    assert keys[2] == Chain(keys[0], keys[1]) && keys[3] == Message(keys[2]);
    assert RatchetSafety.Holds(s, RootSlot) == Some(keys[0]);
    assert keys[1].low in known || keys[1].high in known;
    assert keys[..2] == [keys[0], keys[1]] && keys[..3] == [keys[0], keys[1], keys[2]];
  }
}
