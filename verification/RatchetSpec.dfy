/**
 The Double Ratchet with clear headers: what each operation does to the state,
 as functions on values. The class in `Ratchet.dfy` runs them in place.
 */
module RatchetSpec {
  import opened Common
  import opened Crypto

  const MAX_SKIP := 1000

  datatype State = State(
    dhs: Secret,
    dhr: Option<Point>,
    rk: Key,
    cks: Option<Key>,
    ckr: Option<Key>,
    ns: nat,
    nr: nat,
    pn: nat,
    skipped: map<(Point, nat), Key>)
  {
    /** What `skip_message_keys` expects of every ratchet: a receiving chain has a peer key. */
    predicate Valid() {
      ckr.Some? ==> dhr.Some?
    }
  }

  /**
   What one call does: the state it leaves behind (also when it fails), the
   message key it handed to the AEAD, if it got that far, and what it returned.
   */
  datatype Effect<+T> = Effect(state: State, used: Option<Key>, result: Outcome<T>)

  function InitAlice(sk: Key, theirs: Point, drawn: Secret): Outcome<State> {
    var dh :- Agree(drawn, theirs);
    var (rk, cks) := KdfRk(sk, dh);
    Ok(State(drawn, Some(theirs), rk, Some(cks), None, 0, 0, 0, map[]))
  }

  function InitBob(sk: Key, secret: Secret): State {
    State(secret, None, sk, None, None, 0, 0, 0, map[])
  }

  function Encrypt(s: State, plaintext: bytes, ad: seq<Point>): Effect<(Header, Ciphertext)> {
    if s.cks.None? then Effect(s, None, Err(NotReady))
    else
      var (next, mk) := KdfCk(s.cks.value);
      var header := Header(PublicOf(s.dhs), s.pn, s.ns);
      Effect(s.(cks := Some(next), ns := s.ns + 1), Some(mk), Ok((header, SealUnder(mk, header, plaintext, ad))))
  }

  /** One turn of the skip loop: retain the key for index `nr` and move past it. */
  function SkipOne(s: State): State {
    if s.ckr.None? || s.dhr.None? then s
    else
      var (next, mk) := KdfCk(s.ckr.value);
      s.(skipped := s.skipped[(s.dhr.value, s.nr) := mk], ckr := Some(next), nr := s.nr + 1)
  }

  function SkipMany(s: State, count: nat): State {
    if count == 0 then s else SkipOne(SkipMany(s, count - 1))
  }

  function SkipMessageKeys(s: State, until: nat): Effect<()> {
    if s.ckr.None? then Effect(s, None, Ok(()))
    else if s.nr + MAX_SKIP < until then Effect(s, None, Err(TooManySkipped))
    else Effect(SkipMany(s, if s.nr < until then until - s.nr else 0), None, Ok(()))
  }

  /** The DH step. Both early exits leave the fields already assigned as they are. */
  function DhRatchet(s: State, header: Header, drawn: Secret): Effect<()> {
    var s1 := s.(pn := s.ns, ns := 0, nr := 0, dhr := Some(header.dh));
    var dh1 := Agree(s1.dhs, header.dh);
    if dh1.Err? then Effect(s1, None, Err(dh1.error))
    else
      var (rk1, ckr) := KdfRk(s1.rk, dh1.value);
      var s2 := s1.(rk := rk1, ckr := Some(ckr), dhs := drawn);
      var dh2 := Agree(drawn, header.dh);
      if dh2.Err? then Effect(s2, None, Err(dh2.error))
      else
        var (rk2, cks) := KdfRk(s2.rk, dh2.value);
        Effect(s2.(rk := rk2, cks := Some(cks)), None, Ok(()))
  }

  /** The part of `decrypt` after the DH step: skip to `n`, take one key, open. */
  function DecryptInChain(s: State, header: Header, ct: Ciphertext, ad: seq<Point>): Effect<bytes> {
    var skip := SkipMessageKeys(s, header.n);
    if skip.result.Err? then Effect(skip.state, None, Err(skip.result.error))
    else if skip.state.ckr.None? then Effect(skip.state, None, Err(NotReady))
    else
      var (next, mk) := KdfCk(skip.state.ckr.value);
      Effect(skip.state.(ckr := Some(next), nr := skip.state.nr + 1), Some(mk), OpenUnder(mk, header, ct, ad))
  }

  function DecryptNewChain(s: State, header: Header, ct: Ciphertext, ad: seq<Point>, drawn: Secret): Effect<bytes> {
    var skip := SkipMessageKeys(s, header.pn);
    if skip.result.Err? then Effect(skip.state, None, Err(skip.result.error))
    else
      var step := DhRatchet(skip.state, header, drawn);
      if step.result.Err? then Effect(step.state, None, Err(step.result.error))
      else DecryptInChain(step.state, header, ct, ad)
  }

  /** `drawn` is the secret the call would generate if it performs a DH step. */
  function Decrypt(s: State, header: Header, ct: Ciphertext, ad: seq<Point>, drawn: Secret): Effect<bytes> {
    var slot := (header.dh, header.n);
    if slot in s.skipped then
      Effect(s.(skipped := s.skipped - {slot}), Some(s.skipped[slot]), OpenUnder(s.skipped[slot], header, ct, ad))
    else if s.dhr != Some(header.dh) then
      DecryptNewChain(s, header, ct, ad, drawn)
    else
      DecryptInChain(s, header, ct, ad)
  }

  /** What any number of skip steps leaves alone, and where the counters end up. */
  lemma {:induction false} SkipManyFrame(s: State, count: nat)
    requires s.ckr.Some? && s.dhr.Some?
    ensures var t := SkipMany(s, count);
      t == s.(skipped := t.skipped, ckr := Some(Advance(s.ckr.value, count)), nr := s.nr + count)
  {
    if count > 0 {
      SkipManyFrame(s, count - 1);
    }
  }

  /** The keys a run of skip steps retains, in closed form. */
  lemma {:induction false} SkipManyKeys(s: State, count: nat, slot: (Point, nat))
    requires s.ckr.Some? && s.dhr.Some?
    ensures var t := SkipMany(s, count);
      if slot.0 == s.dhr.value && s.nr <= slot.1 < s.nr + count
      then slot in t.skipped && t.skipped[slot] == Message(Advance(s.ckr.value, slot.1 - s.nr))
      else (slot in t.skipped <==> slot in s.skipped) && (slot in s.skipped ==> t.skipped[slot] == s.skipped[slot])
  {
    if count > 0 {
      SkipManyKeys(s, count - 1, slot);
      SkipManyFrame(s, count - 1);
    }
  }
}
