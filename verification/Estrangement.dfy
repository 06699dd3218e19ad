/**
 The other direction of `Tampering`: what a side sends after a packet has moved its
 ratchet, and whether the peer, wherever it stands, opens it.
 */
module Estrangement {
  import opened Common
  import opened Crypto
  import opened RatchetSpec
  import opened RatchetPair
  import opened Tampering

  /** The message that a ratchet seals after `k` others, without a DH step in between. */
  ghost function SentAfter(c: Session, t: State, k: nat, text: bytes): (Header, Ciphertext)
    requires t.cks.Some?
  {
    var header := Header(PublicOf(t.dhs), t.pn, t.ns + k);
    (header, SealUnder(Message(Advance(t.cks.value, k)), header, text, c.ad))
  }

  /** The ratchet after sealing the texts one after the other. */
  function AfterSending(t: State, texts: seq<bytes>, ad: seq<Point>): State {
    if texts == [] then t
    else Encrypt(AfterSending(t, texts[..|texts| - 1], ad), texts[|texts| - 1], ad).state
  }

  /** `SentAfter` is what the ratchet really seals. */
  lemma {:induction false} SentAfterIsSent(c: Session, t: State, texts: seq<bytes>, text: bytes)
    requires t.cks.Some?
    ensures AfterSending(t, texts, c.ad) ==
              t.(cks := Some(Advance(t.cks.value, |texts|)), ns := t.ns + |texts|)
    ensures Encrypt(AfterSending(t, texts, c.ad), text, c.ad).result == Ok(SentAfter(c, t, |texts|, text))
  {
    if texts != [] {
      SentAfterIsSent(c, t, texts[..|texts| - 1], texts[|texts| - 1]);
    }
  }

  // ----- what the peer opens with -----

  /** A key of the chain of the named key pair, or of a chain begun with that key pair. */
  ghost predicate PeerKey(c: Session, f: nat, header: Header, u: Key) {
    || (exists j: nat, n: nat :: j > 0 && header.dh == PublicOf(c.secrets(j)) && u == MessageKey(c, j, n))
    || (u.Message? && Base(u.ck).Chain? && Base(u.ck).rk == RootKey(c, f) &&
          Ok(Base(u.ck).dh) == Agree(c.secrets(f), header.dh))
  }

  /** The agreement that a chain begun on the way is made with. */
  lemma NewChainAgreement(s: State, header: Header, ct: Ciphertext, ad: seq<Point>, drawn: Secret)
    requires s.Valid()
    ensures var r := DecryptNewChain(s, header, ct, ad, drawn);
      r.used.Some? ==> r.used.value.Message? && Base(r.used.value.ck).Chain? &&
                       Ok(Base(r.used.value.ck).dh) == Agree(s.dhs, header.dh)
  {
    var skip := SkipMessageKeys(s, header.pn);
    if s.ckr.Some? && skip.result.Ok? {
      SkipManyFrame(s, if s.nr < header.pn then header.pn - s.nr else 0);
    }
    if skip.result.Ok? {
      var step := DhRatchet(skip.state, header, drawn);
      if step.result.Ok? && header.n <= MAX_SKIP {
        SkipManyFrame(step.state, header.n);
        AdvancedChain(step.state.ckr.value, header.n);
      }
    }
  }

  /** Whatever it is handed, a side of the conversation opens it with such a key or not at all. */
  lemma PeerUses(c: Session, q: State, f: nat, texts: Texts, done: set<(nat, nat)>, header: Header, ct: Ciphertext,
      drawn: Secret)
    requires EndOk(c, q, f, texts, done) && DrawsAreDistinct(c)
    ensures var r := Decrypt(q, header, ct, c.ad, drawn);
      && (r.result.Ok? ==> r.used.Some?)
      && (r.used.Some? ==> PeerKey(c, f, header, r.used.value) && r.result == OpenUnder(r.used.value, header, ct, c.ad))
  {
    var slot := SlotOf(header);
    if slot in q.skipped {
      var j: nat :| slot.0 == PublicOf(c.secrets(j));
      assert Row(c, q, f, texts, done, j, slot.1);
      assert j > 0 && q.skipped[slot] == MessageKey(c, j, slot.1);
    } else if q.dhr == Some(header.dh) {
      if q.ckr.Some? && header.n <= q.nr + MAX_SKIP {
        var count := if q.nr < header.n then header.n - q.nr else 0;
        SkipManyFrame(q, count);
        AdvanceAdds(ChainKey(c, f - 1), q.nr, count);
        assert f - 1 > 0 && Decrypt(q, header, ct, c.ad, drawn).used == Some(MessageKey(c, f - 1, q.nr + count));
      }
    } else {
      assert q.Valid() && q.rk == RootKey(c, f) && q.dhs == c.secrets(f);
      hide DecryptNewChain, EndOk;
      NewChainUses(q, header, ct, c.ad, drawn);
      NewChainAgreement(q, header, ct, c.ad, drawn);
    }
  }

  // ----- after a turn -----

  /** Agreements with a secret of the conversation tell public values apart. */
  lemma AgreementTells(a: Secret, p: Point, b: Secret)
    requires Agree(a, p) == Ok(Dh(a, b))
    ensures p == PublicOf(b)
  {
  }

  /** The key of a chain begun from a root that a foreign agreement went into is none of the peer's. */
  lemma TurnedKeyIsForeign(c: Session, e: nat, dh1: Key, dh2: Key, k: nat, f: nat, header: Header, j: nat, n: nat)
    requires dh1 != Dh(c.secrets(e), c.secrets(e + 1)) && j > 0
    ensures var u := Message(Advance(Chain(Root(RootKey(c, e), dh1), dh2), k));
      u != MessageKey(c, j, n) && Base(u.ck).Chain? && Base(u.ck).rk != RootKey(c, f)
  {
    var ck := Chain(Root(RootKey(c, e), dh1), dh2);
    AdvancedChain(ck, k);
    MessageKeyIs(c, j, n);
    RootsOf(c, e);
    RootsOf(c, f);
    RootIs(c, e + 1);
    if j == e + 2 {
      assert ChainKey(c, j).rk == RootKey(c, e + 1);
    }
  }

  lemma RootIs(c: Session, e: nat)
    requires e > 0
    ensures RootKey(c, e) == Root(RootKey(c, e - 1), Dh(c.secrets(e - 1), c.secrets(e)))
  {
  }

  /**
   After a turn onto any key pair but the peer's next, nothing that the side sends opens at
   the peer: not the first message nor a later one, wherever the peer stands by then.
   */
  lemma TurnedSideIsNotHeard(c: Session, s: State, e: nat, texts: Texts, done: set<(nat, nat)>,
      header: Header, ct: Ciphertext, drawn: Secret, k: nat, text: bytes,
      q: State, f: nat, texts': Texts, done': set<(nat, nat)>, drawn': Secret)
    requires DrawsAreDistinct(c) && EndOk(c, s, e, texts, done) && EndOk(c, q, f, texts', done')
    requires Turns(s, header) && header.dh != PublicOf(c.secrets(e + 1))
    requires Agree(s.dhs, header.dh).Ok? && Agree(drawn, header.dh).Ok?
    ensures var t := Decrypt(s, header, ct, c.ad, drawn).state;
      t.cks.Some? &&
      var (h, sealed) := SentAfter(c, t, k, text);
      Decrypt(q, h, sealed, c.ad, drawn').result.Err?
  {
    var dh1, dh2 := Agree(s.dhs, header.dh).value, Agree(drawn, header.dh).value;
    assert s.Valid() && s.rk == RootKey(c, e) && s.dhs == c.secrets(e);
    if dh1 == Dh(c.secrets(e), c.secrets(e + 1)) {
      AgreementTells(c.secrets(e), header.dh, c.secrets(e + 1));
    }
    TurnedCks(s, header, ct, c.ad, drawn);
    var t := Decrypt(s, header, ct, c.ad, drawn).state;
    var (h, sealed) := SentAfter(c, t, k, text);
    hide EndOk, Decrypt;
    PeerUses(c, q, f, texts', done', h, sealed, drawn');
    var r := Decrypt(q, h, sealed, c.ad, drawn');
    if r.result.Ok? {
      var u := r.used.value;
      TurnedKeyIsForeign(c, e, dh1, dh2, k, f, h, 1, 0);
      if j: nat, n: nat :| j > 0 && h.dh == PublicOf(c.secrets(j)) && u == MessageKey(c, j, n) {
        TurnedKeyIsForeign(c, e, dh1, dh2, k, f, h, j, n);
      }
    }
  }

  lemma TurnedCks(s: State, header: Header, ct: Ciphertext, ad: seq<Point>, drawn: Secret)
    requires s.Valid() && Turns(s, header) && Agree(s.dhs, header.dh).Ok? && Agree(drawn, header.dh).Ok?
    ensures Decrypt(s, header, ct, ad, drawn).state.cks ==
              Some(Chain(Root(s.rk, Agree(s.dhs, header.dh).value), Agree(drawn, header.dh).value))
  {
    TurnedParts(s, header, drawn);
    TurnedDecrypt(s, header, ct, ad, drawn);
    TurnedChain(Turned(s, header, drawn), header, ct, ad, (header.dh, 0));
  }

  // ----- after a refused agreement -----

  /**
   A packet that is refused at the second agreement keeps the sending chain but not the key
   pair that it belongs to, so nothing that the side sends opens at the peer.
   */
  lemma HalfTurnedSideIsNotHeard(c: Session, s: State, e: nat, texts: Texts, done: set<(nat, nat)>,
      header: Header, ct: Ciphertext, drawn: Secret, k: nat, text: bytes,
      q: State, f: nat, texts': Texts, done': set<(nat, nat)>, drawn': Secret)
    requires DrawsAreDistinct(c) && EndOk(c, s, e, texts, done) && EndOk(c, q, f, texts', done')
    requires e > 0 && Turns(s, header) && Agree(s.dhs, header.dh).Ok? && Agree(drawn, header.dh).Err?
    requires drawn != c.secrets(e)
    ensures var t := Decrypt(s, header, ct, c.ad, drawn).state;
      t.cks.Some? &&
      var (h, sealed) := SentAfter(c, t, k, text);
      Decrypt(q, h, sealed, c.ad, drawn').result.Err?
  {
    var t := Decrypt(s, header, ct, c.ad, drawn).state;
    assert s.Valid() && s.cks == Some(Advance(ChainKey(c, e), s.ns));
    TurnedParts(s, header, drawn);
    TurnedDecrypt(s, header, ct, c.ad, drawn);
    var (h, sealed) := SentAfter(c, t, k, text);
    AdvanceAdds(ChainKey(c, e), s.ns, k);
    var mine := MessageKey(c, e, s.ns + k);
    assert sealed == SealUnder(mine, h, text, c.ad) && h.dh == PublicOf(drawn);
    hide EndOk, Decrypt, Turned, SkipMessageKeys, PeerKey, MessageKey;
    PeerUses(c, q, f, texts', done', h, sealed, drawn');
    OwnKeyIsForeign(c, e, s.ns + k, f, h, drawn);
  }

  /** Under another key pair than its own, a key of the conversation is none of the peer's. */
  lemma OwnKeyIsForeign(c: Session, e: nat, at: nat, f: nat, h: Header, drawn: Secret)
    requires e > 0 && h.dh == PublicOf(drawn) && drawn != c.secrets(e)
    ensures !PeerKey(c, f, h, MessageKey(c, e, at))
  {
    var mine := MessageKey(c, e, at);
    MessageKeyIs(c, e, at);
    RootsOf(c, f);
    if j: nat, n: nat :| j > 0 && h.dh == PublicOf(c.secrets(j)) && mine == MessageKey(c, j, n) {
      MessageKeyIs(c, j, n);
    }
  }

  lemma SecretsTell(c: Session, i: nat, j: nat)
    requires DrawsAreDistinct(c) && c.secrets(i) == c.secrets(j)
    ensures i == j
  {
    assert !Differ(i, j);
  }

  /**
   A packet that is refused at the first agreement keeps the sending chain but restarts its
   numbers. Message `k` after it is sealed with the key of position `s.ns + k` and says it
   is at position `k`. The peer opens it exactly if nothing had been sent on that chain and
   it opens position `k`, or if it has come to just that position, without retaining `k`.
   */
  lemma RestartedNumbersAreExact(c: Session, s: State, e: nat, texts: Texts, done: set<(nat, nat)>,
      header: Header, ct: Ciphertext, drawn: Secret, k: nat, text: bytes,
      q: State, f: nat, texts': Texts, done': set<(nat, nat)>, drawn': Secret)
    requires DrawsAreDistinct(c) && EndOk(c, s, e, texts, done) && EndOk(c, q, f, texts', done')
    requires e > 0 && f % 2 != e % 2 && Turns(s, header) && Agree(s.dhs, header.dh).Err?
    ensures var t := Decrypt(s, header, ct, c.ad, drawn).state;
      t.cks == s.cks && t.cks.Some? &&
      var (h, sealed) := SentAfter(c, t, k, text);
      h == Header(PublicOf(c.secrets(e)), s.ns, k) &&
      var r := Decrypt(q, h, sealed, c.ad, drawn').result;
      var opens :=
        if SlotOf(h) in q.skipped then s.ns == 0
        else if q.dhr == Some(h.dh) then
          q.ckr.Some? && k <= q.nr + MAX_SKIP && (if k < q.nr then q.nr else k) == s.ns + k
        else f + 1 == e && s.ns == 0 && (q.ckr.Some? ==> s.ns <= q.nr + MAX_SKIP) && k <= MAX_SKIP;
      if opens then r == Ok(text) else r.Err?
  {
    var t := Decrypt(s, header, ct, c.ad, drawn).state;
    assert s.Valid() && s.dhs == c.secrets(e) && s.cks == Some(Advance(ChainKey(c, e), s.ns));
    TurnedParts(s, header, drawn);
    TurnedDecrypt(s, header, ct, c.ad, drawn);
    var (h, sealed) := SentAfter(c, t, k, text);
    AdvanceAdds(ChainKey(c, e), s.ns, k);
    assert sealed == SealUnder(MessageKey(c, e, s.ns + k), h, text, c.ad);
    hide Turned, SkipMessageKeys;
    OpensOnlyInPlace(c, q, f, texts', done', e, s.ns + k, h, text, drawn');
  }

  /** A message of chain `e` sealed with the key of one position under a header that names another, at the peer. */
  lemma OpensOnlyInPlace(c: Session, q: State, f: nat, texts: Texts, done: set<(nat, nat)>, e: nat, at: nat,
      h: Header, text: bytes, drawn: Secret)
    requires DrawsAreDistinct(c) && EndOk(c, q, f, texts, done) && e > 0 && f % 2 != e % 2
    requires h.dh == PublicOf(c.secrets(e))
    ensures var r := Decrypt(q, h, SealUnder(MessageKey(c, e, at), h, text, c.ad), c.ad, drawn).result;
      var opens :=
        if SlotOf(h) in q.skipped then at == h.n
        else if q.dhr == Some(h.dh) then
          q.ckr.Some? && h.n <= q.nr + MAX_SKIP && (if h.n < q.nr then q.nr else h.n) == at
        else f + 1 == e && at == h.n && (q.ckr.Some? ==> h.pn <= q.nr + MAX_SKIP) && h.n <= MAX_SKIP;
      if opens then r == Ok(text) else r.Err?
  {
    var ct := SealUnder(MessageKey(c, e, at), h, text, c.ad);
    MessageKeyIs(c, e, at);
    MessageKeyIs(c, e, h.n);
    if SlotOf(h) in q.skipped {
      assert Row(c, q, f, texts, done, e, h.n);
    } else if q.dhr == Some(h.dh) {
      SecretsTell(c, e, f - 1);
      if q.ckr.Some? {
        assert q.ckr == Some(Advance(ChainKey(c, e), q.nr));
        hide EndOk, MessageKey;
        CurrentInPlace(c, q, e, at, h, text);
      }
    } else {
      assert q.Valid() && q.rk == RootKey(c, f) && q.dhs == c.secrets(f);
      hide EndOk, Row, MessageKey, Decrypt;
      if f + 1 == e {
        NextChainInPlace(c, q, f, at, h, text, drawn);
      } else {
        RootsOf(c, f);
        WrongRootRefuses(c, q, Envelope(e, h, ct, text), at, drawn);
      }
    }
  }

  lemma CurrentInPlace(c: Session, q: State, e: nat, at: nat, h: Header, text: bytes)
    requires e > 0 && q.dhr == Some(h.dh) && q.ckr == Some(Advance(ChainKey(c, e), q.nr))
    ensures var r := DecryptInChain(q, h, SealUnder(MessageKey(c, e, at), h, text, c.ad), c.ad).result;
      if h.n <= q.nr + MAX_SKIP && (if h.n < q.nr then q.nr else h.n) == at then r == Ok(text) else r.Err?
  {
    if h.n <= q.nr + MAX_SKIP {
      var count := if q.nr < h.n then h.n - q.nr else 0;
      SkipManyFrame(q, count);
      AdvanceAdds(ChainKey(c, e), q.nr, count);
      MessageKeyIs(c, e, q.nr + count);
      MessageKeyIs(c, e, at);
      hide ChainKey;
    }
  }

  /** As in `Tampering`, for a message whose header may name another position than its key. */
  lemma WrongRootRefuses(c: Session, q: State, m: Envelope, at: nat, drawn: Secret)
    requires m.chain > 0 && m.ct == SealUnder(MessageKey(c, m.chain, at), m.header, m.text, c.ad)
    requires q.Valid() && IsNew(q, m.header) && Roots(q.rk) != m.chain - 1 + Roots(c.sk)
    ensures Decrypt(q, m.header, m.ct, c.ad, drawn).result.Err?
  {
    hide DecryptNewChain;
    MessageKeyIs(c, m.chain, at);
    NewChainUses(q, m.header, m.ct, c.ad, drawn);
  }

  lemma NextChainInPlace(c: Session, q: State, f: nat, at: nat, h: Header, text: bytes, drawn: Secret)
    requires q.Valid() && q.rk == RootKey(c, f) && q.dhs == c.secrets(f) && h.dh == PublicOf(c.secrets(f + 1))
    requires IsNew(q, h)
    ensures var r := Decrypt(q, h, SealUnder(MessageKey(c, f + 1, at), h, text, c.ad), c.ad, drawn).result;
      if at == h.n && (q.ckr.Some? ==> h.pn <= q.nr + MAX_SKIP) && h.n <= MAX_SKIP then r == Ok(text) else r.Err?
  {
    var ct := SealUnder(MessageKey(c, f + 1, at), h, text, c.ad);
    if !IsRefused(q, h) {
      TurnedParts(q, h, drawn);
      var v := Turned(q, h, drawn);
      assert v.ckr == Some(Advance(ChainKey(c, f + 1), 0));
      hide Turned, MessageKey, Decrypt, DecryptInChain;
      ResultAfterTurn(q, h, ct, c.ad, drawn);
      CurrentInPlace(c, v, f + 1, at, h, text);
    }
  }

  lemma ResultAfterTurn(s: State, header: Header, ct: Ciphertext, ad: seq<Point>, drawn: Secret)
    requires s.Valid() && Turns(s, header) && Agree(s.dhs, header.dh).Ok? && Agree(drawn, header.dh).Ok?
    ensures Decrypt(s, header, ct, ad, drawn).result == DecryptInChain(Turned(s, header, drawn), header, ct, ad).result
  {
    if s.ckr.Some? {
      SkipManyFrame(s, if s.nr < header.pn then header.pn - s.nr else 0);
    }
  }
}
