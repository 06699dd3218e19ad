/**
 What any packet, made up, replayed or honest, does to the honest messages in flight.
 `decrypt` changes the ratchet before it authenticates, so a packet can spend the key of
 one message, or move the ratchet onto another key pair. Which messages open afterwards
 is stated exactly, for every header, every ciphertext and every secret drawn.
 */
module Tampering {
  import opened Common
  import opened Crypto
  import opened RatchetSpec
  import opened RatchetPair

  // ----- telling message keys apart -----

  /** The chain that a chain key belongs to, how far along it is, and how many roots lie above it. */
  ghost function Base(k: Key): Key { if k.NextChain? then Base(k.ck) else k }

  ghost function Along(k: Key): nat { if k.NextChain? then 1 + Along(k.ck) else 0 }

  ghost function Roots(k: Key): nat { if k.Root? then 1 + Roots(k.rk) else 0 }

  lemma {:induction false} AdvancedChain(ck: Key, n: nat)
    requires ck.Chain?
    ensures Base(Advance(ck, n)) == ck && Along(Advance(ck, n)) == n
  {
    if n > 0 {
      AdvancedChain(ck, n - 1);
    }
  }

  lemma {:induction false} RootsOf(c: Session, e: nat)
    ensures Roots(RootKey(c, e)) == e + Roots(c.sk)
  {
    if e > 0 {
      RootsOf(c, e - 1);
    }
  }

  lemma MessageKeyIs(c: Session, j: nat, n: nat)
    requires j > 0
    ensures var ck := MessageKey(c, j, n).ck;
      Along(ck) == n && Base(ck) == ChainKey(c, j) && Roots(Base(ck).rk) == j - 1 + Roots(c.sk)
  {
    AdvancedChain(ChainKey(c, j), n);
    RootsOf(c, j - 1);
  }

  /** What a ratchet opens a message with when it meets a key pair that is new to it. */
  lemma NewChainUses(s: State, header: Header, ct: Ciphertext, ad: seq<Point>, drawn: Secret)
    requires s.Valid()
    ensures var r := DecryptNewChain(s, header, ct, ad, drawn);
      && (r.result.Ok? ==> r.used.Some?)
      && (r.used.Some? ==>
            && r.used.value.Message? && Base(r.used.value.ck).Chain? && Base(r.used.value.ck).rk == s.rk
            && r.result == OpenUnder(r.used.value, header, ct, ad))
  {
    var skip := SkipMessageKeys(s, header.pn);
    if s.ckr.Some? && skip.result.Ok? {
      SkipManyFrame(s, if s.nr < header.pn then header.pn - s.nr else 0);
    }
    if skip.result.Ok? {
      var step := DhRatchet(skip.state, header, drawn);
      if step.result.Ok? {
        var u := step.state;
        if header.n <= MAX_SKIP {
          SkipManyFrame(u, header.n);
          AdvancedChain(u.ckr.value, header.n);
        }
      }
    }
  }

  // ----- a second copy -----

  /** The message is sealed as sent, whether or not it has been decrypted. */
  ghost predicate IsSealed(c: Session, m: Envelope) {
    && m.chain > 0 && m.header.dh == PublicOf(c.secrets(m.chain))
    && m.ct == SealUnder(MessageKey(c, m.chain, m.header.n), m.header, m.text, c.ad)
  }

  /** What a side has decrypted, or counts as decrypted, it refuses. */
  lemma DoneIsRefused(c: Session, s: State, e: nat, texts: Texts, done: set<(nat, nat)>, m: Envelope, drawn: Secret)
    requires EndOk(c, s, e, texts, done) && DrawsAreDistinct(c) && IsSealed(c, m)
    requires m.chain % 2 != e % 2 && (m.chain, m.header.n) in done
    ensures Decrypt(s, m.header, m.ct, c.ad, drawn).result.Err?
  {
    assert Row(c, s, e, texts, done, m.chain, m.header.n);
    MessageKeyIs(c, m.chain, m.header.n);
    if m.chain + 1 == e {
      AdvancedChain(ChainKey(c, m.chain), s.nr);
      assert SkipMany(s, 0) == s;
    } else {
      hide Row, DecryptNewChain, SkipMessageKeys;
      assert Differ(m.chain, e - 1);
      RootsOf(c, e);
      NewChainUses(s, m.header, m.ct, c.ad, drawn);
    }
  }

  // ----- a packet that changes no key pair -----

  /** The packet names a retained key, or the current receiving chain. */
  predicate StaysPut(s: State, header: Header) {
    (header.dh, header.n) in s.skipped || s.dhr == Some(header.dh)
  }

  /** The position whose key such a packet spends, whatever its ciphertext. */
  function Spent(s: State, header: Header): Option<(Point, nat)> {
    if (header.dh, header.n) in s.skipped then Some((header.dh, header.n))
    else if s.ckr.Some? && header.n <= s.nr + MAX_SKIP then
      Some((header.dh, if header.n < s.nr then s.nr else header.n))
    else None
  }

  /** The history with message `n` of chain `j` in it, if need be after messages that were never sent. */
  ghost function Padded(texts: Texts, j: nat, n: nat): Texts
    requires j < |texts|
  {
    if n < |texts[j]| then texts else texts[j := texts[j] + seq(n + 1 - |texts[j]|, _ => [])]
  }

  lemma PaddingKeepsEnd(c: Session, s: State, e: nat, texts: Texts, done: set<(nat, nat)>, n: nat)
    requires EndOk(c, s, e, texts, done) && e >= 2
    ensures EndOk(c, s, e, Padded(texts, e - 1, n), done)
  {
    var texts' := Padded(texts, e - 1, n);
    forall j: nat, i: nat ensures Row(c, s, e, texts', done, j, i) {
      assert Row(c, s, e, texts, done, j, i);
      assert PassedOver(e, s.nr, texts, done, j, i) == PassedOver(e, s.nr, texts', done, j, i);
    }
  }

  /** A message as it would have been sent at position `n` of chain `j`. */
  ghost function Phantom(c: Session, texts: Texts, j: nat, n: nat): Envelope
    requires 0 < j < |texts| && n < |texts[j]|
  {
    var header := Header(PublicOf(c.secrets(j)), PreviousLength(texts, j), n);
    Envelope(j, header, SealUnder(MessageKey(c, j, n), header, texts[j][n], c.ad), texts[j][n])
  }

  /** In a chain, only the position reached decides where the ratchet ends up. */
  lemma SameMove(s: State, header: Header, ct: Ciphertext, ad: seq<Point>, header': Header, ct': Ciphertext)
    requires s.ckr.Some? && s.nr <= header'.n
    requires header'.n == if header.n < s.nr then s.nr else header.n
    ensures DecryptInChain(s, header, ct, ad).state == DecryptInChain(s, header', ct', ad).state
  {
    hide SkipMany;
  }

  /** Spending a position of the current chain is like delivering it, sent or not. */
  lemma InChainSpends(c: Session, s: State, e: nat, texts: Texts, done: set<(nat, nat)>, header: Header, ct: Ciphertext)
    requires EndOk(c, s, e, texts, done) && DrawsAreDistinct(c) && s.ckr.Some? && header.n <= s.nr + MAX_SKIP
    ensures var n := if header.n < s.nr then s.nr else header.n;
      var t := DecryptInChain(s, header, ct, c.ad).state;
      e >= 2 && t.nr == n + 1 && EndOk(c, t, e, Padded(texts, e - 1, n), done + {(e - 1, n)})
  {
    var n := if header.n < s.nr then s.nr else header.n;
    var texts' := Padded(texts, e - 1, n);
    PaddingKeepsEnd(c, s, e, texts, done, n);
    var m := Phantom(c, texts', e - 1, n);
    hide EndOk, DecryptInChain;
    assert (e - 1, n) !in done by { NotDone(c, s, e, texts, done, n); }
    InChain(c, s, e, texts', done, m);
    SameMove(s, header, ct, c.ad, m.header, m.ct);
    assert DecryptInChain(s, m.header, m.ct, c.ad).state.nr == n + 1 by { Moves(s, m.header, m.ct, c.ad); }
  }

  lemma NotDone(c: Session, s: State, e: nat, texts: Texts, done: set<(nat, nat)>, n: nat)
    requires EndOk(c, s, e, texts, done) && e >= 2 && n >= s.nr
    ensures (e - 1, n) !in done
  {
  }

  lemma Moves(s: State, header: Header, ct: Ciphertext, ad: seq<Point>)
    requires s.ckr.Some? && s.dhr.Some? && s.nr <= header.n <= s.nr + MAX_SKIP
    ensures DecryptInChain(s, header, ct, ad).state.nr == header.n + 1
  {
    SkipManyFrame(s, header.n - s.nr);
  }

  /** Where a packet that changes no key pair leaves the ratchet, if it spends a key. */
  lemma SpentPosition(
      c: Session, s: State, e: nat, texts: Texts, done: set<(nat, nat)>, header: Header, ct: Ciphertext, drawn: Secret)
    returns (j: nat)
    requires EndOk(c, s, e, texts, done) && DrawsAreDistinct(c) && StaysPut(s, header) && Spent(s, header).Some?
    ensures var n := Spent(s, header).value.1; var t := Decrypt(s, header, ct, c.ad, drawn).state;
      && 0 < j < |texts| && j + 1 <= e && j % 2 != e % 2 && Spent(s, header).value.0 == PublicOf(c.secrets(j))
      && EndOk(c, t, e, Padded(texts, j, n), done + {(j, n)})
      && (n >= |texts[j]| ==> j + 1 == e && t.nr == n + 1)
  {
    var slot := (header.dh, header.n);
    if slot in s.skipped {
      j :| slot.0 == PublicOf(c.secrets(j));
      assert Row(c, s, e, texts, done, j, header.n);
      FromTable(c, s, e, texts, done, Phantom(c, texts, j, header.n));
    } else {
      j := e - 1;
      hide EndOk, DecryptInChain;
      assert e >= 2 && s.dhr == Some(PublicOf(c.secrets(e - 1))) by { CurrentChain(c, s, e, texts, done); }
      InChainSpends(c, s, e, texts, done, header, ct);
      assert e < |texts| by { CurrentChain(c, s, e, texts, done); }
    }
  }

  lemma CurrentChain(c: Session, s: State, e: nat, texts: Texts, done: set<(nat, nat)>)
    requires EndOk(c, s, e, texts, done) && s.ckr.Some?
    ensures 2 <= e < |texts| && s.dhr == Some(PublicOf(c.secrets(e - 1)))
  {
  }

  /** The next chain after positions that were never sent: its own messages still open. */
  lemma NextChainStillOpens(c: Session, s: State, e: nat, texts: Texts, done: set<(nat, nat)>, m: Envelope)
    requires EndOk(c, s, e, texts, done) && DrawsAreDistinct(c) && SealedOk(c, texts, done, m)
    requires m.chain == e + 1 && |texts| == e + 2 && e >= 2 && s.nr == |texts[e - 1]| && m.header.pn <= s.nr
    ensures Decrypt(s, m.header, m.ct, c.ad, c.secrets(e + 2)).result
         == if WithinGap(s, m.header) then Ok(m.text) else Err(TooManySkipped)
  {
    assert Row(c, s, e, texts, done, m.chain, m.header.n);
    assert Differ(e - 1, e + 1) && SkipMany(s, 0) == s;
    assert SkipMessageKeys(s, m.header.pn).state == s;
    hide Row, TableOk, DecryptInChain;
    TurnsOver(c, s, e, texts, done, m.header);
    InChain(c, DhRatchet(s, m.header, c.secrets(e + 2)).state, e + 2, texts + [[]], done, m);
  }

  lemma PaddingKeepsEnvelope(c: Session, texts: Texts, done: set<(nat, nat)>, j: nat, n: nat, m: Envelope)
    requires EnvelopeOk(c, texts, done, m) && j < |texts| && (m.chain, m.header.n) != (j, n)
    ensures SealedOk(c, Padded(texts, j, n), done + {(j, n)}, m)
    ensures m.chain != j + 2 || n < |texts[j]| ==> EnvelopeOk(c, Padded(texts, j, n), done + {(j, n)}, m)
  {
    hide MessageKey;
  }

  /** What becomes of a message after such a packet. */
  ghost function OutcomeAfter(c: Session, s: State, e: nat, header: Header, ct: Ciphertext, drawn: Secret, m: Envelope)
    : Outcome<bytes>
  {
    Decrypt(Decrypt(s, header, ct, c.ad, drawn).state, m.header, m.ct, c.ad, c.secrets(e + 2)).result
  }

  /**
   A packet that changes no key pair, whatever it says and however it ends, spends one
   position at most. The message at that position is lost; every other message in flight
   opens exactly if its gap is within bounds afterwards.
   */
  lemma OtherMessagesStillOpen(c: Session, s: State, e: nat, texts: Texts, done: set<(nat, nat)>,
      header: Header, ct: Ciphertext, drawn: Secret, m: Envelope)
    requires EndOk(c, s, e, texts, done) && DrawsAreDistinct(c) && StaysPut(s, header)
    requires EnvelopeOk(c, texts, done, m) && m.chain % 2 != e % 2 && |texts| <= e + 2
    ensures var t, r := Decrypt(s, header, ct, c.ad, drawn).state, OutcomeAfter(c, s, e, header, ct, drawn, m);
      if Spent(s, header) == Some((m.header.dh, m.header.n)) then r.Err?
      else r == if WithinGap(t, m.header) then Ok(m.text) else Err(TooManySkipped)
  {
    var t := Decrypt(s, header, ct, c.ad, drawn).state;
    if Spent(s, header).None? {
      assert t == s by { NothingSpent(s, header, ct, c.ad, drawn); }
      hide EndOk, Decrypt;
      Receives(c, s, e, texts, done, m);
    } else {
      var n := Spent(s, header).value.1;
      var j := SpentPosition(c, s, e, texts, done, header, ct, drawn);
      hide EndOk, Decrypt, EnvelopeOk, SealedOk, Padded, Spent, WithinGap;
      assert j == m.chain || Differ(j, m.chain);
      assert IsSealed(c, m) && m.header.dh == PublicOf(c.secrets(m.chain)) by { EnvelopeIsSealed(c, texts, done, m); }
      var texts', done' := Padded(texts, j, n), done + {(j, n)};
      if (j, n) == (m.chain, m.header.n) {
        DoneIsRefused(c, t, e, texts', done', m, c.secrets(e + 2));
      } else {
        StillOpens(c, t, e, texts, done, j, n, m);
      }
    }
  }

  lemma NothingSpent(s: State, header: Header, ct: Ciphertext, ad: seq<Point>, drawn: Secret)
    requires StaysPut(s, header) && Spent(s, header).None?
    ensures Decrypt(s, header, ct, ad, drawn).state == s
  {
  }

  lemma EnvelopeIsSealed(c: Session, texts: Texts, done: set<(nat, nat)>, m: Envelope)
    requires EnvelopeOk(c, texts, done, m)
    ensures IsSealed(c, m)
  {
  }

  lemma StillOpens(c: Session, t: State, e: nat, texts: Texts, done: set<(nat, nat)>, j: nat, n: nat, m: Envelope)
    requires 0 < j < |texts| <= e + 2 && j + 1 <= e && j % 2 != e % 2 && DrawsAreDistinct(c)
    requires EndOk(c, t, e, Padded(texts, j, n), done + {(j, n)})
    requires n >= |texts[j]| ==> j + 1 == e && t.nr == n + 1
    requires EnvelopeOk(c, texts, done, m) && m.chain % 2 != e % 2 && (m.chain, m.header.n) != (j, n)
    ensures Decrypt(t, m.header, m.ct, c.ad, c.secrets(e + 2)).result
         == if WithinGap(t, m.header) then Ok(m.text) else Err(TooManySkipped)
  {
    var texts', done' := Padded(texts, j, n), done + {(j, n)};
    PaddingKeepsEnvelope(c, texts, done, j, n, m);
    if m.chain == j + 2 && n >= |texts[j]| {
      assert |texts'[j]| == n + 1 && |texts'| == |texts| && m.header.pn == |texts[j]|;
      hide EndOk, Decrypt, SealedOk, EnvelopeOk, Padded, WithinGap;
      assert m.chain < |texts| by { InRange(c, texts, done, m); }
      NextChainStillOpens(c, t, e, texts', done', m);
    } else {
      assert |texts'| == |texts|;
      hide EndOk, Decrypt, EnvelopeOk, SealedOk, Padded;
      Receives(c, t, e, texts', done', m);
    }
  }

  lemma InRange(c: Session, texts: Texts, done: set<(nat, nat)>, m: Envelope)
    requires EnvelopeOk(c, texts, done, m)
    ensures m.chain < |texts|
  {
  }

  // ----- a packet that changes the key pair -----

  function SlotOf(h: Header): (Point, nat) { (h.dh, h.n) }

  /** The packet asks to pass over more of the current chain than is allowed. */
  predicate IsRefused(s: State, header: Header) {
    s.ckr.Some? && header.pn > s.nr + MAX_SKIP
  }

  predicate Turns(s: State, header: Header) {
    !StaysPut(s, header) && !IsRefused(s, header)
  }

  /** The key is retained already, or is passed over and retained on the way to the new key pair. */
  predicate Retains(s: State, header: Header, h: Header) {
    || SlotOf(h) in s.skipped
    || (s.ckr.Some? && s.dhr == Some(h.dh) && s.nr <= h.n < header.pn)
  }

  /** The message names a key pair that the ratchet has not met. */
  predicate IsNew(s: State, h: Header) {
    SlotOf(h) !in s.skipped && s.dhr != Some(h.dh)
  }

  /** In flight, what names a new key pair is of the peer's next chain, and conversely. */
  lemma NewIsNext(c: Session, s: State, e: nat, texts: Texts, done: set<(nat, nat)>, m: Envelope)
    requires EndOk(c, s, e, texts, done) && DrawsAreDistinct(c) && EnvelopeOk(c, texts, done, m)
    requires m.chain % 2 != e % 2 && |texts| <= e + 2
    ensures IsNew(s, m.header) <==> m.chain == e + 1
  {
    assert Row(c, s, e, texts, done, m.chain, m.header.n);
    assert e > 0 ==> m.chain == e - 1 || Differ(m.chain, e - 1);
  }

  /** What the ratchet retains on the way, for a message of the conversation. */
  lemma RetainedOnTheWay(c: Session, s: State, e: nat, texts: Texts, done: set<(nat, nat)>, header: Header, m: Envelope)
    requires EndOk(c, s, e, texts, done) && DrawsAreDistinct(c) && EnvelopeOk(c, texts, done, m)
    requires m.chain % 2 != e % 2 && Turns(s, header)
    ensures var u, slot := SkipMessageKeys(s, header.pn).state, SlotOf(m.header);
      && (slot in u.skipped <==> Retains(s, header, m.header))
      && (slot in u.skipped ==> u.skipped[slot] == MessageKey(c, m.chain, m.header.n))
  {
    var slot := SlotOf(m.header);
    assert Row(c, s, e, texts, done, m.chain, m.header.n);
    if s.ckr.Some? {
      SkipManyKeys(s, if s.nr < header.pn then header.pn - s.nr else 0, slot);
      assert m.chain == e - 1 || Differ(m.chain, e - 1);
      if m.chain == e - 1 && s.nr <= m.header.n {
        AdvanceAdds(ChainKey(c, e - 1), s.nr, m.header.n - s.nr);
      }
    }
  }

  /** The ratchet after the DH step of a packet, finished or not. */
  ghost function Turned(s: State, header: Header, drawn: Secret): State {
    DhRatchet(SkipMessageKeys(s, header.pn).state, header, drawn).state
  }

  /** How far the step got. */
  lemma TurnedParts(s: State, header: Header, drawn: Secret)
    requires s.Valid() && Turns(s, header)
    ensures var v, u := Turned(s, header, drawn), SkipMessageKeys(s, header.pn).state;
      var dh1, dh2 := Agree(s.dhs, header.dh), Agree(drawn, header.dh);
      && v.dhr == Some(header.dh) && v.nr == 0 && v.ns == 0 && v.pn == s.ns && v.skipped == u.skipped && v.Valid()
      && (dh1.Err? ==> v.rk == s.rk && v.dhs == s.dhs && v.cks == s.cks && v.ckr.Some? == s.ckr.Some?)
      && (dh1.Ok? ==> v.ckr == Some(Chain(s.rk, dh1.value)) && v.dhs == drawn)
      && (dh1.Ok? && dh2.Err? ==> v.rk == Root(s.rk, dh1.value) && v.cks == s.cks)
      && (dh1.Ok? && dh2.Ok? ==>
            && v.rk == Root(Root(s.rk, dh1.value), dh2.value)
            && v.cks == Some(Chain(Root(s.rk, dh1.value), dh2.value)))
  {
    if s.ckr.Some? {
      SkipManyFrame(s, if s.nr < header.pn then header.pn - s.nr else 0);
    }
  }

  lemma TurnedDecrypt(s: State, header: Header, ct: Ciphertext, ad: seq<Point>, drawn: Secret)
    requires s.Valid() && Turns(s, header)
    ensures var t, v := Decrypt(s, header, ct, ad, drawn).state, Turned(s, header, drawn);
      if Agree(s.dhs, header.dh).Err? || Agree(drawn, header.dh).Err? then t == v
      else t == DecryptInChain(v, header, ct, ad).state
  {
    if s.ckr.Some? {
      SkipManyFrame(s, if s.nr < header.pn then header.pn - s.nr else 0);
    }
  }

  /** Going on in a chain just begun retains what it passes over, and touches no other key pair. */
  lemma TurnedChain(v: State, header: Header, ct: Ciphertext, ad: seq<Point>, slot: (Point, nat))
    requires v.dhr == Some(header.dh) && v.ckr.Some? && v.nr == 0
    ensures var t := DecryptInChain(v, header, ct, ad).state;
      var passed := slot.0 == header.dh && slot.1 < header.n <= MAX_SKIP;
      && t.dhr == v.dhr && t.rk == v.rk && t.ckr.Some? && t.cks == v.cks && t.dhs == v.dhs
      && t.ns == v.ns && t.pn == v.pn
      && (header.n <= MAX_SKIP ==> t.nr == header.n + 1 && t.ckr == Some(Advance(v.ckr.value, header.n + 1)))
      && (header.n > MAX_SKIP ==> t == v)
      && (slot in t.skipped <==> slot in v.skipped || passed)
      && (passed ==> t.skipped[slot] == Message(Advance(v.ckr.value, slot.1)))
      && (!passed && slot in t.skipped ==> t.skipped[slot] == v.skipped[slot])
  {
    SkipManyFrame(v, header.n);
    SkipManyKeys(v, header.n, slot);
  }

  /** A message at or beyond the position of its own chain opens within the gap. */
  lemma ChainOpens(c: Session, v: State, m: Envelope)
    requires IsSealed(c, m) && v.dhr == Some(m.header.dh) && v.nr <= m.header.n
    requires v.ckr == Some(Advance(ChainKey(c, m.chain), v.nr))
    ensures DecryptInChain(v, m.header, m.ct, c.ad).result
         == if m.header.n <= v.nr + MAX_SKIP then Ok(m.text) else Err(TooManySkipped)
  {
    if m.header.n <= v.nr + MAX_SKIP {
      SkipManyFrame(v, m.header.n - v.nr);
      AdvanceAdds(ChainKey(c, m.chain), v.nr, m.header.n - v.nr);
    }
  }

  /** A ratchet whose root is not the one the message's chain began from does not open it as a new chain. */
  lemma WrongRootRefuses(c: Session, t: State, m: Envelope, drawn: Secret)
    requires IsSealed(c, m) && t.Valid() && IsNew(t, m.header) && Roots(t.rk) != m.chain - 1 + Roots(c.sk)
    ensures Decrypt(t, m.header, m.ct, c.ad, drawn).result.Err?
  {
    hide DecryptNewChain;
    MessageKeyIs(c, m.chain, m.header.n);
    NewChainUses(t, m.header, m.ct, c.ad, drawn);
  }

  /** With its own key retained a message opens, with another one it does not. */
  lemma RetainedOpens(c: Session, t: State, m: Envelope, drawn: Secret)
    requires IsSealed(c, m) && SlotOf(m.header) in t.skipped
    ensures var r := Decrypt(t, m.header, m.ct, c.ad, drawn).result;
      if t.skipped[SlotOf(m.header)] == MessageKey(c, m.chain, m.header.n) then r == Ok(m.text) else r.Err?
  {
  }

  /** The packet is refused at the first agreement: the root has not moved, so the peer's next chain still opens. */
  lemma FirstRefusedIsExact(c: Session, s: State, e: nat, texts: Texts, done: set<(nat, nat)>,
      header: Header, ct: Ciphertext, drawn: Secret, m: Envelope)
    requires EndOk(c, s, e, texts, done) && DrawsAreDistinct(c) && EnvelopeOk(c, texts, done, m)
    requires m.chain % 2 != e % 2 && |texts| <= e + 2 && Turns(s, header) && Agree(s.dhs, header.dh).Err?
    ensures var r := OutcomeAfter(c, s, e, header, ct, drawn, m);
      var opens := Retains(s, header, m.header) ||
        (IsNew(s, m.header) && (s.ckr.Some? ==> m.header.pn <= MAX_SKIP) && m.header.n <= MAX_SKIP);
      if opens then r == Ok(m.text) else r.Err?
  {
    var t := Turned(s, header, drawn);
    AtEnd(c, s, e, texts, done, m);
    RetainedOnTheWay(c, s, e, texts, done, header, m);
    NewIsNext(c, s, e, texts, done, m);
    TurnedParts(s, header, drawn);
    TurnedDecrypt(s, header, ct, c.ad, drawn);
    assert m.header.dh != header.dh;
    hide EndOk, EnvelopeOk, Turned, SkipMessageKeys, Row;
    if SlotOf(m.header) in t.skipped {
      RetainedOpens(c, t, m, c.secrets(e + 2));
    } else if m.chain == e + 1 {
      FreshChainOpens(c, t, e, m);
    } else {
      RootsOf(c, e);
      WrongRootRefuses(c, t, m, c.secrets(e + 2));
    }
  }

  /** What the proofs below use of a side and a message in flight to it. */
  lemma AtEnd(c: Session, s: State, e: nat, texts: Texts, done: set<(nat, nat)>, m: Envelope)
    requires EndOk(c, s, e, texts, done) && EnvelopeOk(c, texts, done, m) && |texts| <= e + 2
    ensures s.Valid() && s.rk == RootKey(c, e) && s.dhs == c.secrets(e) && IsSealed(c, m) && m.chain <= e + 1
  {
  }

  /** The peer's next chain, met by a ratchet whose root has not moved. */
  lemma FreshChainOpens(c: Session, t: State, e: nat, m: Envelope)
    requires IsSealed(c, m) && m.chain == e + 1 && t.Valid() && IsNew(t, m.header)
    requires t.rk == RootKey(c, e) && t.dhs == c.secrets(e) && t.nr == 0
    ensures Decrypt(t, m.header, m.ct, c.ad, c.secrets(e + 2)).result
         == if (t.ckr.Some? ==> m.header.pn <= MAX_SKIP) && m.header.n <= MAX_SKIP then Ok(m.text)
            else Err(TooManySkipped)
  {
    if t.ckr.Some? {
      SkipManyFrame(t, m.header.pn);
    }
    if t.ckr.Some? ==> m.header.pn <= MAX_SKIP {
      var v := Turned(t, m.header, c.secrets(e + 2));
      TurnedParts(t, m.header, c.secrets(e + 2));
      hide SkipMany, DecryptInChain;
      ChainOpens(c, v, m);
    }
  }

  /** The packet names another key pair than the message, or is refused at the second agreement. */
  lemma OtherKeyIsExact(c: Session, s: State, e: nat, texts: Texts, done: set<(nat, nat)>,
      header: Header, ct: Ciphertext, drawn: Secret, m: Envelope)
    requires EndOk(c, s, e, texts, done) && DrawsAreDistinct(c) && EnvelopeOk(c, texts, done, m)
    requires m.chain % 2 != e % 2 && |texts| <= e + 2 && Turns(s, header) && Agree(s.dhs, header.dh).Ok?
    requires header.dh != m.header.dh
    ensures var r := OutcomeAfter(c, s, e, header, ct, drawn, m);
      if Retains(s, header, m.header) then r == Ok(m.text) else r.Err?
  {
    var v := Turned(s, header, drawn);
    var t := Decrypt(s, header, ct, c.ad, drawn).state;
    AtEnd(c, s, e, texts, done, m);
    RetainedOnTheWay(c, s, e, texts, done, header, m);
    TurnedParts(s, header, drawn);
    TurnedDecrypt(s, header, ct, c.ad, drawn);
    TurnedChain(v, header, ct, c.ad, SlotOf(m.header));
    hide EndOk, EnvelopeOk, Turned, SkipMessageKeys, Decrypt, DecryptInChain;
    if SlotOf(m.header) in t.skipped {
      RetainedOpens(c, t, m, c.secrets(e + 2));
    } else {
      RootsOf(c, e);
      assert Roots(t.rk) > Roots(s.rk);
      WrongRootRefuses(c, t, m, c.secrets(e + 2));
    }
  }

  /** The packet names the key pair of the message, which is older than the current one or the peer's next. */
  lemma SameKeyIsExact(c: Session, s: State, e: nat, texts: Texts, done: set<(nat, nat)>,
      header: Header, ct: Ciphertext, drawn: Secret, m: Envelope)
    requires EndOk(c, s, e, texts, done) && DrawsAreDistinct(c) && EnvelopeOk(c, texts, done, m)
    requires m.chain % 2 != e % 2 && |texts| <= e + 2 && Turns(s, header) && header.dh == m.header.dh
    ensures var r, h := OutcomeAfter(c, s, e, header, ct, drawn, m), m.header;
      var opens := if SlotOf(h) in s.skipped then header.n > MAX_SKIP || h.n > header.n
                   else if header.n > MAX_SKIP then h.n <= MAX_SKIP
                   else h.n != header.n && h.n <= header.n + 1 + MAX_SKIP;
      if opens then r == Ok(m.text) else r.Err?
  {
    var v, slot := Turned(s, header, drawn), SlotOf(m.header);
    var t := Decrypt(s, header, ct, c.ad, drawn).state;
    AtEnd(c, s, e, texts, done, m);
    RetainedOnTheWay(c, s, e, texts, done, header, m);
    NewIsNext(c, s, e, texts, done, m);
    TurnedParts(s, header, drawn);
    TurnedDecrypt(s, header, ct, c.ad, drawn);
    TurnedChain(v, header, ct, c.ad, slot);
    MessageKeyIs(c, m.chain, m.header.n);
    RootsOf(c, e);
    hide EndOk, EnvelopeOk, Turned, SkipMessageKeys, DecryptInChain;
    if slot in s.skipped {
      assert m.header.n != header.n;
      if m.header.n < header.n <= MAX_SKIP {
        AdvancedChain(v.ckr.value, m.header.n);
      }
      hide Decrypt;
      RetainedOpens(c, t, m, c.secrets(e + 2));
    } else {
      assert v.ckr == Some(ChainKey(c, e + 1));
      NextKeyOpens(c, v, t, header, m, c.secrets(e + 2));
    }
  }

  /** On the peer's next chain the position named is spent, lower ones are retained, higher ones open within the gap. */
  lemma NextKeyOpens(c: Session, v: State, t: State, header: Header, m: Envelope, drawn: Secret)
    requires IsSealed(c, m) && header.dh == m.header.dh && v.dhr == Some(header.dh) && v.nr == 0
    requires v.ckr == Some(ChainKey(c, m.chain)) && SlotOf(m.header) !in v.skipped && t.dhr == v.dhr
    requires header.n > MAX_SKIP ==> t == v
    requires header.n <= MAX_SKIP ==> t.nr == header.n + 1 && t.ckr == Some(Advance(ChainKey(c, m.chain), t.nr))
    requires var slot := SlotOf(m.header); var passed := slot.1 < header.n <= MAX_SKIP;
      (slot in t.skipped <==> passed) && (passed ==> t.skipped[slot] == MessageKey(c, m.chain, slot.1))
    ensures var r, h := Decrypt(t, m.header, m.ct, c.ad, drawn).result, m.header;
      var opens := if header.n > MAX_SKIP then h.n <= MAX_SKIP
                   else h.n != header.n && h.n <= header.n + 1 + MAX_SKIP;
      if opens then r == Ok(m.text) else r.Err?
  {
    if m.header.n == header.n <= MAX_SKIP {
      MessageKeyIs(c, m.chain, m.header.n);
      AdvancedChain(ChainKey(c, m.chain), t.nr);
      assert SkipMany(t, 0) == t;
    } else if SlotOf(m.header) !in t.skipped {
      hide DecryptInChain;
      ChainOpens(c, t, m);
    }
  }

  // ----- every packet -----

  /** How far the receiving position of a ratchet gets by a packet that changes no key pair. */
  function NewReach(s: State, header: Header): nat {
    if SlotOf(header) in s.skipped || Spent(s, header).None? then s.nr else Spent(s, header).value.1 + 1
  }

  /**
   Whether an honest message with header `h`, in flight to a ratchet `s`, opens once a
   packet with the given header has been handed over, as told before it is. Neither the
   ciphertext nor the secret drawn matters.
   */
  predicate Opens(s: State, header: Header, h: Header) {
    if StaysPut(s, header) then
      Spent(s, header) != Some(SlotOf(h)) && WithinGap(s.(nr := NewReach(s, header)), h)
    else if IsRefused(s, header) then WithinGap(s, h)
    else if Agree(s.dhs, header.dh).Err? then
      Retains(s, header, h) || (IsNew(s, h) && (s.ckr.Some? ==> h.pn <= MAX_SKIP) && h.n <= MAX_SKIP)
    else if header.dh != h.dh then Retains(s, header, h)
    else if SlotOf(h) in s.skipped then header.n > MAX_SKIP || h.n > header.n
    else if header.n > MAX_SKIP then h.n <= MAX_SKIP
    else h.n != header.n && h.n <= header.n + 1 + MAX_SKIP
  }

  /** The reach after a packet that changes no key pair, told before it. */
  lemma ReachAfter(s: State, header: Header, ct: Ciphertext, ad: seq<Point>, drawn: Secret, h: Header)
    requires s.Valid() && StaysPut(s, header) && Spent(s, header) != Some(SlotOf(h))
    ensures WithinGap(Decrypt(s, header, ct, ad, drawn).state, h) == WithinGap(s.(nr := NewReach(s, header)), h)
  {
    if SlotOf(header) !in s.skipped && s.ckr.Some? && header.n <= s.nr + MAX_SKIP {
      var count := if s.nr < header.n then header.n - s.nr else 0;
      SkipManyFrame(s, count);
      SkipManyKeys(s, count, SlotOf(h));
    }
  }

  lemma RefusedChangesNothing(s: State, header: Header, ct: Ciphertext, ad: seq<Point>, drawn: Secret)
    requires !StaysPut(s, header) && IsRefused(s, header)
    ensures Decrypt(s, header, ct, ad, drawn).state == s
  {
  }

  /**
   After any packet whatever, a message in flight opens exactly if `Opens` says so before
   the packet is handed over, and then to the text that was sent.
   */
  lemma PacketIsExact(c: Session, s: State, e: nat, texts: Texts, done: set<(nat, nat)>,
      header: Header, ct: Ciphertext, drawn: Secret, m: Envelope)
    requires EndOk(c, s, e, texts, done) && DrawsAreDistinct(c) && EnvelopeOk(c, texts, done, m)
    requires m.chain % 2 != e % 2 && |texts| <= e + 2
    ensures var r := OutcomeAfter(c, s, e, header, ct, drawn, m);
      if Opens(s, header, m.header) then r == Ok(m.text) else r.Err?
  {
    AtEnd(c, s, e, texts, done, m);
    hide EndOk, EnvelopeOk, Decrypt, WithinGap, Retains, IsNew;
    if StaysPut(s, header) {
      OtherMessagesStillOpen(c, s, e, texts, done, header, ct, drawn, m);
      if Spent(s, header) != Some(SlotOf(m.header)) {
        ReachAfter(s, header, ct, c.ad, drawn, m.header);
      }
    } else if IsRefused(s, header) {
      RefusedChangesNothing(s, header, ct, c.ad, drawn);
      Receives(c, s, e, texts, done, m);
    } else if Agree(s.dhs, header.dh).Err? {
      FirstRefusedIsExact(c, s, e, texts, done, header, ct, drawn, m);
    } else if header.dh != m.header.dh {
      OtherKeyIsExact(c, s, e, texts, done, header, ct, drawn, m);
    } else {
      SameKeyIsExact(c, s, e, texts, done, header, ct, drawn, m);
    }
  }

  // ----- in runs -----

  /** The message has the very result after the packet that it would have had before. */
  ghost predicate Keeps(c: Session, w: World, p: Party, header: Header, ct: Ciphertext, drawn: Secret, m: Envelope) {
    OutcomeAfter(c, w.Ratchet(p), w.Epoch(p), header, ct, drawn, m) == DeliveryEffect(c, w, m).result
  }

  /** The message opens after the packet if it would have opened before, and only then. */
  ghost predicate OpensAlike(c: Session, w: World, p: Party, header: Header, ct: Ciphertext, drawn: Secret, m: Envelope)
  {
    OutcomeAfter(c, w.Ratchet(p), w.Epoch(p), header, ct, drawn, m).Ok? <==> DeliveryEffect(c, w, m).result.Ok?
  }

  /** What can be told before the packet is handed over. */
  predicate Spared(s: State, header: Header, m: Envelope) {
    Opens(s, header, m.header) <==> WithinGap(s, m.header)
  }

  lemma SparedExactly(c: Session, worlds: seq<World>, events: seq<Event>, k: nat, p: Party,
      header: Header, ct: Ciphertext, drawn: Secret, m: Envelope)
    requires DrawsAreDistinct(c) && IsRun(c, worlds, events) && k < |worlds|
    requires m in worlds[k].net && Recipient(m) == p
    ensures var w, s := worlds[k], worlds[k].Ratchet(p);
      && (OpensAlike(c, w, p, header, ct, drawn, m) <==> Spared(s, header, m))
      && (StaysPut(s, header) ==> (Keeps(c, w, p, header, ct, drawn, m) <==> Spared(s, header, m)))
  {
    hide IsRun, DrawsAreDistinct, Decrypt;
    var w := worlds[k];
    var s := w.Ratchet(p);
    RunIsOk(c, worlds, events, k);
    InFlightIsReady(c, w, m);
    DeliveryIsFaithful(c, worlds, events, k, m);
    hide PairOk, EndOk, EnvelopeOk, Opens, WithinGap;
    PacketIsExact(c, s, w.Epoch(p), w.texts, w.done, header, ct, drawn, m);
    if StaysPut(s, header) {
      OtherMessagesStillOpen(c, s, w.Epoch(p), w.texts, w.done, header, ct, drawn, m);
      if Spent(s, header) == Some(SlotOf(m.header)) {
        SpentWasWithinReach(s, header, m);
      }
    }
  }

  lemma SpentWasWithinReach(s: State, header: Header, m: Envelope)
    requires StaysPut(s, header) && Spent(s, header) == Some(SlotOf(m.header))
    ensures WithinGap(s, m.header)
  {
  }

  /**
   At any point of any run, any packet leaves every message in flight to that side opening
   or not as it would have, exactly when it spares each of them, which can be told before.
   A packet that changes no key pair then leaves the very results, errors included.
   */
  lemma NothingIsLostExactly(c: Session, worlds: seq<World>, events: seq<Event>, k: nat, p: Party,
      header: Header, ct: Ciphertext, drawn: Secret)
    requires DrawsAreDistinct(c) && IsRun(c, worlds, events) && k < |worlds|
    ensures var w, s := worlds[k], worlds[k].Ratchet(p);
      var spared := forall m :: m in w.net && Recipient(m) == p ==> Spared(s, header, m);
      && ((forall m :: m in w.net && Recipient(m) == p ==> OpensAlike(c, w, p, header, ct, drawn, m)) <==> spared)
      && (StaysPut(s, header) ==>
            ((forall m :: m in w.net && Recipient(m) == p ==> Keeps(c, w, p, header, ct, drawn, m)) <==> spared))
  {
    hide IsRun, DrawsAreDistinct, Decrypt, StaysPut, Keeps, OpensAlike, Spared;
    var w, s := worlds[k], worlds[k].Ratchet(p);
    forall m | m in w.net && Recipient(m) == p
      ensures OpensAlike(c, w, p, header, ct, drawn, m) <==> Spared(s, header, m)
      ensures StaysPut(s, header) ==> (Keeps(c, w, p, header, ct, drawn, m) <==> Spared(s, header, m))
    {
      SparedExactly(c, worlds, events, k, p, header, ct, drawn, m);
    }
  }

  // ----- instances -----

  /** The smallest loss: one made-up packet, delivered first, and the opening message of a conversation is refused. */
  lemma OnePacketLosesAMessage(c: Session, text: bytes, x: Secret, drawn: Secret)
    requires DrawsAreDistinct(c) && !RatchetPoint(c, PublicOf(x))
    ensures var w := Next(c, Start(c), Send(Alice, text));
      exists m :: m in w.net && DeliveryEffect(c, w, m).result == Ok(text) &&
                  OutcomeAfter(c, w.bob, 0, Header(PublicOf(x), 0, 0), Garbage(0), drawn, m).Err?
  {
    var w0 := Start(c);
    var w := Next(c, w0, Send(Alice, text));
    var r := Encrypt(w0.alice, text, c.ad);
    var m := Envelope(1, r.result.value.0, r.result.value.1, text);
    assert m in w.net && w.bob == InitBob(c.sk, c.secrets(0)) && w.bobEpoch == 0;
    var worlds, events := [w0, w], [Send(Alice, text)];
    assert IsRun(c, worlds, events);
    RunIsOk(c, worlds, events, 1);
    DeliveryIsFaithful(c, worlds, events, 1, m);
    InFlightIsReady(c, w, m);
    hide Decrypt, EndOk, EnvelopeOk, IsRun, PairOk;
    PacketIsExact(c, w.bob, 0, w.texts, w.done, Header(PublicOf(x), 0, 0), Garbage(0), drawn, m);
  }

  /**
   Nothing need be made up. A second copy of a message that was decrypted two or more
   chains ago moves the ratchet, and with it goes every message of the current chain that
   was still to come and that the copy does not ask to pass over.
   */
  lemma ReplayLosesTheCurrentChain(c: Session, s: State, e: nat, texts: Texts, done: set<(nat, nat)>,
      copy: Envelope, drawn: Secret, m: Envelope)
    requires EndOk(c, s, e, texts, done) && DrawsAreDistinct(c) && EnvelopeOk(c, texts, done, m) && |texts| <= e + 2
    requires IsSealed(c, copy) && (copy.chain, copy.header.n) in done && copy.chain % 2 != e % 2 && copy.chain + 1 < e
    requires m.chain + 1 == e && s.nr <= m.header.n && copy.header.pn <= m.header.n
    requires copy.header.pn <= s.nr + MAX_SKIP
    ensures OutcomeAfter(c, s, e, copy.header, copy.ct, drawn, m).Err?
  {
    assert Row(c, s, e, texts, done, copy.chain, copy.header.n) && Row(c, s, e, texts, done, m.chain, m.header.n);
    assert Differ(copy.chain, e - 1);
    hide Decrypt;
    PacketIsExact(c, s, e, texts, done, copy.header, copy.ct, drawn, m);
  }
}
