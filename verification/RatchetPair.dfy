/**
 Two honest ratchets over a network that reorders and drops. The i-th ratchet
 key pair of a conversation is `secrets(i)`: Bob owns the even ones, starting
 with his signed prekey, Alice the odd ones. The owner of `secrets(e)` with
 `e > 0` sends on chain `e`.
 */
module RatchetPair {
  import opened Common
  import opened Crypto
  import opened RatchetSpec

  /** What the two sides agreed on, and the secrets they will draw. */
  datatype Session = Session(sk: Key, ad: seq<Point>, secrets: nat -> Secret)

  ghost predicate Differ(i: nat, j: nat) { i != j }

  ghost predicate DrawsAreDistinct(c: Session) {
    forall i: nat, j: nat {:trigger Differ(i, j)} :: Differ(i, j) ==> c.secrets(i) != c.secrets(j)
  }

  ghost function RootKey(c: Session, e: nat): Key {
    if e == 0 then c.sk else Root(RootKey(c, e - 1), Dh(c.secrets(e - 1), c.secrets(e)))
  }

  ghost function ChainKey(c: Session, e: nat): Key
    requires e > 0
  {
    Chain(RootKey(c, e - 1), Dh(c.secrets(e - 1), c.secrets(e)))
  }

  /** The key of message `n` of chain `j`. */
  ghost function MessageKey(c: Session, j: nat, n: nat): Key
    requires j > 0
  {
    Message(Advance(ChainKey(c, j), n))
  }

  // ----- one side -----

  /** `texts[j]` is what has been sent on chain `j`; `done` what was decrypted. */
  type Texts = seq<seq<bytes>>

  ghost function PreviousLength(texts: Texts, j: nat): nat
    requires j < |texts|
  {
    if j >= 2 then |texts[j - 2]| else 0
  }

  /** Message `n` of chain `j` reached a side at `(e, nr)` as a gap: sent, passed over, not decrypted. */
  ghost predicate PassedOver(e: nat, nr: nat, texts: Texts, done: set<(nat, nat)>, j: nat, n: nat) {
    0 < j < |texts| && j % 2 != e % 2 && n < |texts[j]| && (j + 1 < e || (j + 1 == e && n < nr)) && (j, n) !in done
  }

  /** The retained keys have the row for message `n` of chain `j` exactly when it was passed over. */
  ghost predicate Row(c: Session, s: State, e: nat, texts: Texts, done: set<(nat, nat)>, j: nat, n: nat) {
    var slot := (PublicOf(c.secrets(j)), n);
    if PassedOver(e, s.nr, texts, done, j, n)
    then slot in s.skipped && s.skipped[slot] == MessageKey(c, j, n)
    else slot !in s.skipped
  }

  ghost predicate RatchetPoint(c: Session, p: Point) {
    exists j: nat :: p == PublicOf(c.secrets(j))
  }

  /** The retained keys are exactly the table of messages passed over. */
  ghost predicate TableOk(c: Session, s: State, e: nat, texts: Texts, done: set<(nat, nat)>) {
    && (forall j: nat, n: nat :: Row(c, s, e, texts, done, j, n))
    && (forall slot :: slot in s.skipped ==> RatchetPoint(c, slot.0))
  }

  ghost predicate SendingOk(c: Session, s: State, e: nat, texts: Texts)
    requires e < |texts|
  {
    && s.dhs == c.secrets(e)
    && s.rk == RootKey(c, e)
    && s.ns == |texts[e]|
    && s.pn == PreviousLength(texts, e)
    && s.cks == if e == 0 then None else Some(Advance(ChainKey(c, e), s.ns))
  }

  ghost predicate ReceivingOk(c: Session, s: State, e: nat, texts: Texts)
    requires e < |texts|
  {
    && s.dhr == (if e == 0 then None else Some(PublicOf(c.secrets(e - 1))))
    && s.ckr == (if e < 2 then None else Some(Advance(ChainKey(c, e - 1), s.nr)))
    && s.nr <= if e < 2 then 0 else |texts[e - 1]|
  }

  /** Everything a side at epoch `e` has decrypted lies behind its receiving position. */
  ghost predicate OpenedOk(s: State, e: nat, texts: Texts, done: set<(nat, nat)>) {
    forall j: nat, n: nat :: (j, n) in done && j % 2 != e % 2 ==>
      j < |texts| && n < |texts[j]| && (j + 1 < e || (j + 1 == e && n < s.nr))
  }

  /** One side, whose own current key pair is `secrets(e)`, is where the history says it is. */
  ghost predicate EndOk(c: Session, s: State, e: nat, texts: Texts, done: set<(nat, nat)>) {
    && e < |texts| && texts[0] == []
    && SendingOk(c, s, e, texts)
    && ReceivingOk(c, s, e, texts)
    && TableOk(c, s, e, texts, done)
    && OpenedOk(s, e, texts, done)
  }

  // ----- the network -----

  /** A message in flight; `chain` and `text` record where it came from. */
  datatype Envelope = Envelope(chain: nat, header: Header, ct: Ciphertext, text: bytes)

  /** The message was sent, sealed with its own key, and has not been decrypted. */
  ghost predicate SealedOk(c: Session, texts: Texts, done: set<(nat, nat)>, m: Envelope) {
    && 0 < m.chain < |texts| && m.header.n < |texts[m.chain]| && (m.chain, m.header.n) !in done
    && m.header.dh == PublicOf(c.secrets(m.chain))
    && m.text == texts[m.chain][m.header.n]
    && m.ct == SealUnder(MessageKey(c, m.chain, m.header.n), m.header, m.text, c.ad)
  }

  ghost predicate EnvelopeOk(c: Session, texts: Texts, done: set<(nat, nat)>, m: Envelope) {
    SealedOk(c, texts, done, m) && m.header.pn == PreviousLength(texts, m.chain)
  }

  /** What a receiver can check before the call: no gap it is asked to bridge exceeds `MAX_SKIP`. */
  predicate WithinGap(s: State, header: Header) {
    if (header.dh, header.n) in s.skipped then true
    else if s.dhr == Some(header.dh) then header.n <= s.nr + MAX_SKIP
    else (s.ckr.Some? ==> header.pn <= s.nr + MAX_SKIP) && header.n <= MAX_SKIP
  }

  // ----- receiving -----

  lemma {:induction false} AdvanceAdds(ck: Key, a: nat, b: nat)
    ensures Advance(Advance(ck, a), b) == Advance(ck, a + b)
  {
    if b > 0 {
      AdvanceAdds(ck, a, b - 1);
    }
  }

  lemma SkipKeepsRow(c: Session, s: State, e: nat, texts: Texts, done: set<(nat, nat)>, count: nat, j: nat, n: nat)
    requires e < |texts| && e >= 2 && ReceivingOk(c, s, e, texts) && DrawsAreDistinct(c)
    requires s.nr + count <= |texts[e - 1]| && OpenedOk(s, e, texts, done)
    requires Row(c, s, e, texts, done, j, n)
    ensures Row(c, SkipMany(s, count), e, texts, done, j, n)
  {
    SkipManyFrame(s, count);
    SkipManyKeys(s, count, (PublicOf(c.secrets(j)), n));
    if Differ(j, e - 1) {
    } else if s.nr <= n {
      AdvanceAdds(ChainKey(c, j), s.nr, n - s.nr);
    }
  }

  lemma SkipKeepsEnd(c: Session, s: State, e: nat, texts: Texts, done: set<(nat, nat)>, count: nat)
    requires EndOk(c, s, e, texts, done) && DrawsAreDistinct(c)
    requires e >= 2 && s.nr + count <= |texts[e - 1]|
    ensures EndOk(c, SkipMany(s, count), e, texts, done)
    ensures SkipMany(s, count).nr == s.nr + count
  {
    var t := SkipMany(s, count);
    SkipManyFrame(s, count);
    AdvanceAdds(ChainKey(c, e - 1), s.nr, count);
    forall j: nat, n: nat ensures Row(c, t, e, texts, done, j, n) {
      SkipKeepsRow(c, s, e, texts, done, count, j, n);
    }
    forall slot | slot in t.skipped ensures RatchetPoint(c, slot.0) {
      SkipManyKeys(s, count, slot);
    }
  }

  /** Decrypting message `n` of chain `j` changes its row and no other. */
  lemma OpenKeepsRow(c: Session, s: State, t: State, e: nat, texts: Texts, done: set<(nat, nat)>, m: Envelope,
      j: nat, n: nat)
    requires DrawsAreDistinct(c) && SealedOk(c, texts, done, m) && Row(c, s, e, texts, done, j, n)
    requires
      || (PassedOver(e, s.nr, texts, done, m.chain, m.header.n) && t.nr == s.nr &&
        t.skipped == s.skipped - {(m.header.dh, m.header.n)})
      || (m.chain + 1 == e && m.header.n == s.nr && t.nr == s.nr + 1 && t.skipped == s.skipped)
    ensures Row(c, t, e, texts, done + {(m.chain, m.header.n)}, j, n)
  {
    assert Differ(j, m.chain) || j == m.chain;
  }

  /** A message whose key was retained when its position was passed over. */
  lemma FromTable(c: Session, s: State, e: nat, texts: Texts, done: set<(nat, nat)>, m: Envelope)
    requires EndOk(c, s, e, texts, done) && DrawsAreDistinct(c)
    requires SealedOk(c, texts, done, m) && PassedOver(e, s.nr, texts, done, m.chain, m.header.n)
    ensures (m.header.dh, m.header.n) in s.skipped
    ensures var t := s.(skipped := s.skipped - {(m.header.dh, m.header.n)});
      && OpenUnder(s.skipped[(m.header.dh, m.header.n)], m.header, m.ct, c.ad) == Ok(m.text)
      && EndOk(c, t, e, texts, done + {(m.chain, m.header.n)})
  {
    assert Row(c, s, e, texts, done, m.chain, m.header.n);
    var t := s.(skipped := s.skipped - {(m.header.dh, m.header.n)});
    var done' := done + {(m.chain, m.header.n)};
    forall j: nat, n: nat ensures Row(c, t, e, texts, done', j, n) {
      assert Row(c, s, e, texts, done, j, n);
      OpenKeepsRow(c, s, t, e, texts, done, m, j, n);
    }
  }

  /** A message of the current receiving chain that has not been passed over. */
  lemma InChain(c: Session, s: State, e: nat, texts: Texts, done: set<(nat, nat)>, m: Envelope)
    requires EndOk(c, s, e, texts, done) && DrawsAreDistinct(c)
    requires SealedOk(c, texts, done, m) && m.chain + 1 == e && s.nr <= m.header.n
    ensures var r := DecryptInChain(s, m.header, m.ct, c.ad);
      && r.state.dhs == s.dhs
      && if m.header.n <= s.nr + MAX_SKIP
         then r.result == Ok(m.text) && EndOk(c, r.state, e, texts, done + {(m.chain, m.header.n)})
         else r.result == Err(TooManySkipped) && r.state == s
  {
    if m.header.n <= s.nr + MAX_SKIP {
      var t := SkipMany(s, m.header.n - s.nr);
      SkipKeepsEnd(c, s, e, texts, done, m.header.n - s.nr);
      var t' := t.(ckr := Some(NextChain(t.ckr.value)), nr := t.nr + 1);
      assert DecryptInChain(s, m.header, m.ct, c.ad).state == t';
      forall j: nat, n: nat ensures Row(c, t', e, texts, done + {(m.chain, m.header.n)}, j, n) {
        assert Row(c, t, e, texts, done, j, n);
        OpenKeepsRow(c, t, t', e, texts, done, m, j, n);
      }
    }
  }

  /** The DH step onto chain `e + 1`, once chain `e - 1` has been passed over completely. */
  lemma TurnsOver(c: Session, s: State, e: nat, texts: Texts, done: set<(nat, nat)>, header: Header)
    requires EndOk(c, s, e, texts, done) && DrawsAreDistinct(c)
    requires |texts| == e + 2 && header.dh == PublicOf(c.secrets(e + 1))
    requires e >= 2 ==> s.nr == |texts[e - 1]|
    ensures var r := DhRatchet(s, header, c.secrets(e + 2));
      r.result.Ok? && r.state.nr == 0 && EndOk(c, r.state, e + 2, texts + [[]], done)
  {
    var t := DhRatchet(s, header, c.secrets(e + 2)).state;
    var texts', e' := texts + [[]], e + 2;
    assert t.rk == RootKey(c, e + 2) by {
      assert RootKey(c, e + 1) == Root(RootKey(c, e), Dh(c.secrets(e), c.secrets(e + 1)));
    }
    forall j: nat, n: nat ensures Row(c, t, e', texts', done, j, n) {
      assert Row(c, s, e, texts, done, j, n);
      assert PassedOver(e, s.nr, texts, done, j, n) == PassedOver(e', t.nr, texts', done, j, n);
    }
  }

  /** Where a delivery leaves the receiver: two epochs on exactly if its key pair changed. */
  ghost function EpochAfter(s: State, t: State, e: nat): nat {
    if t.dhs != s.dhs then e + 2 else e
  }

  ghost function TextsAfter(s: State, t: State, texts: Texts): Texts {
    if t.dhs != s.dhs then texts + [[]] else texts
  }

  /** The first message to arrive from a chain the receiver has not seen. */
  lemma NewChain(c: Session, s: State, e: nat, texts: Texts, done: set<(nat, nat)>, m: Envelope)
    requires EndOk(c, s, e, texts, done) && DrawsAreDistinct(c)
    requires EnvelopeOk(c, texts, done, m) && m.chain == e + 1 && |texts| == e + 2
    ensures var r := DecryptNewChain(s, m.header, m.ct, c.ad, c.secrets(e + 2));
      var ok := (s.ckr.Some? ==> m.header.pn <= s.nr + MAX_SKIP) && m.header.n <= MAX_SKIP;
      && r.result == (if ok then Ok(m.text) else Err(TooManySkipped))
      && EndOk(c, r.state, EpochAfter(s, r.state, e), TextsAfter(s, r.state, texts),
               if ok then done + {(m.chain, m.header.n)} else done)
  {
    hide SkipMany, Row, DecryptInChain;
    if s.ckr.Some? ==> m.header.pn <= s.nr + MAX_SKIP {
      if e >= 2 {
        SkipKeepsEnd(c, s, e, texts, done, m.header.pn - s.nr);
      }
      var t := SkipMessageKeys(s, m.header.pn).state;
      var u := DhRatchet(t, m.header, c.secrets(e + 2)).state;
      TurnsOver(c, t, e, texts, done, m.header);
      InChain(c, u, e + 2, texts + [[]], done, m);
      assert Differ(e, e + 2);
    }
  }

  /** What handing `m` to a receiver at `(s, e)` with effect `r` must have achieved. */
  ghost predicate Faithful(c: Session, s: State, e: nat, texts: Texts, done: set<(nat, nat)>, m: Envelope,
      r: Effect<bytes>) {
    var ok := WithinGap(s, m.header);
    && r.result == (if ok then Ok(m.text) else Err(TooManySkipped))
    && EndOk(c, r.state, EpochAfter(s, r.state, e), TextsAfter(s, r.state, texts),
             if ok then done + {(m.chain, m.header.n)} else done)
  }

  /** Every honest message decrypts to what was sent, exactly when its gaps are within bounds. */
  lemma Receives(c: Session, s: State, e: nat, texts: Texts, done: set<(nat, nat)>, m: Envelope)
    requires EndOk(c, s, e, texts, done) && DrawsAreDistinct(c)
    requires EnvelopeOk(c, texts, done, m)
    requires m.chain % 2 != e % 2 && |texts| <= e + 2
    ensures Faithful(c, s, e, texts, done, m, Decrypt(s, m.header, m.ct, c.ad, c.secrets(e + 2)))
  {
    assert Row(c, s, e, texts, done, m.chain, m.header.n);
    if PassedOver(e, s.nr, texts, done, m.chain, m.header.n) {
      FromTable(c, s, e, texts, done, m);
    } else if m.chain + 1 == e {
      InChain(c, s, e, texts, done, m);
    } else {
      NewChain(c, s, e, texts, done, m);
      assert e > 0 ==> Differ(e - 1, e + 1);
    }
  }

  // ----- the two sides and the network -----

  datatype Party = Alice | Bob

  /** Alice's and Bob's ratchets, with the history that says where they stand. */
  datatype World = World(
    alice: State, bob: State, aliceEpoch: nat, bobEpoch: nat,
    texts: Texts, done: set<(nat, nat)>, net: set<Envelope>)
  {
    ghost function Ratchet(p: Party): State { if p.Alice? then alice else bob }
    ghost function Epoch(p: Party): nat { if p.Alice? then aliceEpoch else bobEpoch }

    ghost function With(p: Party, s: State, e: nat): World {
      if p.Alice? then this.(alice := s, aliceEpoch := e) else this.(bob := s, bobEpoch := e)
    }
  }

  /** Odd chains are Alice's, so their messages go to Bob. */
  ghost function Recipient(m: Envelope): Party { if m.chain % 2 == 1 then Bob else Alice }

  /** The two ratchets as `init_alice` and `init_bob` leave them. */
  ghost function Start(c: Session): World {
    World(InitAlice(c.sk, PublicOf(c.secrets(0)), c.secrets(1)).value,
          InitBob(c.sk, c.secrets(0)), 1, 0, [[], []], {}, {})
  }

  datatype Event =
    | Send(from: Party, text: bytes)
    | Deliver(envelope: Envelope)
    | Drop(envelope: Envelope)

  /** A message is delivered at most once: it leaves the network when it is. */
  ghost predicate Enabled(w: World, event: Event) {
    event.Send? || event.envelope in w.net
  }

  ghost function DeliveryEffect(c: Session, w: World, m: Envelope): Effect<bytes> {
    var p := Recipient(m);
    Decrypt(w.Ratchet(p), m.header, m.ct, c.ad, c.secrets(w.Epoch(p) + 2))
  }

  /** The world after `m` was handed to its recipient with effect `r`. */
  ghost function Landed(w: World, m: Envelope, r: Effect<bytes>): World {
    var p := Recipient(m);
    var s := w.Ratchet(p);
    w.With(p, r.state, EpochAfter(s, r.state, w.Epoch(p)))
     .(texts := TextsAfter(s, r.state, w.texts),
       done := if r.result.Ok? then w.done + {(m.chain, m.header.n)} else w.done,
       net := w.net - {m})
  }

  ghost function Next(c: Session, w: World, event: Event): World {
    match event
    case Send(p, text) =>
      var r := Encrypt(w.Ratchet(p), text, c.ad);
      var e := w.Epoch(p);
      if r.result.Err? || e >= |w.texts| then w
      else w.With(p, r.state, e)
            .(texts := w.texts[e := w.texts[e] + [text]],
              net := w.net + {Envelope(e, r.result.value.0, r.result.value.1, text)})
    case Deliver(m) => Landed(w, m, DeliveryEffect(c, w, m))
    case Drop(m) => w.(net := w.net - {m})
  }

  /** The invariant of every run: the two sides are always exactly one epoch apart. */
  ghost predicate PairOk(c: Session, w: World) {
    && w.aliceEpoch % 2 == 1 && w.bobEpoch % 2 == 0
    && (w.aliceEpoch == w.bobEpoch + 1 || w.bobEpoch == w.aliceEpoch + 1)
    && |w.texts| == (if w.aliceEpoch > w.bobEpoch then w.aliceEpoch else w.bobEpoch) + 1
    && EndOk(c, w.alice, w.aliceEpoch, w.texts, w.done)
    && EndOk(c, w.bob, w.bobEpoch, w.texts, w.done)
    && NetOk(c, w.texts, w.done, w.net)
  }

  ghost predicate NetOk(c: Session, texts: Texts, done: set<(nat, nat)>, net: set<Envelope>) {
    forall m :: m in net ==> EnvelopeOk(c, texts, done, m)
  }

  lemma StartIsOk(c: Session)
    ensures PairOk(c, Start(c))
  {
    var w := Start(c);
    assert RootKey(c, 1) == Root(RootKey(c, 0), Dh(c.secrets(0), c.secrets(1)));
    forall j: nat, n: nat ensures Row(c, w.alice, 1, w.texts, {}, j, n) && Row(c, w.bob, 0, w.texts, {}, j, n) {
    }
  }

  /** Sending on one's own chain moves neither side's receiving position. */
  lemma SendKeepsRow(c: Session, s: State, t: State, f: nat, e: nat, texts: Texts, text: bytes,
      done: set<(nat, nat)>, j: nat, n: nat)
    requires e < |texts| && e != 0 && (f == e || f == e + 1 || e == f + 1)
    requires f < |texts| && t.nr == s.nr && t.skipped == s.skipped && s.nr <= if f < 2 then 0 else |texts[f - 1]|
    requires Row(c, s, f, texts, done, j, n)
    ensures Row(c, t, f, texts[e := texts[e] + [text]], done, j, n)
  {
    assert PassedOver(f, s.nr, texts, done, j, n) == PassedOver(f, t.nr, texts[e := texts[e] + [text]], done, j, n);
  }

  lemma SendKeepsEnd(c: Session, s: State, t: State, f: nat, e: nat, texts: Texts, text: bytes, done: set<(nat, nat)>)
    requires EndOk(c, s, f, texts, done)
    requires 0 < e < |texts| && (f == e || f == e + 1 || e == f + 1)
    requires t == if f == e then s.(cks := Some(NextChain(s.cks.value)), ns := s.ns + 1) else s
    ensures EndOk(c, t, f, texts[e := texts[e] + [text]], done)
  {
    var texts' := texts[e := texts[e] + [text]];
    forall j: nat, n: nat ensures Row(c, t, f, texts', done, j, n) {
      assert Row(c, s, f, texts, done, j, n);
      SendKeepsRow(c, s, t, f, e, texts, text, done, j, n);
    }
  }

  /** A message in flight is not touched by another one sent on the newest chain or the one before. */
  lemma SendKeepsEnvelope(c: Session, texts: Texts, done: set<(nat, nat)>, e: nat, text: bytes, m: Envelope)
    requires EnvelopeOk(c, texts, done, m) && e < |texts| <= e + 2
    ensures EnvelopeOk(c, texts[e := texts[e] + [text]], done, m)
  {
    hide MessageKey;
  }

  /** What a side at epoch `e` puts on the network, and where it stands then. */
  lemma SendSeals(c: Session, s: State, e: nat, texts: Texts, done: set<(nat, nat)>, text: bytes)
    requires e < |texts| && SendingOk(c, s, e, texts) && (e, |texts[e]|) !in done
    ensures var r := Encrypt(s, text, c.ad);
      && (r.result.Ok? <==> e > 0)
      && (e > 0 ==>
            && r.state == s.(cks := Some(NextChain(s.cks.value)), ns := s.ns + 1)
            && EnvelopeOk(c, texts[e := texts[e] + [text]], done,
                          Envelope(e, r.result.value.0, r.result.value.1, text)))
  {
    hide ChainKey;
  }

  /** Nothing that is still to be sent has been decrypted. */
  lemma UnsentIsNotDone(s: State, f: nat, texts: Texts, done: set<(nat, nat)>, e: nat)
    requires OpenedOk(s, f, texts, done) && e < |texts| && e % 2 != f % 2
    ensures (e, |texts[e]|) !in done
  {
  }

  lemma SendKeepsNet(c: Session, texts: Texts, done: set<(nat, nat)>, net: set<Envelope>, e: nat, text: bytes,
      m: Envelope)
    requires NetOk(c, texts, done, net) && e < |texts| <= e + 2
    requires EnvelopeOk(c, texts[e := texts[e] + [text]], done, m)
    ensures NetOk(c, texts[e := texts[e] + [text]], done, net + {m})
  {
    hide EnvelopeOk;
    forall o | o in net + {m} ensures EnvelopeOk(c, texts[e := texts[e] + [text]], done, o) {
      if o in net {
        SendKeepsEnvelope(c, texts, done, e, text, o);
      }
    }
  }

  lemma SendKeepsPair(c: Session, w: World, p: Party, text: bytes)
    requires PairOk(c, w)
    ensures PairOk(c, Next(c, w, Send(p, text)))
  {
    var s, e := w.Ratchet(p), w.Epoch(p);
    var t, f := if p.Alice? then w.bob else w.alice, if p.Alice? then w.bobEpoch else w.aliceEpoch;
    assert SendingOk(c, s, e, w.texts) && OpenedOk(t, f, w.texts, w.done);
    hide EndOk, NetOk, EnvelopeOk, Encrypt, SendingOk, OpenedOk;
    UnsentIsNotDone(t, f, w.texts, w.done, e);
    SendSeals(c, s, e, w.texts, w.done, text);
    if e > 0 {
      var r := Encrypt(s, text, c.ad);
      SendKeepsEnd(c, s, r.state, e, e, w.texts, text, w.done);
      SendKeepsEnd(c, t, t, f, e, w.texts, text, w.done);
      SendKeepsNet(c, w.texts, w.done, w.net, e, text, Envelope(e, r.result.value.0, r.result.value.1, text));
    }
  }

  /** The sender of a message is not moved by its delivery. */
  lemma DeliveryKeepsSender(c: Session, s: State, f: nat, texts: Texts, done: set<(nat, nat)>, j: nat, n: nat,
      grown: bool)
    requires EndOk(c, s, f, texts, done) && j % 2 == f % 2
    ensures EndOk(c, s, f, if grown then texts + [[]] else texts, done + {(j, n)})
    ensures EndOk(c, s, f, if grown then texts + [[]] else texts, done)
  {
    var texts', done' := if grown then texts + [[]] else texts, done + {(j, n)};
    forall i: nat, k: nat ensures Row(c, s, f, texts', done', i, k) && Row(c, s, f, texts', done, i, k) {
      assert Row(c, s, f, texts, done, i, k);
      assert PassedOver(f, s.nr, texts, done, i, k) == PassedOver(f, s.nr, texts', done', i, k);
      assert PassedOver(f, s.nr, texts, done, i, k) == PassedOver(f, s.nr, texts', done, i, k);
    }
  }

  lemma DeliveryKeepsNet(c: Session, texts: Texts, done: set<(nat, nat)>, net: set<Envelope>, m: Envelope, grown: bool)
    requires NetOk(c, texts, done, net) && m in net
    ensures var texts' := if grown then texts + [[]] else texts;
      NetOk(c, texts', done, net - {m}) && NetOk(c, texts', done + {(m.chain, m.header.n)}, net - {m})
  {
    forall o | o in net - {m} ensures (o.chain, o.header.n) != (m.chain, m.header.n) {
      assert EnvelopeOk(c, texts, done, o) && EnvelopeOk(c, texts, done, m);
    }
  }

  /** What `Receives` asks of the recipient. */
  ghost predicate Ready(c: Session, w: World, m: Envelope) {
    var p := Recipient(m);
    && EndOk(c, w.Ratchet(p), w.Epoch(p), w.texts, w.done)
    && EnvelopeOk(c, w.texts, w.done, m)
    && m.chain % 2 != w.Epoch(p) % 2 && |w.texts| <= w.Epoch(p) + 2
  }

  lemma DeliveryEffectIsFaithful(c: Session, w: World, m: Envelope)
    requires Ready(c, w, m) && DrawsAreDistinct(c)
    ensures var p := Recipient(m);
      Faithful(c, w.Ratchet(p), w.Epoch(p), w.texts, w.done, m, DeliveryEffect(c, w, m))
  {
    hide Decrypt;
    var p := Recipient(m);
    Receives(c, w.Ratchet(p), w.Epoch(p), w.texts, w.done, m);
  }

  lemma InFlightIsReady(c: Session, w: World, m: Envelope)
    requires PairOk(c, w) && m in w.net
    ensures Ready(c, w, m)
  {
    assert EnvelopeOk(c, w.texts, w.done, m);
  }

  lemma LandedKeepsPair(c: Session, w: World, m: Envelope, r: Effect<bytes>)
    requires PairOk(c, w) && m in w.net
    requires var p := Recipient(m); Faithful(c, w.Ratchet(p), w.Epoch(p), w.texts, w.done, m, r)
    ensures PairOk(c, Landed(w, m, r))
  {
    hide TableOk, OpenedOk, EnvelopeOk, MessageKey, ChainKey, RootKey;
    var p := Recipient(m);
    var grown := r.state.dhs != w.Ratchet(p).dhs;
    DeliveryKeepsNet(c, w.texts, w.done, w.net, m, grown);
    if p.Alice? {
      DeliveryKeepsSender(c, w.bob, w.bobEpoch, w.texts, w.done, m.chain, m.header.n, grown);
    } else {
      DeliveryKeepsSender(c, w.alice, w.aliceEpoch, w.texts, w.done, m.chain, m.header.n, grown);
    }
  }

  // ----- runs -----

  ghost predicate Step(c: Session, w: World, event: Event, w': World) {
    Enabled(w, event) && w' == Next(c, w, event)
  }

  /** `worlds` is what `events` lead through, from the two fresh ratchets on. */
  ghost predicate IsRun(c: Session, worlds: seq<World>, events: seq<Event>) {
    && |worlds| == |events| + 1 && worlds[0] == Start(c)
    && (forall i :: 0 <= i < |events| ==> Step(c, worlds[i], events[i], worlds[i + 1]))
  }

  lemma StepKeepsPair(c: Session, w: World, event: Event, w': World)
    requires DrawsAreDistinct(c) && PairOk(c, w) && Step(c, w, event, w')
    ensures PairOk(c, w')
  {
    match event
    case Send(p, text) => SendKeepsPair(c, w, p, text);
    case Deliver(m) =>
      hide Decrypt;
      InFlightIsReady(c, w, m);
      DeliveryEffectIsFaithful(c, w, m);
      LandedKeepsPair(c, w, m, DeliveryEffect(c, w, m));
    case Drop(m) =>
  }

  lemma {:induction false} RunIsOk(c: Session, worlds: seq<World>, events: seq<Event>, k: nat)
    requires DrawsAreDistinct(c) && IsRun(c, worlds, events) && k < |worlds|
    ensures PairOk(c, worlds[k])
  {
    if k == 0 {
      StartIsOk(c);
    } else {
      RunIsOk(c, worlds, events, k - 1);
      StepKeepsPair(c, worlds[k - 1], events[k - 1], worlds[k]);
    }
  }

  /**
   In every run, a message that is still in flight decrypts to exactly the
   plaintext that was sent, if and only if the gaps it spans are within
   `MAX_SKIP`; otherwise the call answers `TooManySkipped`. No other outcome
   exists, across any number of DH steps and any reordering and loss.
   */
  lemma DeliveryIsFaithful(c: Session, worlds: seq<World>, events: seq<Event>, k: nat, m: Envelope)
    requires DrawsAreDistinct(c) && IsRun(c, worlds, events) && k < |worlds| && m in worlds[k].net
    ensures DeliveryEffect(c, worlds[k], m).result
         == if WithinGap(worlds[k].Ratchet(Recipient(m)), m.header) then Ok(m.text) else Err(TooManySkipped)
  {
    hide Decrypt;
    RunIsOk(c, worlds, events, k);
    InFlightIsReady(c, worlds[k], m);
    DeliveryEffectIsFaithful(c, worlds[k], m);
  }

  /** If no chain has grown past `MAX_SKIP` messages, every delivery succeeds. */
  lemma ShortChainsAlwaysDeliver(c: Session, worlds: seq<World>, events: seq<Event>, k: nat, m: Envelope)
    requires DrawsAreDistinct(c) && IsRun(c, worlds, events) && k < |worlds| && m in worlds[k].net
    requires forall j :: 0 <= j < |worlds[k].texts| ==> |worlds[k].texts[j]| <= MAX_SKIP
    ensures DeliveryEffect(c, worlds[k], m).result == Ok(m.text)
  {
    hide Decrypt;
    RunIsOk(c, worlds, events, k);
    DeliveryIsFaithful(c, worlds, events, k, m);
    InFlightIsReady(c, worlds[k], m);
  }

  /** A retained key is the row of some passed-over message, and every such message has its row. */
  ghost predicate IsTable(c: Session, s: State, e: nat, texts: Texts, done: set<(nat, nat)>) {
    forall slot ::
      && (slot in s.skipped ==>
            exists j: nat :: slot.0 == PublicOf(c.secrets(j)) && PassedOver(e, s.nr, texts, done, j, slot.1))
      && (forall j: nat :: slot.0 == PublicOf(c.secrets(j)) && PassedOver(e, s.nr, texts, done, j, slot.1)
            ==> slot in s.skipped && s.skipped[slot] == MessageKey(c, j, slot.1))
  }

  lemma TableLookup(c: Session, s: State, e: nat, texts: Texts, done: set<(nat, nat)>)
    requires TableOk(c, s, e, texts, done)
    ensures IsTable(c, s, e, texts, done)
  {
    forall slot: (Point, nat), j: nat | slot.0 == PublicOf(c.secrets(j))
      ensures slot in s.skipped <==> PassedOver(e, s.nr, texts, done, j, slot.1)
      ensures slot in s.skipped ==> s.skipped[slot] == MessageKey(c, j, slot.1)
    {
      assert Row(c, s, e, texts, done, j, slot.1);
      assert slot == (PublicOf(c.secrets(j)), slot.1);
    }
  }

  /**
   In every run the retained keys of each side are exactly the simple table: one
   row for each message sent on a chain the side has left, or passed over on the
   chain it is on, that it has not decrypted. And no chain is ever missed: the
   sides' DH steps alternate, so a side is at most one chain behind.
   */
  lemma RetainedKeysAreTheTable(c: Session, worlds: seq<World>, events: seq<Event>, k: nat, p: Party)
    requires DrawsAreDistinct(c) && IsRun(c, worlds, events) && k < |worlds|
    ensures var w := worlds[k];
      IsTable(c, w.Ratchet(p), w.Epoch(p), w.texts, w.done) && |w.texts| <= w.Epoch(p) + 2
  {
    var w := worlds[k];
    RunIsOk(c, worlds, events, k);
    TableLookup(c, w.Ratchet(p), w.Epoch(p), w.texts, w.done);
  }
}
