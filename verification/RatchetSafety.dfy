/**
 What one ratchet keeps over every run, whatever it is fed: forged headers,
 repeated messages, degenerate public keys and DH steps that stop half way.

 The idea is one order on keys. `Within(k, t)` says that `t` can be computed
 from `k` by key-derivation steps. At every moment the keys a ratchet holds are
 an antichain of that order, and every message key it has used is above none of
 them.
 */
module RatchetSafety {
  import opened Common
  import opened Crypto
  import opened RatchetSpec

  // ----- the order on keys -----

  /** `k` is `t`, or lies on the chain of derivations that produced `t`. */
  ghost predicate Within(k: Key, t: Key) {
    k == t ||
    match t
    case Root(rk, _) => Within(k, rk)
    case Chain(rk, _) => Within(k, rk)
    case NextChain(ck) => Within(k, ck)
    case Message(ck) => Within(k, ck)
    case _ => false
  }

  ghost function Height(t: Key): nat {
    match t
    case Root(rk, _) => Height(rk) + 1
    case Chain(rk, _) => Height(rk) + 1
    case NextChain(ck) => Height(ck) + 1
    case Message(ck) => Height(ck) + 1
    case _ => 0
  }

  lemma {:induction t} WithinHeight(k: Key, t: Key)
    requires Within(k, t)
    ensures Height(k) <= Height(t)
  {
  }

  lemma {:induction c} WithinTransitive(a: Key, b: Key, c: Key)
    requires Within(a, b) && Within(b, c)
    ensures Within(a, c)
  {
  }

  // ----- the keys a ratchet holds -----

  datatype Slot = RootSlot | SendSlot | ReceiveSlot | KeptSlot(dh: Point, n: nat)

  ghost function Holds(s: State, a: Slot): Option<Key> {
    match a
    case RootSlot => Some(s.rk)
    case SendSlot => s.cks
    case ReceiveSlot => s.ckr
    case KeptSlot(dh, n) => if (dh, n) in s.skipped then Some(s.skipped[(dh, n)]) else None
  }

  /** No held key can be computed from another one. */
  ghost predicate Antichain(s: State) {
    forall a, b :: a != b && Holds(s, a).Some? && Holds(s, b).Some? ==> !Within(Holds(s, a).value, Holds(s, b).value)
  }

  /** `u` can be computed from no held key. */
  ghost predicate Gone(s: State, u: Key) {
    forall a :: Holds(s, a).Some? ==> !Within(Holds(s, a).value, u)
  }

  /** Every key held in `t` was computed from some key held in `s`. */
  ghost predicate ComesFrom(s: State, t: State) {
    forall a :: Holds(t, a).Some? ==> Below(s, Holds(t, a).value)
  }

  ghost predicate Below(s: State, k: Key) {
    exists b :: Holds(s, b).Some? && Within(Holds(s, b).value, k)
  }

  /** One or more ratchet steps that use no message key. */
  ghost predicate Quiet(s: State, t: State) {
    (Antichain(s) ==> Antichain(t)) && ComesFrom(s, t)
  }

  lemma QuietReflexive(s: State)
    ensures Quiet(s, s)
  {
    assert forall k :: Within(k, k);
  }

  lemma QuietTransitive(s: State, t: State, u: State)
    requires Quiet(s, t) && Quiet(t, u)
    ensures Quiet(s, u)
  {
    forall a | Holds(u, a).Some? ensures Below(s, Holds(u, a).value) {
      var b :| Holds(t, b).Some? && Within(Holds(t, b).value, Holds(u, a).value);
      var c :| Holds(s, c).Some? && Within(Holds(s, c).value, Holds(t, b).value);
      WithinTransitive(Holds(s, c).value, Holds(t, b).value, Holds(u, a).value);
    }
  }

  lemma GoneStaysGone(s: State, t: State, u: Key)
    requires ComesFrom(s, t) && Gone(s, u)
    ensures Gone(t, u)
  {
    forall a | Holds(t, a).Some? ensures !Within(Holds(t, a).value, u) {
      if Within(Holds(t, a).value, u) {
        var b :| Holds(s, b).Some? && Within(Holds(s, b).value, Holds(t, a).value);
        WithinTransitive(Holds(s, b).value, Holds(t, a).value, u);
      }
    }
  }

  /** `x` is one derivation step away from `k`. */
  ghost predicate ChildOf(x: Key, k: Key) {
    match x
    case Root(rk, _) => rk == k
    case Chain(rk, _) => rk == k
    case NextChain(ck) => ck == k
    case Message(ck) => ck == k
    case _ => false
  }

  lemma SiblingsUnrelated(k: Key, x: Key, y: Key)
    requires ChildOf(x, k) && ChildOf(y, k) && x != y
    ensures !Within(x, y) && Within(k, x)
  {
    if Within(x, y) {
      WithinHeight(x, k);
    }
  }

  /** A key unrelated to `k` is unrelated to the children of `k`. */
  lemma UnrelatedToChild(z: Key, k: Key, x: Key)
    requires ChildOf(x, k) && !Within(z, k) && !Within(k, z)
    ensures !Within(z, x) && !Within(x, z)
  {
    if Within(x, z) {
      WithinTransitive(k, x, z);
    }
  }

  /**
   The one shape every step has: a held key `k` is replaced by children of it in
   slots `a` and `b`, and every other slot keeps its key or loses it.
   */
  lemma Fork(s: State, t: State, a: Slot, b: Slot)
    requires a != b && Holds(s, a).Some?
    requires forall c :: c != a && c != b ==> Holds(t, c) == Holds(s, c) || Holds(t, c).None?
    requires Holds(t, a).Some? ==> ChildOf(Holds(t, a).value, Holds(s, a).value)
    requires Holds(t, b).Some? ==> Holds(t, b) == Holds(s, b) || ChildOf(Holds(t, b).value, Holds(s, a).value)
    requires Holds(t, a).Some? && Holds(t, b).Some? && Holds(t, b) != Holds(s, b) ==> Holds(t, a) != Holds(t, b)
    ensures Quiet(s, t)
  {
    var k := Holds(s, a).value;
    forall c | Holds(t, c).Some? ensures Below(s, Holds(t, c).value) {
      if Holds(t, c) != Holds(s, c) {
        assert Within(k, Holds(t, c).value);
      }
    }
    if Antichain(s) {
      forall c, d | c != d && Holds(t, c).Some? && Holds(t, d).Some?
        ensures !Within(Holds(t, c).value, Holds(t, d).value)
      {
        var x, y := Holds(t, c).value, Holds(t, d).value;
        if ChildOf(x, k) && ChildOf(y, k) && x != y {
          SiblingsUnrelated(k, x, y);
        } else if Holds(t, c) != Holds(s, c) && Holds(t, d) == Holds(s, d) && d != a {
          UnrelatedToChild(y, k, x);
        } else if Holds(t, d) != Holds(s, d) && Holds(t, c) == Holds(s, c) && c != a {
          UnrelatedToChild(x, k, y);
        }
      }
    }
  }

  // ----- the operations -----

  lemma SkipOneIsQuiet(s: State)
    ensures Quiet(s, SkipOne(s))
  {
    if s.ckr.Some? && s.dhr.Some? {
      Fork(s, SkipOne(s), ReceiveSlot, KeptSlot(s.dhr.value, s.nr));
    }
  }

  lemma {:induction false} SkipManyIsQuiet(s: State, count: nat)
    ensures Quiet(s, SkipMany(s, count))
  {
    hide Quiet, SkipOne;
    if count == 0 {
      QuietReflexive(s);
    } else {
      SkipManyIsQuiet(s, count - 1);
      SkipOneIsQuiet(SkipMany(s, count - 1));
      QuietTransitive(s, SkipMany(s, count - 1), SkipMany(s, count));
    }
  }

  lemma SkipMessageKeysIsQuiet(s: State, until: nat)
    ensures Quiet(s, SkipMessageKeys(s, until).state)
  {
    SkipManyIsQuiet(s, if s.nr < until then until - s.nr else 0);
  }

  /** Also when one of the two agreements is refused and the call stops there. */
  lemma DhRatchetIsQuiet(s: State, header: Header, drawn: Secret)
    ensures Quiet(s, DhRatchet(s, header, drawn).state)
  {
    var s1 := s.(pn := s.ns, ns := 0, nr := 0, dhr := Some(header.dh));
    assert Quiet(s, s1) by {
      assert forall a :: Holds(s1, a) == Holds(s, a);
    }
    var dh1 := Agree(s1.dhs, header.dh);
    if dh1.Ok? {
      var s2 := s1.(rk := Root(s.rk, dh1.value), ckr := Some(Chain(s.rk, dh1.value)), dhs := drawn);
      Fork(s1, s2, RootSlot, ReceiveSlot);
      QuietTransitive(s, s1, s2);
      var dh2 := Agree(drawn, header.dh);
      if dh2.Ok? {
        var s3 := s2.(rk := Root(s2.rk, dh2.value), cks := Some(Chain(s2.rk, dh2.value)));
        Fork(s2, s3, RootSlot, SendSlot);
        QuietTransitive(s, s2, s3);
      }
    }
  }

  /** A step from `s` to `t` that hands the message key `u` to the AEAD. */
  ghost predicate Uses(s: State, t: State, u: Key) {
    Quiet(s, t) && Below(s, u) && (Antichain(s) ==> Gone(t, u))
  }

  /** Using the next key of the chain in slot `a`, or the retained key in slot `a`. */
  lemma UseOne(s: State, t: State, a: Slot, u: Key)
    requires Holds(s, a).Some? && a != RootSlot
    requires forall c :: c != a ==> Holds(t, c) == Holds(s, c)
    requires
      || (u == Message(Holds(s, a).value) && Holds(t, a) == Some(NextChain(Holds(s, a).value)))
      || (u == Holds(s, a).value && Holds(t, a) == None)
    ensures Uses(s, t, u)
  {
    var k := Holds(s, a).value;
    Fork(s, t, a, RootSlot);
    assert Within(k, u);
    if Antichain(s) {
      forall c | Holds(t, c).Some? ensures !Within(Holds(t, c).value, u) {
        if c == a {
          SiblingsUnrelated(k, NextChain(k), u);
        } else if u == Message(k) {
          UnrelatedToChild(Holds(s, c).value, k, u);
        }
      }
    }
  }

  lemma QuietThenUses(s: State, t: State, v: State, u: Key)
    requires Quiet(s, t) && Uses(t, v, u)
    ensures Uses(s, v, u)
  {
    QuietTransitive(s, t, v);
    var b :| Holds(t, b).Some? && Within(Holds(t, b).value, u);
    var c :| Holds(s, c).Some? && Within(Holds(s, c).value, Holds(t, b).value);
    WithinTransitive(Holds(s, c).value, Holds(t, b).value, u);
  }

  /** The contract of one call, for both operations. */
  ghost predicate Safe<T>(s: State, e: Effect<T>) {
    match e.used
    case None => Quiet(s, e.state)
    case Some(u) => Uses(s, e.state, u)
  }

  lemma EncryptIsSafe(s: State, plaintext: bytes, ad: seq<Point>)
    ensures Safe(s, Encrypt(s, plaintext, ad))
  {
    if s.cks.Some? {
      UseOne(s, Encrypt(s, plaintext, ad).state, SendSlot, Message(s.cks.value));
    }
  }

  lemma DecryptInChainIsSafe(s: State, header: Header, ct: Ciphertext, ad: seq<Point>)
    ensures Safe(s, DecryptInChain(s, header, ct, ad))
  {
    var skip := SkipMessageKeys(s, header.n);
    SkipMessageKeysIsQuiet(s, header.n);
    if skip.result.Ok? && skip.state.ckr.Some? {
      var e := DecryptInChain(s, header, ct, ad);
      UseOne(skip.state, e.state, ReceiveSlot, e.used.value);
      QuietThenUses(s, skip.state, e.state, e.used.value);
    }
  }

  lemma DecryptIsSafe(s: State, header: Header, ct: Ciphertext, ad: seq<Point>, drawn: Secret)
    ensures Safe(s, Decrypt(s, header, ct, ad, drawn))
  {
    var e := Decrypt(s, header, ct, ad, drawn);
    if (header.dh, header.n) in s.skipped {
      UseOne(s, e.state, KeptSlot(header.dh, header.n), e.used.value);
    } else if s.dhr == Some(header.dh) {
      DecryptInChainIsSafe(s, header, ct, ad);
    } else {
      var skip := SkipMessageKeys(s, header.pn);
      SkipMessageKeysIsQuiet(s, header.pn);
      if skip.result.Ok? {
        var step := DhRatchet(skip.state, header, drawn);
        DhRatchetIsQuiet(skip.state, header, drawn);
        QuietTransitive(s, skip.state, step.state);
        if step.result.Ok? {
          DecryptInChainIsSafe(step.state, header, ct, ad);
          if e.used.Some? {
            QuietThenUses(s, step.state, e.state, e.used.value);
          } else {
            QuietTransitive(s, step.state, e.state);
          }
        }
      }
    }
  }

  // ----- runs -----

  datatype Input =
    | Send(plaintext: bytes, ad: seq<Point>)
    | Receive(header: Header, ct: Ciphertext, ad: seq<Point>, drawn: Secret)

  function After(s: State, input: Input): State {
    match input
    case Send(plaintext, ad) => Encrypt(s, plaintext, ad).state
    case Receive(header, ct, ad, drawn) => Decrypt(s, header, ct, ad, drawn).state
  }

  /** The message key one call hands to the AEAD. */
  function KeyUsed(s: State, input: Input): Option<Key> {
    match input
    case Send(plaintext, ad) => Encrypt(s, plaintext, ad).used
    case Receive(header, ct, ad, drawn) => Decrypt(s, header, ct, ad, drawn).used
  }

  lemma StepIsSafe(s: State, input: Input)
    ensures match KeyUsed(s, input)
      case None => Quiet(s, After(s, input))
      case Some(u) => Uses(s, After(s, input), u)
  {
    match input
    case Send(plaintext, ad) => EncryptIsSafe(s, plaintext, ad);
    case Receive(header, ct, ad, drawn) => DecryptIsSafe(s, header, ct, ad, drawn);
  }

  function Run(s: State, inputs: seq<Input>): State {
    if inputs == [] then s else After(Run(s, inputs[..|inputs| - 1]), inputs[|inputs| - 1])
  }

  /** The message key the call at position `i` of a run hands to the AEAD. */
  function KeyAt(s: State, inputs: seq<Input>, i: nat): Option<Key>
    requires i < |inputs|
  {
    KeyUsed(Run(s, inputs[..i]), inputs[i])
  }

  /** The call at position `i` is a `decrypt` that returned a plaintext. */
  predicate AcceptedAt(s: State, inputs: seq<Input>, i: nat)
    requires i < |inputs|
  {
    inputs[i].Receive? &&
    Decrypt(Run(s, inputs[..i]), inputs[i].header, inputs[i].ct, inputs[i].ad, inputs[i].drawn).result.Ok?
  }

  /** A ratchet as `init_alice` or `init_bob` returns it, over the shared secret `sk`. */
  ghost predicate Initial(s: State, sk: Key) {
    || (exists secret :: s == InitBob(sk, secret))
    || (exists theirs, drawn :: InitAlice(sk, theirs, drawn) == Ok(s))
  }

  lemma InitialIsAntichain(s: State, sk: Key)
    requires Initial(s, sk)
    ensures Antichain(s) && s.Valid() && s.skipped == map[]
  {
    if s.cks.Some? {
      var theirs, drawn :| InitAlice(sk, theirs, drawn) == Ok(s);
      SiblingsUnrelated(sk, s.rk, s.cks.value);
      SiblingsUnrelated(sk, s.cks.value, s.rk);
    }
  }

  lemma {:induction false} RunInvariant(s: State, sk: Key, inputs: seq<Input>)
    requires Initial(s, sk)
    ensures Antichain(Run(s, inputs))
    ensures forall i :: 0 <= i < |inputs| && KeyAt(s, inputs, i).Some? ==>
              Gone(Run(s, inputs), KeyAt(s, inputs, i).value)
  {
    if inputs == [] {
      InitialIsAntichain(s, sk);
    } else {
      var prefix, last := inputs[..|inputs| - 1], inputs[|inputs| - 1];
      var before := Run(s, prefix);
      RunInvariant(s, sk, prefix);
      StepIsSafe(before, last);
      forall i | 0 <= i < |inputs| && KeyAt(s, inputs, i).Some?
        ensures Gone(Run(s, inputs), KeyAt(s, inputs, i).value)
      {
        if i < |prefix| {
          assert inputs[..i] == prefix[..i];
          assert KeyAt(s, inputs, i) == KeyAt(s, prefix, i);
          GoneStaysGone(before, Run(s, inputs), KeyAt(s, inputs, i).value);
        }
      }
    }
  }

  /**
   Over any run no message key is handed to the AEAD twice. Sealing and opening
   calls are not told apart, so a key that sealed never opens either.
   */
  lemma KeysAreUsedOnce(s: State, sk: Key, inputs: seq<Input>, i: nat, j: nat)
    requires Initial(s, sk)
    requires i < j < |inputs| && KeyAt(s, inputs, i).Some? && KeyAt(s, inputs, j).Some?
    ensures KeyAt(s, inputs, i) != KeyAt(s, inputs, j)
  {
    var prefix := inputs[..j];
    RunInvariant(s, sk, prefix);
    assert inputs[..i] == prefix[..i];
    assert KeyAt(s, inputs, i) == KeyAt(s, prefix, i);
    StepIsSafe(Run(s, prefix), inputs[j]);
  }

  lemma AcceptingUsesTheSealingKey(s: State, header: Header, ct: Ciphertext, ad: seq<Point>, drawn: Secret)
    requires Decrypt(s, header, ct, ad, drawn).result.Ok?
    ensures Decrypt(s, header, ct, ad, drawn).used.Some?
    ensures ct == SealUnder(Decrypt(s, header, ct, ad, drawn).used.value, header,
                            Decrypt(s, header, ct, ad, drawn).result.value, ad)
  {
  }

  /** No ciphertext is accepted twice, under the same header or another. */
  lemma NoReplay(s: State, sk: Key, inputs: seq<Input>, i: nat, j: nat)
    requires Initial(s, sk)
    requires i < j < |inputs| && AcceptedAt(s, inputs, i) && AcceptedAt(s, inputs, j)
    ensures inputs[i].ct != inputs[j].ct
  {
    var a, b := inputs[i], inputs[j];
    AcceptingUsesTheSealingKey(Run(s, inputs[..i]), a.header, a.ct, a.ad, a.drawn);
    AcceptingUsesTheSealingKey(Run(s, inputs[..j]), b.header, b.ct, b.ad, b.drawn);
    KeysAreUsedOnce(s, sk, inputs, i, j);
  }

  /** A ciphertext this ratchet sealed is never accepted by the same ratchet, before or after. */
  lemma NoReflection(s: State, sk: Key, inputs: seq<Input>, i: nat, j: nat)
    requires Initial(s, sk)
    requires i < |inputs| && inputs[i].Send? && j < |inputs| && AcceptedAt(s, inputs, j)
    ensures var sealed := Encrypt(Run(s, inputs[..i]), inputs[i].plaintext, inputs[i].ad).result;
      sealed.Ok? ==> sealed.value.1 != inputs[j].ct
  {
    var b := inputs[j];
    AcceptingUsesTheSealingKey(Run(s, inputs[..j]), b.header, b.ct, b.ad, b.drawn);
    if KeyAt(s, inputs, i).Some? {
      KeysAreUsedOnce(s, sk, inputs, if i < j then i else j, if i < j then j else i);
    }
  }

  // ----- the memory a run can make the ratchet retain -----

  lemma {:induction false} SkipManyGrows(s: State, count: nat)
    ensures |SkipMany(s, count).skipped| <= |s.skipped| + count
  {
    if count > 0 {
      SkipManyGrows(s, count - 1);
    }
  }

  lemma SkipMessageKeysGrows(s: State, until: nat)
    ensures |SkipMessageKeys(s, until).state.skipped| <= |s.skipped| + MAX_SKIP
  {
    SkipManyGrows(s, if s.nr < until then until - s.nr else 0);
  }

  /** One `decrypt`, on any input, retains at most `MAX_SKIP` keys of each of two chains. */
  lemma DecryptGrows(s: State, header: Header, ct: Ciphertext, ad: seq<Point>, drawn: Secret)
    ensures |Decrypt(s, header, ct, ad, drawn).state.skipped| <= |s.skipped| + 2 * MAX_SKIP
    ensures s.dhr == Some(header.dh) ==> |Decrypt(s, header, ct, ad, drawn).state.skipped| <= |s.skipped| + MAX_SKIP
  {
    SkipMessageKeysGrows(s, header.pn);
    var step := DhRatchet(SkipMessageKeys(s, header.pn).state, header, drawn);
    SkipMessageKeysGrows(step.state, header.n);
    SkipMessageKeysGrows(s, header.n);
  }

  function Receives(inputs: seq<Input>): nat {
    if inputs == [] then 0
    else Receives(inputs[..|inputs| - 1]) + if inputs[|inputs| - 1].Receive? then 1 else 0
  }

  /** After any run the ratchet retains at most `2 * MAX_SKIP` keys per `decrypt` call, and is `Valid`. */
  lemma {:induction false} RunRetainsBoundedly(s: State, sk: Key, inputs: seq<Input>)
    requires Initial(s, sk)
    ensures |Run(s, inputs).skipped| <= 2 * MAX_SKIP * Receives(inputs)
    ensures Run(s, inputs).Valid()
  {
    hide After, Initial;
    if inputs == [] {
      InitialIsAntichain(s, sk);
    } else {
      var prefix, last := inputs[..|inputs| - 1], inputs[|inputs| - 1];
      RunRetainsBoundedly(s, sk, prefix);
      StepKeepsValid(Run(s, prefix), last);
      StepGrows(Run(s, prefix), last);
    }
  }

  lemma StepGrows(s: State, input: Input)
    ensures |After(s, input).skipped| <= |s.skipped| + if input.Receive? then 2 * MAX_SKIP else 0
  {
    if input.Receive? {
      hide Decrypt;
      DecryptGrows(s, input.header, input.ct, input.ad, input.drawn);
    }
  }

  /** The "ckr implies dhr" expectation in the skip loop never fails. */
  lemma StepKeepsValid(s: State, input: Input)
    requires s.Valid()
    ensures After(s, input).Valid()
  {
    if input.Receive? {
      SkipKeepsValid(s, input.header.pn);
      SkipKeepsValid(s, input.header.n);
      SkipKeepsValid(DhRatchet(SkipMessageKeys(s, input.header.pn).state, input.header, input.drawn).state,
        input.header.n);
    }
  }

  lemma SkipKeepsValid(s: State, until: nat)
    requires s.Valid()
    ensures SkipMessageKeys(s, until).state.Valid()
  {
    if s.ckr.Some? {
      SkipManyFrame(s, if s.nr < until then until - s.nr else 0);
    }
  }
}
