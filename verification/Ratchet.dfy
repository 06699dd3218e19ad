/** The ratchet as the program holds it: fields updated in place by its methods. */
module Ratchet {
  import opened Common
  import opened Crypto
  import Spec = RatchetSpec

  class Ratchet {
    var dhs: Secret
    var dhr: Option<Point>
    var rk: Key
    var cks: Option<Key>
    var ckr: Option<Key>
    var ns: nat
    var nr: nat
    var pn: nat
    var skipped: map<(Point, nat), Key>

    function View(): Spec.State
      reads this
    {
      Spec.State(dhs, dhr, rk, cks, ckr, ns, nr, pn, skipped)
    }

    constructor Restore(s: Spec.State)
      ensures View() == s
    {
      dhs, dhr, rk, cks, ckr, ns, nr, pn, skipped := s.dhs, s.dhr, s.rk, s.cks, s.ckr, s.ns, s.nr, s.pn, s.skipped;
    }

    method Encrypt(plaintext: bytes, ad: seq<Point>) returns (r: Outcome<(Header, Ciphertext)>)
      requires View().Valid()
      modifies this
      ensures View().Valid()
      ensures var e := Spec.Encrypt(old(View()), plaintext, ad); View() == e.state && r == e.result
    {
      if cks.None? {
        return Err(NotReady);
      }
      var (next, mk) := KdfCk(cks.value);
      var header := Header(PublicOf(dhs), pn, ns);
      cks := Some(next);
      ns := ns + 1;
      var (key, nonce) := MessageKeys(mk);
      r := Ok((header, Sealed(key, nonce, Aad(ad, header), plaintext)));
    }

    method SkipMessageKeys(until: nat) returns (r: Outcome<()>)
      requires View().Valid()
      modifies this
      ensures View().Valid()
      ensures var e := Spec.SkipMessageKeys(old(View()), until); View() == e.state && r == e.result
    {
      if ckr.None? {
        return Ok(());
      }
      if nr + Spec.MAX_SKIP < until {
        return Err(TooManySkipped);
      }
      var ck := ckr.value;
      var peer := dhr.value;
      while nr < until
        invariant nr >= old(nr) && (nr <= until || nr == old(nr))
        invariant View() == Spec.SkipMany(old(View()), nr - old(nr)).(ckr := old(ckr))
        invariant ck == Advance(old(ckr).value, nr - old(nr))
        decreases until - nr
      {
        Spec.SkipManyFrame(old(View()), nr - old(nr));
        var (next, mk) := KdfCk(ck);
        skipped := skipped[(peer, nr) := mk];
        ck := next;
        nr := nr + 1;
      }
      Spec.SkipManyFrame(old(View()), nr - old(nr));
      ckr := Some(ck);
      r := Ok(());
    }

    method DhRatchet(header: Header, drawn: Secret) returns (r: Outcome<()>)
      requires View().Valid()
      modifies this
      ensures View().Valid()
      ensures var e := Spec.DhRatchet(old(View()), header, drawn); View() == e.state && r == e.result
    {
      pn := ns;
      ns := 0;
      nr := 0;
      dhr := Some(header.dh);

      var dh1 := Agree(dhs, header.dh);
      if dh1.Err? {
        return Err(dh1.error);
      }
      var (rk1, chain1) := KdfRk(rk, dh1.value);
      rk := rk1;
      ckr := Some(chain1);

      dhs := drawn;
      var dh2 := Agree(dhs, header.dh);
      if dh2.Err? {
        return Err(dh2.error);
      }
      var (rk2, chain2) := KdfRk(rk, dh2.value);
      rk := rk2;
      cks := Some(chain2);
      r := Ok(());
    }

    method Decrypt(header: Header, ct: Ciphertext, ad: seq<Point>, drawn: Secret) returns (r: Outcome<bytes>)
      requires View().Valid()
      modifies this
      ensures View().Valid()
      ensures var e := Spec.Decrypt(old(View()), header, ct, ad, drawn); View() == e.state && r == e.result
    {
      var slot := (header.dh, header.n);
      if slot in skipped {
        var mk := skipped[slot];
        skipped := skipped - {slot};
        return OpenUnder(mk, header, ct, ad);
      }
      if dhr != Some(header.dh) {
        var step := SkipMessageKeys(header.pn);
        if step.Err? {
          return Err(step.error);
        }
        step := DhRatchet(header, drawn);
        if step.Err? {
          return Err(step.error);
        }
      }
      var step := SkipMessageKeys(header.n);
      if step.Err? {
        return Err(step.error);
      }
      if ckr.None? {
        return Err(NotReady);
      }
      var (next, mk) := KdfCk(ckr.value);
      ckr := Some(next);
      nr := nr + 1;
      r := OpenUnder(mk, header, ct, ad);
    }
  }
}
