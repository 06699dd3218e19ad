/**
 What the AEAD binds: between any two ratchets, whatever states they are in, a message
 that is accepted is accepted as it was sent.
 */
module Authentication {
  import opened Common
  import opened Crypto
  import opened RatchetSpec

  /**
   What one ratchet seals, another accepts only under the header it was sealed with, every
   field of it, and under the same associated data, and only as the text that was sealed.
   */
  lemma AcceptedAsSent(s: State, text: bytes, ad: seq<Point>, t: State, h: Header, ad': seq<Point>, drawn: Secret)
    requires Encrypt(s, text, ad).result.Ok?
    ensures var (h0, ct) := Encrypt(s, text, ad).result.value;
      var r := Decrypt(t, h, ct, ad', drawn).result;
      r.Ok? ==> h.dh == h0.dh && h.pn == h0.pn && h.n == h0.n && ad' == ad && r.value == text
  {
    hide SkipMessageKeys, DhRatchet;
  }

  /** A message that would be accepted is refused under any other associated data. */
  lemma OtherDataIsRefused(t: State, h: Header, ct: Ciphertext, ad: seq<Point>, ad': seq<Point>, drawn: Secret)
    requires Decrypt(t, h, ct, ad, drawn).result.Ok? && ad' != ad
    ensures Decrypt(t, h, ct, ad', drawn).result == Err(DecryptFailed)
  {
    hide SkipMessageKeys, DhRatchet;
  }

  /** The key spent and the state left behind depend on the header alone, not on what is authenticated. */
  lemma OnlyTheResultDepends(
      t: State, h: Header, ct: Ciphertext, ad: seq<Point>, ct': Ciphertext, ad': seq<Point>, drawn: Secret)
    ensures var e, e' := Decrypt(t, h, ct, ad, drawn), Decrypt(t, h, ct', ad', drawn);
      e.state == e'.state && e.used == e'.used
  {
  }

  /** Bytes that nobody sealed are never accepted. */
  lemma GarbageIsRefused(t: State, h: Header, id: nat, ad: seq<Point>, drawn: Secret)
    ensures Decrypt(t, h, Garbage(id), ad, drawn).result.Err?
  {
    hide SkipMessageKeys, DhRatchet;
  }
}
