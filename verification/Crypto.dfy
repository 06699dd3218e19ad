/**
 The symbolic key algebra the direct-message stack is reasoned about in.

 Every primitive is a free constructor, so two values are equal exactly when
 they were computed the same way from the same inputs:

  - X25519 (section 6.1 of RFC 7748) is the commutative pairing `Dh`;
  - HKDF-SHA-256 (sections 2.2 and 2.3 of RFC 5869) inside `kdf_rk` is the pair
    `Root` / `Chain`, and HMAC inside `kdf_ck` is the pair `NextChain` / `Message`;
  - XChaCha20-Poly1305 opens only under the sealing key, nonce and associated data.
 */
module Crypto {
  import opened Common

  /** An X25519 secret scalar, named by the draw that produced it. */
  type Secret = nat

  /**
   A 32-byte public value. `Foreign` stands for bytes that are nobody's public
   key; `zeroWith` lists the scalars that map it to the all-zero output, and
   nothing is assumed about that set.
   */
  datatype Point =
    | PublicOf(secret: Secret)
    | Foreign(id: nat, zeroWith: set<Secret>)

  /** A 32-byte symmetric value: a shared secret, a root, chain or message key. */
  datatype Key =
    | Seed(id: nat)
    | HandshakeKey(agreements: seq<Key>)
    | Agreed(low: Secret, high: Secret)
    | AgreedForeign(secret: Secret, id: nat)
    | Root(rk: Key, dh: Key)
    | Chain(rk: Key, dh: Key)
    | NextChain(ck: Key)
    | Message(ck: Key)

  datatype DmError =
    | NotReady
    | TooManySkipped
    | DegenerateAgreement
    | DecryptFailed
    | BadPrekeySignature
    | UnknownOneTimePrekey

  type Outcome<+T> = Result<T, DmError>

  function Dh(a: Secret, b: Secret): Key {
    if a <= b then Agreed(a, b) else Agreed(b, a)
  }

  /** `AgreeSecret::agree`: refuses the all-zero output. */
  function Agree(secret: Secret, point: Point): Outcome<Key> {
    match point
    case PublicOf(other) => Ok(Dh(secret, other))
    case Foreign(id, zeroWith) =>
      if secret in zeroWith then Err(DegenerateAgreement) else Ok(AgreedForeign(secret, id))
  }

  /** `kdf_rk`: the new root key and the new chain key. */
  function KdfRk(rk: Key, dh: Key): (Key, Key) {
    (Root(rk, dh), Chain(rk, dh))
  }

  /** `kdf_ck`: the next chain key and this step's message key. */
  function KdfCk(ck: Key): (Key, Key) {
    (NextChain(ck), Message(ck))
  }

  /** The chain key `k` steps after `ck`. */
  function Advance(ck: Key, k: nat): Key {
    if k == 0 then ck else NextChain(Advance(ck, k - 1))
  }

  /** The `(key, nonce)` that `message_keys` expands a message key into. */
  datatype AeadKey = AeadKey(mk: Key)
  datatype Nonce = Nonce(mk: Key)

  function MessageKeys(mk: Key): (AeadKey, Nonce) {
    (AeadKey(mk), Nonce(mk))
  }

  /** The per-message ratchet header. */
  datatype Header = Header(dh: Point, pn: nat, n: nat)

  /** `ad || header`: the header is a fixed 40-byte suffix, so the pair is recoverable. */
  datatype Aad = Aad(ad: seq<Point>, header: Header)

  /** A ciphertext on the wire: something that was sealed, or bytes that never were. */
  datatype Ciphertext =
    | Sealed(key: AeadKey, nonce: Nonce, aad: Aad, plaintext: bytes)
    | Garbage(id: nat)

  function SealUnder(mk: Key, header: Header, plaintext: bytes, ad: seq<Point>): Ciphertext {
    var (key, nonce) := MessageKeys(mk);
    Sealed(key, nonce, Aad(ad, header), plaintext)
  }

  /** `open`: succeeds only on what was sealed under the same key, nonce and data. */
  function OpenUnder(mk: Key, header: Header, ct: Ciphertext, ad: seq<Point>): Outcome<bytes> {
    var (key, nonce) := MessageKeys(mk);
    if ct.Sealed? && ct.key == key && ct.nonce == nonce && ct.aad == Aad(ad, header)
    then Ok(ct.plaintext)
    else Err(DecryptFailed)
  }
}
