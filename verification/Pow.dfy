/**
 The memory-hard proof-of-work puzzle: leading zero bits as a bound on the digest,
 the search on one thread, and the verifier. The Argon2id digest and the random
 nonces are parameters.
 */
module Pow {
  import opened Common
  import opened Wire

  const MAX_VERIFY_M_COST_KIB := 131072
  const MAX_VERIFY_T_COST := 8

  datatype Difficulty = Difficulty(mCostKib: nat, tCost: nat, bits: nat)

  datatype PowProof = PowProof(mCostKib: nat, tCost: nat, difficulty: nat, nonce: bytes)

  datatype PowError = UnmetDifficulty | BadParameters

  /** The digest of a challenge and a nonce at a memory and a time cost, if Argon2id accepts the costs. */
  type Digest = (bytes, bytes, nat, nat) -> Option<bytes>

  // ----- leading zero bits -----

  function Pow2(n: nat): (p: nat)
    ensures p > 0
  {
    if n == 0 then 1 else 2 * Pow2(n - 1)
  }

  function ByteZeros(b: byte): nat {
    if b >= 128 then 0
    else if b >= 64 then 1
    else if b >= 32 then 2
    else if b >= 16 then 3
    else if b >= 8 then 4
    else if b >= 4 then 5
    else if b >= 2 then 6
    else if b >= 1 then 7
    else 8
  }

  function Zeros(b: bytes): nat {
    if b == [] then 0 else if b[0] == 0 then 8 + Zeros(b[1..]) else ByteZeros(b[0])
  }

  /** Counts whole zero bytes, and the zeros at the top of the first other byte. */
  method LeadingZeroBits(b: bytes) returns (count: nat)
    ensures count == Zeros(b)
  {
    count := 0;
    for i := 0 to |b|
      invariant count + Zeros(b[i..]) == Zeros(b)
    {
      assert b[i..][1..] == b[i + 1..];
      if b[i] == 0 {
        count := count + 8;
      } else {
        count := count + ByteZeros(b[i]);
        return;
      }
    }
  }

  lemma {:induction false} Pow2Add(a: nat, b: nat)
    ensures Pow2(a + b) == Pow2(a) * Pow2(b)
  {
    if a > 0 {
      Pow2Add(a - 1, b);
      assert Pow2(a + b) == 2 * (Pow2(a - 1) * Pow2(b)) == (2 * Pow2(a - 1)) * Pow2(b);
    }
  }

  lemma {:induction false} Pow2Grows(a: nat, b: nat)
    requires a <= b
    ensures Pow2(a) <= Pow2(b)
  {
    if a < b {
      Pow2Grows(a, b - 1);
    }
  }

  /** The big-endian value, taken from the most significant byte. */
  lemma {:induction false} ValueFromTop(b: bytes)
    requires b != []
    ensures Value(b) == b[0] * Pow2(8 * (|b| - 1)) + Value(b[1..])
  {
    hide Value, Pow2;
    var n := |b| - 1;
    ValueStep(b);
    if n == 0 {
      ValueOfNothing();
      assert b[..0] == [] && b[1..] == [];
    } else {
      var init, last := b[..n], b[n];
      ValueFromTop(init);
      ValueStep(b[1..]);
      assert b[1..][..n - 1] == init[1..] && b[1..][n - 1] == last;
      Pow2OfByte(8 * (n - 1));
      Scale(b[0], Pow2(8 * (n - 1)), Value(init[1..]), last);
    }
  }

  lemma ValueStep(b: bytes)
    requires b != []
    ensures Value(b) == 256 * Value(b[..|b| - 1]) + b[|b| - 1]
  {
  }

  lemma ValueOfNothing()
    ensures Value([]) == 0 && Pow2(0) == 1
  {
  }

  lemma Pow2OfByte(n: nat)
    ensures Pow2(8 + n) == 256 * Pow2(n)
  {
    assert Pow2(8) == 256;
    Pow2Add(8, n);
  }

  lemma Scale(top: nat, high: nat, rest: nat, last: nat)
    ensures 256 * (top * high + rest) + last == top * (256 * high) + (256 * rest + last)
  {
  }

  lemma {:induction false} ValueBelow(b: bytes)
    ensures Value(b) < Pow2(8 * |b|)
  {
    if b != [] {
      ValueBelow(b[..|b| - 1]);
      assert Pow2(8) == 256;
      Pow2Add(8, 8 * (|b| - 1));
    }
  }

  lemma ByteZerosBound(x: byte)
    requires x > 0
    ensures ByteZeros(x) <= 7 && Pow2(7 - ByteZeros(x)) <= x < Pow2(8 - ByteZeros(x))
  {
    assert Pow2(1) == 2 && Pow2(2) == 4 && Pow2(3) == 8 && Pow2(4) == 16;
    assert Pow2(5) == 32 && Pow2(6) == 64 && Pow2(7) == 128 && Pow2(8) == 256;
  }

  /** A first byte that is not zero pins the value between two powers of two. */
  lemma TopByteBounds(b: bytes)
    requires b != [] && b[0] > 0
    ensures ByteZeros(b[0]) <= 7
    ensures Pow2(8 * |b| - ByteZeros(b[0]) - 1) <= Value(b) < Pow2(8 * |b| - ByteZeros(b[0]))
  {
    hide Pow2, Value, ByteZeros;
    var z, low := ByteZeros(b[0]), 8 * (|b| - 1);
    var top: nat, p := b[0], Pow2(low);
    ByteZerosBound(b[0]);
    ValueFromTop(b);
    ValueBelow(b[1..]);
    Pow2Add(7 - z, low);
    Pow2Add(8 - z, low);
    Between(top, p, Value(b[1..]), Pow2(7 - z), Pow2(8 - z));
    assert 7 - z + low == 8 * |b| - z - 1 && 8 - z + low == 8 * |b| - z;
  }

  lemma Between(top: nat, p: nat, rest: nat, low: nat, high: nat)
    requires low <= top < high && rest < p
    ensures low * p <= top * p + rest < high * p
  {
    TimesGrows(low, top, p);
    TimesGrows(top + 1, high, p);
    assert (top + 1) * p == top * p + p;
  }

  /** At least `k` leading zero bits is exactly a bound on the big-endian value. */
  lemma {:induction false} ZerosAreABound(b: bytes, k: nat)
    requires k <= 8 * |b|
    ensures Zeros(b) >= k <==> Value(b) < Pow2(8 * |b| - k)
    decreases |b|
  {
    if b != [] {
      if b[0] == 0 {
        ValueFromTop(b);
        ValueBelow(b[1..]);
        if k <= 8 {
          Pow2Grows(8 * |b| - 8, 8 * |b| - k);
        } else {
          ZerosAreABound(b[1..], k - 8);
        }
      } else {
        TopByteBounds(b);
        var z := ByteZeros(b[0]);
        if k <= z {
          Pow2Grows(8 * |b| - z, 8 * |b| - k);
        } else {
          Pow2Grows(8 * |b| - k, 8 * |b| - z - 1);
        }
      }
    }
  }

  // ----- one attempt, and the verifier -----

  datatype Puzzle = Puzzle(digest: Digest, challenge: bytes, difficulty: Difficulty)

  function DigestOf(p: Puzzle, nonce: bytes): Option<bytes> {
    p.digest(p.challenge, nonce, p.difficulty.mCostKib, p.difficulty.tCost)
  }

  /** The costs are ones the solver can hash at, digests have 32 bytes, and the target is a `u8`. */
  ghost predicate Usable(p: Puzzle) {
    p.difficulty.bits < 256 && forall nonce :: DigestOf(p, nonce).Some? && |DigestOf(p, nonce).value| == 32
  }

  function TryOne(p: Puzzle, nonce: bytes): Option<PowProof>
    requires DigestOf(p, nonce).Some?
  {
    if Zeros(DigestOf(p, nonce).value) >= p.difficulty.bits
    then Some(PowProof(p.difficulty.mCostKib, p.difficulty.tCost, p.difficulty.bits, nonce))
    else None
  }

  function Verify(digest: Digest, challenge: bytes, proof: PowProof, minBits: nat, minMCostKib: nat, minTCost: nat)
    : Result<(), PowError>
  {
    if proof.difficulty < minBits || proof.mCostKib < minMCostKib || proof.tCost < minTCost then Err(UnmetDifficulty)
    else if proof.mCostKib > MAX_VERIFY_M_COST_KIB || proof.tCost > MAX_VERIFY_T_COST then Err(UnmetDifficulty)
    else
      match digest(challenge, proof.nonce, proof.mCostKib, proof.tCost)
      case None => Err(BadParameters)
      case Some(d) => if Zeros(d) >= proof.difficulty then Ok(()) else Err(UnmetDifficulty)
  }

  /** The proof carries the puzzle's own parameters and a nonce whose digest is below the target. */
  predicate Meets(p: Puzzle, proof: PowProof) {
    && proof.mCostKib == p.difficulty.mCostKib && proof.tCost == p.difficulty.tCost
    && proof.difficulty == p.difficulty.bits <= 256
    && DigestOf(p, proof.nonce).Some?
    && Value(DigestOf(p, proof.nonce).value) < Pow2(256 - p.difficulty.bits)
  }

  lemma TryOneMeets(p: Puzzle, nonce: bytes)
    requires Usable(p)
    ensures TryOne(p, nonce).Some? ==> Meets(p, TryOne(p, nonce).value) && TryOne(p, nonce).value.nonce == nonce
    ensures TryOne(p, nonce).Some? <==> Value(DigestOf(p, nonce).value) < Pow2(256 - p.difficulty.bits)
  {
    ZerosAreABound(DigestOf(p, nonce).value, p.difficulty.bits);
  }

  /**
   A proof that meets its puzzle passes the verifier exactly when no floor is above
   the puzzle's parameters and its costs are within the ceilings.
   */
  lemma SolvedProofsVerify(p: Puzzle, proof: PowProof, minBits: nat, minMCostKib: nat, minTCost: nat)
    requires Usable(p) && Meets(p, proof)
    ensures Verify(p.digest, p.challenge, proof, minBits, minMCostKib, minTCost).Ok? <==>
              && minBits <= p.difficulty.bits && minMCostKib <= p.difficulty.mCostKib && minTCost <= p.difficulty.tCost
              && p.difficulty.mCostKib <= MAX_VERIFY_M_COST_KIB && p.difficulty.tCost <= MAX_VERIFY_T_COST
  {
    ZerosAreABound(DigestOf(p, proof.nonce).value, p.difficulty.bits);
  }

  /** What the verifier accepts: floors and ceilings kept, and a digest below the claimed target. */
  lemma VerifiedProofs(digest: Digest, challenge: bytes, proof: PowProof, minBits: nat, minMCostKib: nat, minTCost: nat)
    requires var d := digest(challenge, proof.nonce, proof.mCostKib, proof.tCost); d.Some? ==> |d.value| == 32
    requires proof.difficulty < 256
    ensures Verify(digest, challenge, proof, minBits, minMCostKib, minTCost).Ok? <==>
              var d := digest(challenge, proof.nonce, proof.mCostKib, proof.tCost);
              && minBits <= proof.difficulty && minMCostKib <= proof.mCostKib <= MAX_VERIFY_M_COST_KIB
              && minTCost <= proof.tCost <= MAX_VERIFY_T_COST
              && d.Some? && Value(d.value) < Pow2(256 - proof.difficulty)
  {
    var d := digest(challenge, proof.nonce, proof.mCostKib, proof.tCost);
    if d.Some? {
      ZerosAreABound(d.value, proof.difficulty);
    }
  }

  // ----- the search on one thread -----

  const U64 := 0x1_0000_0000_0000_0000

  /** The shared progress counter, which wraps at 64 bits. */
  class Counter {
    var value: nat

    constructor (start: nat)
      ensures value == start
    {
      value := start;
    }

    method FetchAdd()
      modifies this
      ensures value == (old(value) + 1) % U64
    {
      value := (value + 1) % U64;
    }
  }

  lemma WrapStep(start: nat, n: nat)
    ensures ((start + n) % U64 + 1) % U64 == (start + n + 1) % U64
  {
  }

  /** Nonce `i` of the random source is the first that wins. */
  ghost predicate FirstWin(p: Puzzle, source: nat -> bytes, i: nat)
    requires Usable(p)
  {
    TryOne(p, source(i)).Some? && forall j: nat :: j < i ==> TryOne(p, source(j)).None?
  }

  /**
   Tries one nonce of an endless random source after the other until one wins, and counts
   every hash. Given that some nonce wins, whichever it is, the search returns the first
   that does.
   */
  method SolveWithProgress(p: Puzzle, source: nat -> bytes, attempts: Counter, ghost winner: nat)
    returns (proof: PowProof, ghost hashes: nat)
    requires Usable(p) && attempts.value < U64 && TryOne(p, source(winner)).Some?
    modifies attempts
    ensures hashes > 0 && FirstWin(p, source, hashes - 1) && Some(proof) == TryOne(p, source(hashes - 1))
    ensures Meets(p, proof)
    ensures attempts.value == (old(attempts.value) + hashes) % U64
  {
    hide Meets, TryOne;
    var i := 0;
    while true
      invariant 0 <= i <= winner
      invariant forall j: nat :: j < i ==> TryOne(p, source(j)).None?
      invariant attempts.value == (old(attempts.value) + i) % U64
      decreases winner - i
    {
      var r := TryOne(p, source(i));
      attempts.FetchAdd();
      WrapStep(old(attempts.value), i);
      TryOneMeets(p, source(i));
      if r.Some? {
        return r.value, i + 1;
      }
      i := i + 1;
    }
  }
}
