/**
 Chunked file transfer: a plaintext is cut into chunks, each sealed under its own
 nonce and hashed into a signed manifest, and put together again from the chunks.
 The primitives are parameters; a theorem names the laws it needs of them.
 */
module FileTransfer {
  import opened Common
  import opened Wire
  import opened Packets
  import opened Content
  import opened Flat

  const CHUNK_SIZE := 65536
  const TAG_LEN := 16

  /** `open` undoes `seal` under a key and a nonce; `checks` verifies a signature by a key over a challenge. */
  datatype Primitives = Primitives(
    seal: (bytes, bytes, bytes) -> bytes, open: (bytes, bytes, bytes) -> Option<bytes>,
    hash: bytes -> bytes, checks: (bytes, bytes, bytes) -> bool)

  /** Sealing appends a tag, and what was sealed opens. */
  ghost predicate Seals(p: Primitives) {
    forall key, nonce, part ::
      var ct := p.seal(key, nonce, part);
      |ct| == |part| + TAG_LEN && p.open(key, nonce, ct) == Some(part)
  }

  datatype FileError = FileIntegrity

  // ----- nonces -----

  function NonceDomain(): (d: bytes)
    ensures IsAscii("dante-file-chunk") && d == Ascii("dante-file-chunk") && |d| == 16
  {
    [0x64, 0x61, 0x6E, 0x74, 0x65, 0x2D, 0x66, 0x69, 0x6C, 0x65, 0x2D, 0x63, 0x68, 0x75, 0x6E, 0x6B]
  }

  /** Domain, four zero bytes, and the low 32 bits of the index. */
  function Nonce(index: nat): (n: bytes)
    ensures |n| == 24
  {
    NonceDomain() + [0, 0, 0, 0] + BigEndian(index % Pow256(4), 4)
  }

  method FillNonce(index: nat) returns (n: array<byte>)
    ensures fresh(n) && n[..] == Nonce(index)
  {
    hide NonceDomain, IsAscii, Ascii, BigEndian;
    var domain, tail := NonceDomain(), BigEndian(index % Pow256(4), 4);
    n := new byte[24](_ => 0);
    for i := 0 to 16
      invariant n[..i] == domain[..i]
      invariant forall j :: i <= j < 24 ==> n[j] == 0
    {
      n[i] := domain[i];
    }
    for i := 0 to 4
      invariant n[..20] == domain + [0, 0, 0, 0]
      invariant n[20..20 + i] == tail[..i]
    {
      n[20 + i] := tail[i];
    }
    assert n[..] == n[..20] + n[20..24];
  }

  /** Two chunks share a nonce exactly when their indices agree in the low 32 bits. */
  lemma NoncesAreDistinct(i: nat, j: nat)
    ensures Nonce(i) == Nonce(j) <==> i % Pow256(4) == j % Pow256(4)
    ensures i < j < 0x1_0000_0000 ==> Nonce(i) != Nonce(j)
  {
    assert Pow256(4) == 0x1_0000_0000;
    ValueOfBigEndian(i % Pow256(4), 4);
    ValueOfBigEndian(j % Pow256(4), 4);
    assert Nonce(i)[20..] == BigEndian(i % Pow256(4), 4);
    assert Nonce(j)[20..] == BigEndian(j % Pow256(4), 4);
  }

  // ----- the manifest and its signature -----

  function ManifestDomain(): (d: bytes)
    ensures IsAscii("dante/file-manifest/v1") && d == Ascii("dante/file-manifest/v1")
  {
    [0x64, 0x61, 0x6E, 0x74, 0x65, 0x2F, 0x66, 0x69, 0x6C, 0x65, 0x2D, 0x6D, 0x61, 0x6E, 0x69, 0x66, 0x65, 0x73, 0x74,
     0x2F, 0x76, 0x31]
  }

  type Claims = (bytes, (bytes, (nat, (nat, seq<bytes>))))

  function ClaimsCodec(): Codec<Claims> {
    Pair(Id(), Pair(Str(), Pair(UInt(8), Pair(UInt(4), List(Id(), 1)))))
  }

  /** What the signature is about: everything in the manifest but the signer and the signature. */
  function ClaimsOf(m: FileManifest): Claims {
    (m.fileKey, (m.filename, (m.totalSize, (m.chunkSize, m.chunkHashes))))
  }

  function Preimage(c: Claims): bytes { ManifestDomain() + ClaimsCodec().enc(c) }

  function Challenge(p: Primitives, m: FileManifest): bytes { p.hash(Preimage(ClaimsOf(m))) }

  predicate Signed(p: Primitives, m: FileManifest) { p.checks(m.senderIdk, Challenge(p, m), m.sig) }

  lemma ClaimsLaws()
    ensures Lawful(ClaimsCodec())
  {
    hide RoundTrips, Extends, Canonical, AtLeast, Pair, List, Id, Str, UInt;
    IdLaws();
    StrLaws();
    UIntLaws(8);
    UIntLaws(4);
    AtLeastLess(Id(), 32, 1);
    ListLawful(Id(), 1);
    var p1 := Pair(UInt(4), List(Id(), 1));
    var p2 := Pair(UInt(8), p1);
    PairLaws(UInt(4), List(Id(), 1));
    PairLaws(UInt(8), p1);
    PairLaws(Str(), p2);
    PairLaws(Id(), Pair(Str(), p2));
  }

  /** Two inputs with one digest. */
  predicate Collision(p: Primitives, a: bytes, b: bytes) { a != b && p.hash(a) == p.hash(b) }

  /** The fields of a manifest are of the sizes that the format can carry. */
  predicate Carries(m: FileManifest) {
    && IsId(m.fileKey) && IsText(m.filename) && IsU64(m.totalSize) && IsU32(m.chunkSize)
    && IsU32(|m.chunkHashes|) && forall h :: h in m.chunkHashes ==> IsId(h)
  }

  /** What is hashed and signed, byte by byte. */
  function SignedBytes(m: FileManifest): bytes {
    Ascii("dante/file-manifest/v1") + (m.fileKey + (Sized(m.filename) + (U64(m.totalSize) + (U32(m.chunkSize) +
      Counted(m.chunkHashes, Same)))))
  }

  lemma ClaimsLayout(m: FileManifest)
    ensures Preimage(ClaimsOf(m)) == SignedBytes(m) && (ClaimsCodec().fits(ClaimsOf(m)) <==> Carries(m))
  {
    hide Pair, UInt, Fixed, Str, List, Utf8;
    FixedIsFlat(32, m.fileKey);
    StrIsFlat(m.filename);
    UIntIsFlat(m.totalSize);
    UIntIsFlat(m.chunkSize);
    IdsAreFlat(m.chunkHashes);
    var p1, y1 := Pair(UInt(4), List(Id(), 1)), (m.chunkSize, m.chunkHashes);
    var p2, y2 := Pair(UInt(8), p1), (m.totalSize, y1);
    var p3, y3 := Pair(Str(), p2), (m.filename, y2);
    PairIsFlat(UInt(4), List(Id(), 1), m.chunkSize, m.chunkHashes);
    PairIsFlat(UInt(8), p1, m.totalSize, y1);
    PairIsFlat(Str(), p2, m.filename, y2);
    PairIsFlat(Id(), p3, m.fileKey, y3);
  }

  /**
   A signature over one manifest fits no manifest that differs in the key, the filename, a
   size or a chunk hash, short of a hash collision.
   */
  lemma SignatureBindsFields(p: Primitives, m: FileManifest, n: FileManifest)
    requires Carries(m) && Carries(n) && Challenge(p, m) == Challenge(p, n)
    ensures Collision(p, SignedBytes(m), SignedBytes(n)) ||
            (m.fileKey == n.fileKey && m.filename == n.filename && m.totalSize == n.totalSize &&
             m.chunkSize == n.chunkSize && m.chunkHashes == n.chunkHashes)
  {
    hide RoundTrips, Extends, ClaimsCodec, ManifestDomain, SignedBytes, Carries;
    ClaimsLaws();
    ClaimsLayout(m);
    ClaimsLayout(n);
    if Preimage(ClaimsOf(m)) == Preimage(ClaimsOf(n)) {
      var d := |ManifestDomain()|;
      assert Preimage(ClaimsOf(m))[d..] == ClaimsCodec().enc(ClaimsOf(m));
      assert Preimage(ClaimsOf(n))[d..] == ClaimsCodec().enc(ClaimsOf(n));
      RoundTrip(ClaimsCodec(), ClaimsOf(m), []);
      RoundTrip(ClaimsCodec(), ClaimsOf(n), []);
    }
  }

  // ----- building -----

  function Part(pt: bytes): bytes { if |pt| <= CHUNK_SIZE then pt else pt[..CHUNK_SIZE] }

  function Rest(pt: bytes): bytes { if |pt| <= CHUNK_SIZE then [] else pt[CHUNK_SIZE..] }

  /** The sealed chunks of a plaintext whose first chunk has index `i`. */
  function Chunks(p: Primitives, key: bytes, pt: bytes, i: nat): seq<bytes>
    decreases |pt|
  {
    if pt == [] then [] else [p.seal(key, Nonce(i), Part(pt))] + Chunks(p, key, Rest(pt), i + 1)
  }

  function Hashes(p: Primitives, chunks: seq<bytes>): seq<bytes> {
    seq(|chunks|, i requires 0 <= i < |chunks| => p.hash(chunks[i]))
  }

  /** A manifest that describes `pt` and carries a signature that checks. */
  predicate Describes(p: Primitives, m: FileManifest, pt: bytes) {
    && m.totalSize == |pt|
    && m.chunkHashes == Hashes(p, Chunks(p, m.fileKey, pt, 0))
    && Signed(p, m)
  }

  lemma ChunkStep(p: Primitives, key: bytes, pt: bytes, offset: nat, end: nat, i: nat)
    requires offset < |pt| && end == (if |pt| - offset <= CHUNK_SIZE then |pt| else offset + CHUNK_SIZE)
    ensures Chunks(p, key, pt[offset..], i) ==
              [p.seal(key, Nonce(i), pt[offset..end])] + Chunks(p, key, pt[end..], i + 1)
  {
    hide Nonce;
    assert pt[offset..end] == Part(pt[offset..]) && pt[end..] == Rest(pt[offset..]);
  }

  lemma HashesSnoc(p: Primitives, chunks: seq<bytes>, ct: bytes)
    ensures Hashes(p, chunks + [ct]) == Hashes(p, chunks) + [p.hash(ct)]
  {
  }

  lemma NoChunks(p: Primitives, key: bytes, i: nat)
    ensures Chunks(p, key, [], i) == [] && Hashes(p, []) == []
  {
  }

  /** Seals and hashes chunk after chunk. */
  method SealAll(p: Primitives, key: bytes, pt: bytes) returns (hashes: seq<bytes>, chunks: seq<bytes>)
    ensures chunks == Chunks(p, key, pt, 0) && hashes == Hashes(p, chunks)
  {
    hide Nonce, Chunks, Hashes;
    var offset, i := 0, 0;
    hashes, chunks := [], [];
    NoChunks(p, key, 0);
    assert pt[0..] == pt;
    while offset < |pt|
      invariant 0 <= offset <= |pt|
      invariant chunks + Chunks(p, key, pt[offset..], i) == Chunks(p, key, pt, 0)
      invariant hashes == Hashes(p, chunks)
      decreases |pt| - offset
    {
      var end := if |pt| - offset <= CHUNK_SIZE then |pt| else offset + CHUNK_SIZE;
      var ct := p.seal(key, Nonce(i), pt[offset..end]);
      ChunkStep(p, key, pt, offset, end, i);
      HashesSnoc(p, chunks, ct);
      assert chunks + ([ct] + Chunks(p, key, pt[end..], i + 1)) == (chunks + [ct]) + Chunks(p, key, pt[end..], i + 1);
      hashes, chunks := hashes + [p.hash(ct)], chunks + [ct];
      offset, i := end, i + 1;
    }
    assert pt[|pt|..] == [];
    NoChunks(p, key, i);
  }

  lemma ChallengeLeavesOutTheSignature(p: Primitives, m: FileManifest, sig: bytes)
    ensures Challenge(p, m.(sig := sig)) == Challenge(p, m)
  {
  }

  /** The file key is drawn outside, and the sender signs the challenge. */
  method Build(p: Primitives, key: bytes, idk: bytes, sign: bytes -> bytes, filename: bytes, pt: bytes)
    returns (m: FileManifest, chunks: seq<bytes>)
    requires forall c :: p.checks(idk, c, sign(c))
    ensures chunks == Chunks(p, key, pt, 0)
    ensures m.fileKey == key && m.filename == filename && m.chunkSize == CHUNK_SIZE && m.senderIdk == idk
    ensures Describes(p, m, pt)
  {
    hide Challenge, Chunks, Hashes;
    var hashes;
    hashes, chunks := SealAll(p, key, pt);
    var unsigned := FileManifest(key, filename, |pt|, CHUNK_SIZE, hashes, idk, []);
    var sig := sign(Challenge(p, unsigned));
    ChallengeLeavesOutTheSignature(p, unsigned, sig);
    m := unsigned.(sig := sig);
  }

  // ----- reassembling -----

  function Total(chunks: seq<bytes>): nat {
    if chunks == [] then 0 else |chunks[0]| + Total(chunks[1..])
  }

  /** Checks, opens and joins the chunks, the first of which has index `i`. */
  function Joined(p: Primitives, key: bytes, hashes: seq<bytes>, chunks: seq<bytes>, i: nat): Option<bytes>
    requires i + |chunks| == |hashes|
    decreases |chunks|
  {
    if chunks == [] then Some([])
    else if p.hash(chunks[0]) != hashes[i] then None
    else
      var part := p.open(key, Nonce(i), chunks[0]);
      var rest := Joined(p, key, hashes, chunks[1..], i + 1);
      if part.None? || rest.None? then None else Some(part.value + rest.value)
  }

  function Reassembled(p: Primitives, m: FileManifest, chunks: seq<bytes>): Result<bytes, FileError> {
    if !Signed(p, m) || |chunks| != |m.chunkHashes| || m.totalSize > Total(chunks) then Err(FileIntegrity)
    else
      var out := Joined(p, m.fileKey, m.chunkHashes, chunks, 0);
      if out.None? || |out.value| != m.totalSize then Err(FileIntegrity) else Ok(out.value)
  }

  lemma {:induction false} TotalSnoc(chunks: seq<bytes>, c: bytes)
    ensures Total(chunks + [c]) == Total(chunks) + |c|
  {
    if chunks != [] {
      TotalSnoc(chunks[1..], c);
      assert (chunks + [c])[1..] == chunks[1..] + [c];
    }
  }

  method Sum(chunks: seq<bytes>) returns (size: nat)
    ensures size == Total(chunks)
  {
    size := 0;
    for i := 0 to |chunks|
      invariant size == Total(chunks[..i])
    {
      TotalSnoc(chunks[..i], chunks[i]);
      assert chunks[..i + 1] == chunks[..i] + [chunks[i]];
      size := size + |chunks[i]|;
    }
    assert chunks[..|chunks|] == chunks;
  }

  /** What has been joined so far, in front of what is left to join. */
  function After(out: bytes, left: Option<bytes>): Option<bytes> {
    if left.None? then None else Some(out + left.value)
  }

  lemma JoinStep(p: Primitives, key: bytes, hashes: seq<bytes>, chunks: seq<bytes>, i: nat, out: bytes)
    requires i < |chunks| == |hashes|
    ensures var part := p.open(key, Nonce(i), chunks[i]);
      After(out, Joined(p, key, hashes, chunks[i..], i)) ==
        if p.hash(chunks[i]) != hashes[i] || part.None? then None
        else After(out + part.value, Joined(p, key, hashes, chunks[i + 1..], i + 1))
  {
    assert chunks[i..][1..] == chunks[i + 1..];
    var part, rest := p.open(key, Nonce(i), chunks[i]), Joined(p, key, hashes, chunks[i + 1..], i + 1);
    if part.Some? && rest.Some? {
      assert out + (part.value + rest.value) == (out + part.value) + rest.value;
    }
  }

  method Join(p: Primitives, key: bytes, hashes: seq<bytes>, chunks: seq<bytes>) returns (r: Option<bytes>)
    requires |chunks| == |hashes|
    ensures r == Joined(p, key, hashes, chunks, 0)
  {
    hide Nonce;
    var out := [];
    ghost var whole := Joined(p, key, hashes, chunks, 0);
    assert chunks[0..] == chunks && (whole.Some? ==> [] + whole.value == whole.value);
    for i := 0 to |chunks|
      invariant whole == After(out, Joined(p, key, hashes, chunks[i..], i))
    {
      JoinStep(p, key, hashes, chunks, i, out);
      if p.hash(chunks[i]) != hashes[i] {
        return None;
      }
      var part := p.open(key, Nonce(i), chunks[i]);
      if part.None? {
        return None;
      }
      out := out + part.value;
    }
    assert chunks[|chunks|..] == [] && out + [] == out;
    r := Some(out);
  }

  method Reassemble(p: Primitives, m: FileManifest, chunks: seq<bytes>) returns (r: Result<bytes, FileError>)
    ensures r == Reassembled(p, m, chunks)
  {
    hide Signed, Total, Joined;
    if !Signed(p, m) || |chunks| != |m.chunkHashes| {
      return Err(FileIntegrity);
    }
    var size := Sum(chunks);
    if m.totalSize > size {
      return Err(FileIntegrity);
    }
    var out := Join(p, m.fileKey, m.chunkHashes, chunks);
    r := if out.None? || |out.value| != m.totalSize then Err(FileIntegrity) else Ok(out.value);
  }

  // ----- what comes back -----

  lemma {:induction false} HonestChunksJoin(p: Primitives, key: bytes, pt: bytes, hashes: seq<bytes>, i: nat)
    requires Seals(p)
    requires i <= |hashes| && hashes[i..] == Hashes(p, Chunks(p, key, pt, i))
    ensures var chunks := Chunks(p, key, pt, i);
      |chunks| == |hashes| - i && Total(chunks) >= |pt| && Joined(p, key, hashes, chunks, i) == Some(pt)
    decreases |pt|
  {
    var chunks := Chunks(p, key, pt, i);
    assert |hashes[i..]| == |chunks|;
    if pt != [] {
      assert hashes[i] == hashes[i..][0] == p.hash(chunks[0]);
      assert chunks[1..] == Chunks(p, key, Rest(pt), i + 1);
      assert hashes[i + 1..] == hashes[i..][1..] == Hashes(p, chunks[1..]);
      HonestChunksJoin(p, key, Rest(pt), hashes, i + 1);
      assert Part(pt) + Rest(pt) == pt;
    }
  }

  /** The chunks of any plaintext reassemble to it: no guard refuses an honest file. */
  lemma HonestFilesReassemble(p: Primitives, m: FileManifest, pt: bytes)
    requires Seals(p) && Describes(p, m, pt)
    ensures Reassembled(p, m, Chunks(p, m.fileKey, pt, 0)) == Ok(pt)
  {
    hide Signed, Seals;
    assert m.chunkHashes[0..] == m.chunkHashes;
    HonestChunksJoin(p, m.fileKey, pt, m.chunkHashes, 0);
  }

  lemma {:induction false} JoinedChecksHashes(p: Primitives, key: bytes, hashes: seq<bytes>, chunks: seq<bytes>,
      i: nat, j: nat)
    requires i + |chunks| == |hashes| && j < |chunks| && Joined(p, key, hashes, chunks, i).Some?
    ensures p.hash(chunks[j]) == hashes[i + j]
    decreases |chunks|
  {
    if j > 0 {
      JoinedChecksHashes(p, key, hashes, chunks[1..], i + 1, j - 1);
    }
  }

  /**
   For an honest manifest, exactly the honest chunks are accepted, and give the
   plaintext; any other accepted list holds a hash collision with them.
   */
  lemma AcceptedChunksAreHonest(p: Primitives, m: FileManifest, pt: bytes, chunks: seq<bytes>)
    requires Seals(p) && Describes(p, m, pt)
    ensures chunks == Chunks(p, m.fileKey, pt, 0) ==> Reassembled(p, m, chunks) == Ok(pt)
    ensures Reassembled(p, m, chunks).Ok? && chunks != Chunks(p, m.fileKey, pt, 0) ==>
              exists j :: 0 <= j < |chunks| == |Chunks(p, m.fileKey, pt, 0)| &&
                          Collision(p, chunks[j], Chunks(p, m.fileKey, pt, 0)[j])
  {
    hide Signed, Seals;
    HonestFilesReassemble(p, m, pt);
    var honest := Chunks(p, m.fileKey, pt, 0);
    if Reassembled(p, m, chunks).Ok? && chunks != honest {
      assert |chunks| == |honest|;
      var j :| 0 <= j < |chunks| && chunks[j] != honest[j];
      JoinedChecksHashes(p, m.fileKey, m.chunkHashes, chunks, 0, j);
      assert Collision(p, chunks[j], honest[j]);
    }
  }

  /** `parts` are what the chunks from index `i` on open to, each with the hash that the manifest has for it. */
  ghost predicate OpensFrom(p: Primitives, m: FileManifest, chunks: seq<bytes>, i: nat, parts: seq<bytes>)
    requires i <= |chunks| == |m.chunkHashes|
  {
    && |parts| == |chunks| - i
    && forall j :: i <= j < |chunks| ==>
         p.hash(chunks[j]) == m.chunkHashes[j] && p.open(m.fileKey, Nonce(j), chunks[j]) == Some(parts[j - i])
  }

  ghost predicate OpensTo(p: Primitives, m: FileManifest, chunks: seq<bytes>, parts: seq<bytes>) {
    |chunks| == |m.chunkHashes| && OpensFrom(p, m, chunks, 0, parts)
  }

  /** The parts from index `i` on, joined. */
  lemma {:induction false} JoinedIsExact(p: Primitives, m: FileManifest, chunks: seq<bytes>, i: nat, out: bytes)
    requires i <= |chunks| == |m.chunkHashes|
    ensures Joined(p, m.fileKey, m.chunkHashes, chunks[i..], i) == Some(out) <==>
              exists parts :: OpensFrom(p, m, chunks, i, parts) && out == Each(parts, Same)
    decreases |chunks| - i
  {
    if i == |chunks| {
      assert OpensFrom(p, m, chunks, i, []) && Each([], Same) == [];
      assert forall parts :: OpensFrom(p, m, chunks, i, parts) ==> parts == [];
    } else {
      var part := p.open(m.fileKey, Nonce(i), chunks[i]);
      var rest := Joined(p, m.fileKey, m.chunkHashes, chunks[i + 1..], i + 1);
      assert chunks[i..][1..] == chunks[i + 1..];
      if Joined(p, m.fileKey, m.chunkHashes, chunks[i..], i) == Some(out) {
        JoinedIsExact(p, m, chunks, i + 1, rest.value);
        var tail :| OpensFrom(p, m, chunks, i + 1, tail) && rest.value == Each(tail, Same);
        OpensMore(p, m, chunks, i, part.value, tail);
      }
      if parts :| OpensFrom(p, m, chunks, i, parts) && out == Each(parts, Same) {
        OpensLess(p, m, chunks, i, parts);
        JoinedIsExact(p, m, chunks, i + 1, Each(parts[1..], Same));
      }
    }
  }

  lemma OpensMore(p: Primitives, m: FileManifest, chunks: seq<bytes>, i: nat, part: bytes, tail: seq<bytes>)
    requires i < |chunks| == |m.chunkHashes| && OpensFrom(p, m, chunks, i + 1, tail)
    requires p.hash(chunks[i]) == m.chunkHashes[i] && p.open(m.fileKey, Nonce(i), chunks[i]) == Some(part)
    ensures OpensFrom(p, m, chunks, i, [part] + tail) && Each([part] + tail, Same) == part + Each(tail, Same)
  {
    hide Nonce;
    assert ([part] + tail)[1..] == tail;
  }

  lemma OpensLess(p: Primitives, m: FileManifest, chunks: seq<bytes>, i: nat, parts: seq<bytes>)
    requires i < |chunks| == |m.chunkHashes| && OpensFrom(p, m, chunks, i, parts)
    ensures OpensFrom(p, m, chunks, i + 1, parts[1..])
    ensures p.hash(chunks[i]) == m.chunkHashes[i] && p.open(m.fileKey, Nonce(i), chunks[i]) == Some(parts[0])
  {
    hide Nonce;
  }

  /**
   For any manifest and any chunks, a file is accepted, and as what, exactly if the
   signature by the sender's key checks over the signed bytes, every chunk has its hash and
   opens under its nonce, the parts joined have the signed size, and that size does not
   exceed what was fetched.
   */
  lemma ReassemblyIsExact(p: Primitives, m: FileManifest, chunks: seq<bytes>, out: bytes)
    ensures Reassembled(p, m, chunks) == Ok(out) <==>
              && p.checks(m.senderIdk, p.hash(SignedBytes(m)), m.sig)
              && |out| == m.totalSize <= |Each(chunks, Same)|
              && exists parts :: OpensTo(p, m, chunks, parts) && out == Each(parts, Same)
  {
    hide SignedBytes, Joined, OpensFrom, Preimage, ClaimsOf, Each, Total;
    ClaimsLayout(m);
    TotalIs(chunks);
    if |chunks| == |m.chunkHashes| {
      assert chunks[0..] == chunks;
      JoinedIsExact(p, m, chunks, 0, out);
      if Joined(p, m.fileKey, m.chunkHashes, chunks, 0) == Some(out) {
        var parts :| OpensFrom(p, m, chunks, 0, parts) && out == Each(parts, Same);
        assert OpensTo(p, m, chunks, parts);
      }
    }
  }

  lemma {:induction false} TotalIs(chunks: seq<bytes>)
    ensures Total(chunks) == |Each(chunks, Same)|
  {
    if chunks != [] {
      TotalIs(chunks[1..]);
    }
  }

  lemma {:induction false} ChunkCount(p: Primitives, key: bytes, pt: bytes, i: nat)
    ensures var n := |Chunks(p, key, pt, i)|; (n > 0 ==> 65536 * (n - 1) < |pt|) && |pt| <= 65536 * n
    decreases |pt|
  {
    hide Nonce;
    if pt != [] {
      ChunkCount(p, key, Rest(pt), i + 1);
    }
  }

  /** Chunk `j` of a plaintext, in the clear. */
  function Piece(pt: bytes, j: nat): bytes
    requires 65536 * j <= |pt|
  {
    if 65536 * (j + 1) < |pt| then pt[65536 * j..65536 * (j + 1)] else pt[65536 * j..]
  }

  lemma PieceOfRest(pt: bytes, j: nat)
    requires |pt| > 65536 && j > 0 && 65536 * j <= |pt|
    ensures Piece(Rest(pt), j - 1) == Piece(pt, j)
  {
  }

  /** Where the plaintext is cut: every chunk but the last has 65536 bytes, and each is sealed under its own nonce. */
  lemma {:induction false} ChunksAreCut(p: Primitives, key: bytes, pt: bytes, i: nat, j: nat)
    requires j < |Chunks(p, key, pt, i)|
    ensures 65536 * j < |pt| && Chunks(p, key, pt, i)[j] == p.seal(key, Nonce(i + j), Piece(pt, j))
    decreases j
  {
    hide Nonce, Chunks, Piece, Rest;
    FirstChunk(p, key, pt, i);
    if j > 0 {
      ChunksAreCut(p, key, Rest(pt), i + 1, j - 1);
      assert |pt| > 65536 && |Rest(pt)| == |pt| - 65536 by { RestLength(pt); }
      PieceOfRest(pt, j);
    }
  }

  lemma FirstChunk(p: Primitives, key: bytes, pt: bytes, i: nat)
    requires Chunks(p, key, pt, i) != []
    ensures pt != [] && Chunks(p, key, pt, i) == [p.seal(key, Nonce(i), Piece(pt, 0))] + Chunks(p, key, Rest(pt), i + 1)
  {
    hide Nonce;
    assert Part(pt) == Piece(pt, 0);
  }

  lemma RestLength(pt: bytes)
    ensures Rest(pt) != [] ==> |pt| > 65536 && |Rest(pt)| == |pt| - 65536
  {
  }

  /** Whatever the manifest, an accepted file is signed for, has the signed size, and every chunk its signed hash. */
  lemma AcceptedFilesMatchManifest(p: Primitives, m: FileManifest, chunks: seq<bytes>)
    ensures Reassembled(p, m, chunks).Ok? ==>
              Signed(p, m) && |Reassembled(p, m, chunks).value| == m.totalSize && Hashes(p, chunks) == m.chunkHashes
  {
    hide Signed;
    if Reassembled(p, m, chunks).Ok? {
      forall j | 0 <= j < |chunks| ensures p.hash(chunks[j]) == m.chunkHashes[j] {
        JoinedChecksHashes(p, m.fileKey, m.chunkHashes, chunks, 0, j);
      }
    }
  }
}
