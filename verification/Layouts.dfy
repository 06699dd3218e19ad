/**
 The direct-message formats byte by byte: what each value is written as, which values can
 be written, and, as the codecs are exact, which bytes are read back and as what.
 */
module Layouts {
  import opened Common
  import opened Wire
  import opened Flat
  import opened Packets
  import opened Invite

  // ----- messages -----

  function HeaderBytes(v: Header): bytes {
    v.dh + (U32(v.pn) + (U32(v.n)))
  }

  predicate HeaderFields(v: Header) {
    IsId(v.dh) && IsU32(v.pn) && IsU32(v.n)
  }

  lemma HeaderLayout(v: Header)
    ensures HeaderCodec().enc(v) == HeaderBytes(v) && (HeaderCodec().fits(v) <==> HeaderFields(v))
  {
    hide Pair, UInt, Fixed, Str, Bytes, Bool, Maybe, List, Framed, Utf8, Shaped;
    FixedIsFlat(32, v.dh);
    UIntIsFlat(v.pn);
    UIntIsFlat(v.n);
    PairIsFlat(UInt(4), UInt(4), v.pn, v.n);
    var p1, y1 := Pair(UInt(4), UInt(4)), (v.pn, v.n);
    PairIsFlat(Id(), p1, v.dh, y1);
    ShapedIsFlat(HeaderShape(), v);
  }

  function DmMessageBytes(v: DmMessage): bytes {
    HeaderBytes(v.header) + (Sized(v.ciphertext))
  }

  predicate DmMessageFields(v: DmMessage) {
    HeaderFields(v.header) && IsBlob(v.ciphertext)
  }

  lemma DmMessageLayout(v: DmMessage)
    ensures DmMessageCodec().enc(v) == DmMessageBytes(v) && (DmMessageCodec().fits(v) <==> DmMessageFields(v))
  {
    hide Pair, UInt, Fixed, Str, Bytes, Bool, Maybe, List, Framed, Utf8, Shaped, HeaderCodec, HeaderBytes,
      HeaderFields;
    HeaderLayout(v.header);
    BytesIsFlat(v.ciphertext);
    PairIsFlat(HeaderCodec(), Bytes(), v.header, v.ciphertext);
    ShapedIsFlat(DmMessageShape(), v);
  }

  function InitBytes(v: InitMessage): bytes {
    v.ik + (v.ek + (Perhaps(v.usedOtp) + (Sized(DmMessageBytes(v.first)))))
  }

  predicate InitFields(v: InitMessage) {
    IsId(v.ik) && IsId(v.ek) && (v.usedOtp.Some? ==> IsId(v.usedOtp.value)) &&
    DmMessageFields(v.first) && IsBlob(DmMessageBytes(v.first))
  }

  lemma InitLayout(v: InitMessage)
    ensures InitCodec().enc(v) == InitBytes(v) && (InitCodec().fits(v) <==> InitFields(v))
  {
    hide Pair, UInt, Fixed, Str, Bytes, Bool, Maybe, List, Framed, Utf8, Shaped, DmMessageCodec,
      DmMessageBytes, DmMessageFields;
    FixedIsFlat(32, v.ik);
    FixedIsFlat(32, v.ek);
    MaybeIdIsFlat(v.usedOtp);
    DmMessageLayout(v.first);
    FramedIsFlat(DmMessageCodec(), v.first);
    PairIsFlat(Maybe(Id()), Framed(DmMessageCodec()), v.usedOtp, v.first);
    var p1, y1 := Pair(Maybe(Id()), Framed(DmMessageCodec())), (v.usedOtp, v.first);
    PairIsFlat(Id(), p1, v.ek, y1);
    var p2, y2 := Pair(Id(), p1), (v.ek, y1);
    PairIsFlat(Id(), p2, v.ik, y2);
    ShapedIsFlat(InitShape(), v);
  }

  /** The discriminant, and the framed message. */
  function PacketBytes(p: Packet): bytes {
    match p
    case Init(m) => [1] + Sized(InitBytes(m))
    case Message(m) => [2] + Sized(DmMessageBytes(m))
  }

  predicate PacketFields(p: Packet) {
    match p
    case Init(m) => InitFields(m) && IsBlob(InitBytes(m))
    case Message(m) => DmMessageFields(m) && IsBlob(DmMessageBytes(m))
  }

  lemma PacketLayout(p: Packet)
    ensures PacketCodec().enc(p) == PacketBytes(p) && (PacketCodec().fits(p) <==> PacketFields(p))
  {
    hide Tagged, Shaped, Framed, InitCodec, DmMessageCodec, InitBytes, DmMessageBytes, InitFields, DmMessageFields;
    TaggedIsFlat(PacketUnion(), p);
    match p {
      case Init(m) =>
        InitLayout(m);
        FramedIsFlat(InitCodec(), m);
        ShapedIsFlat(InitPacket(), p);
      case Message(m) =>
        DmMessageLayout(m);
        FramedIsFlat(DmMessageCodec(), m);
        ShapedIsFlat(MessagePacket(), p);
    }
  }

  /** Bytes are read as a packet exactly if they are the packet written out. */
  lemma PacketsByteForByte(b: bytes, p: Packet)
    ensures Finish(PacketCodec().dec(b)) == Ok(p) <==> PacketFields(p) && b == PacketBytes(p)
  {
    hide PacketCodec, PacketBytes, PacketFields;
    PacketLayout(p);
    PacketsAreExact(b, p);
  }

  // ----- prekeys -----

  function SignedOtpBytes(v: (bytes, bytes)): bytes {
    v.0 + (v.1)
  }

  predicate SignedOtpFields(v: (bytes, bytes)) {
    IsId(v.0) && |v.1| == 64
  }

  lemma SignedOtpLayout(v: (bytes, bytes))
    ensures SignedOtp().enc(v) == SignedOtpBytes(v) && (SignedOtp().fits(v) <==> SignedOtpFields(v))
  {
    hide Pair, UInt, Fixed, Str, Bytes, Bool, Maybe, List, Framed, Utf8;
    FixedIsFlat(32, v.0);
    FixedIsFlat(64, v.1);
    PairIsFlat(Id(), Fixed(64), v.0, v.1);
  }

  function BundleBytes(v: Bundle): bytes {
    v.identity + (v.idk + (v.ik + (v.spk + (v.spkSig + (Counted(v.otps, SignedOtpBytes))))))
  }

  predicate BundleFields(v: Bundle) {
    IsId(v.identity) && IsId(v.idk) && IsId(v.ik) && IsId(v.spk) && |v.spkSig| == 64 &&
    IsU32(|v.otps|) && (forall y :: y in v.otps ==> SignedOtpFields(y))
  }

  lemma BundleLayout(v: Bundle)
    ensures BundleCodec().enc(v) == BundleBytes(v) && (BundleCodec().fits(v) <==> BundleFields(v))
  {
    hide Pair, UInt, Fixed, Str, Bytes, Bool, Maybe, List, Framed, Utf8, Shaped, SignedOtp, SignedOtpBytes,
      SignedOtpFields;
    FixedIsFlat(32, v.identity);
    FixedIsFlat(32, v.idk);
    FixedIsFlat(32, v.ik);
    FixedIsFlat(32, v.spk);
    FixedIsFlat(64, v.spkSig);
    forall y | y in v.otps
      ensures SignedOtp().enc(y) == SignedOtpBytes(y) && (SignedOtp().fits(y) <==> SignedOtpFields(y))
    {
      SignedOtpLayout(y);
    }
    ListIsFlat(SignedOtp(), 1, v.otps, SignedOtpBytes);
    PairIsFlat(Fixed(64), List(SignedOtp(), 1), v.spkSig, v.otps);
    var p1, y1 := Pair(Fixed(64), List(SignedOtp(), 1)), (v.spkSig, v.otps);
    PairIsFlat(Id(), p1, v.spk, y1);
    var p2, y2 := Pair(Id(), p1), (v.spk, y1);
    PairIsFlat(Id(), p2, v.ik, y2);
    var p3, y3 := Pair(Id(), p2), (v.ik, y2);
    PairIsFlat(Id(), p3, v.idk, y3);
    var p4, y4 := Pair(Id(), p3), (v.idk, y3);
    PairIsFlat(Id(), p4, v.identity, y4);
    ShapedIsFlat(BundleShape(), v);
  }

  lemma BundlesByteForByte(b: bytes, v: Bundle)
    ensures Finish(BundleCodec().dec(b)) == Ok(v) <==> BundleFields(v) && b == BundleBytes(v)
  {
    hide BundleCodec, BundleBytes, BundleFields;
    BundleLayout(v);
    BundlesAreExact(b, v);
  }

  // ----- snapshots -----

  function PreKeyBytes(v: PreKeyState): bytes {
    v.spk + (Counted(v.otps, Same))
  }

  predicate PreKeyFields(v: PreKeyState) {
    IsId(v.spk) && IsU32(|v.otps|) && (forall i :: i in v.otps ==> IsId(i))
  }

  lemma PreKeyLayout(v: PreKeyState)
    ensures PreKeyCodec().enc(v) == PreKeyBytes(v) && (PreKeyCodec().fits(v) <==> PreKeyFields(v))
  {
    hide Pair, UInt, Fixed, Str, Bytes, Bool, Maybe, List, Framed, Utf8, Shaped;
    FixedIsFlat(32, v.spk);
    IdsAreFlat(v.otps);
    PairIsFlat(Id(), List(Id(), 1), v.spk, v.otps);
    ShapedIsFlat(PreKeyShape(), v);
  }

  function KeptKeyBytes(v: (bytes, (nat, bytes))): bytes {
    v.0 + (U32(v.1.0) + (v.1.1))
  }

  predicate KeptKeyFields(v: (bytes, (nat, bytes))) {
    IsId(v.0) && IsU32(v.1.0) && IsId(v.1.1)
  }

  lemma KeptKeyLayout(v: (bytes, (nat, bytes)))
    ensures KeptKey().enc(v) == KeptKeyBytes(v) && (KeptKey().fits(v) <==> KeptKeyFields(v))
  {
    hide Pair, UInt, Fixed, Str, Bytes, Bool, Maybe, List, Framed, Utf8;
    FixedIsFlat(32, v.0);
    UIntIsFlat(v.1.0);
    FixedIsFlat(32, v.1.1);
    PairIsFlat(UInt(4), Id(), v.1.0, v.1.1);
    var p1, y1 := Pair(UInt(4), Id()), (v.1.0, v.1.1);
    PairIsFlat(Id(), p1, v.0, y1);
  }

  function RatchetBytes(v: RatchetState): bytes {
    v.dhs + (Perhaps(v.dhr) + (v.rk + (Perhaps(v.cks) + (Perhaps(v.ckr) + (U32(v.ns) + (U32(v.nr) + (
      U32(v.pn) + (Counted(v.skipped, KeptKeyBytes)))))))))
  }

  predicate RatchetFields(v: RatchetState) {
    IsId(v.dhs) && (v.dhr.Some? ==> IsId(v.dhr.value)) && IsId(v.rk) && (v.cks.Some? ==> IsId(v.cks.value)) &&
    (v.ckr.Some? ==> IsId(v.ckr.value)) && IsU32(v.ns) && IsU32(v.nr) && IsU32(v.pn) &&
    IsU32(|v.skipped|) && (forall y :: y in v.skipped ==> KeptKeyFields(y))
  }

  lemma RatchetLayout(v: RatchetState)
    ensures RatchetCodec().enc(v) == RatchetBytes(v) && (RatchetCodec().fits(v) <==> RatchetFields(v))
  {
    hide Pair, UInt, Fixed, Str, Bytes, Bool, Maybe, List, Framed, Utf8, Shaped, KeptKey, KeptKeyBytes,
      KeptKeyFields;
    FixedIsFlat(32, v.dhs);
    MaybeIdIsFlat(v.dhr);
    FixedIsFlat(32, v.rk);
    MaybeIdIsFlat(v.cks);
    MaybeIdIsFlat(v.ckr);
    UIntIsFlat(v.ns);
    UIntIsFlat(v.nr);
    UIntIsFlat(v.pn);
    forall y | y in v.skipped
      ensures KeptKey().enc(y) == KeptKeyBytes(y) && (KeptKey().fits(y) <==> KeptKeyFields(y))
    {
      KeptKeyLayout(y);
    }
    ListIsFlat(KeptKey(), 1, v.skipped, KeptKeyBytes);
    PairIsFlat(UInt(4), List(KeptKey(), 1), v.pn, v.skipped);
    var p1, y1 := Pair(UInt(4), List(KeptKey(), 1)), (v.pn, v.skipped);
    PairIsFlat(UInt(4), p1, v.nr, y1);
    var p2, y2 := Pair(UInt(4), p1), (v.nr, y1);
    PairIsFlat(UInt(4), p2, v.ns, y2);
    var p3, y3 := Pair(UInt(4), p2), (v.ns, y2);
    PairIsFlat(Maybe(Id()), p3, v.ckr, y3);
    var p4, y4 := Pair(Maybe(Id()), p3), (v.ckr, y3);
    PairIsFlat(Maybe(Id()), p4, v.cks, y4);
    var p5, y5 := Pair(Maybe(Id()), p4), (v.cks, y4);
    PairIsFlat(Id(), p5, v.rk, y5);
    var p6, y6 := Pair(Id(), p5), (v.rk, y5);
    PairIsFlat(Maybe(Id()), p6, v.dhr, y6);
    var p7, y7 := Pair(Maybe(Id()), p6), (v.dhr, y6);
    PairIsFlat(Id(), p7, v.dhs, y7);
    ShapedIsFlat(RatchetShape(), v);
  }

  function SessionBytes(v: SessionState): bytes {
    Sized(RatchetBytes(v.ratchet)) + (Sized(v.ad))
  }

  predicate SessionFields(v: SessionState) {
    RatchetFields(v.ratchet) && IsBlob(RatchetBytes(v.ratchet)) && IsBlob(v.ad)
  }

  lemma SessionLayout(v: SessionState)
    ensures SessionCodec().enc(v) == SessionBytes(v) && (SessionCodec().fits(v) <==> SessionFields(v))
  {
    hide Pair, UInt, Fixed, Str, Bytes, Bool, Maybe, List, Framed, Utf8, Shaped, RatchetCodec, RatchetBytes,
      RatchetFields;
    RatchetLayout(v.ratchet);
    FramedIsFlat(RatchetCodec(), v.ratchet);
    BytesIsFlat(v.ad);
    PairIsFlat(Framed(RatchetCodec()), Bytes(), v.ratchet, v.ad);
    ShapedIsFlat(SessionShape(), v);
  }

  /** Snapshots are read exactly from what they are written as. */
  lemma SnapshotsByteForByte(b: bytes, s: SessionState, k: PreKeyState)
    ensures Finish(SessionCodec().dec(b)) == Ok(s) <==> SessionFields(s) && b == SessionBytes(s)
    ensures Finish(PreKeyCodec().dec(b)) == Ok(k) <==> PreKeyFields(k) && b == PreKeyBytes(k)
  {
    hide SessionCodec, SessionBytes, SessionFields, PreKeyCodec, PreKeyBytes, PreKeyFields, RoundTrips, Canonical,
      Extends;
    SessionLaws();
    SessionLayout(s);
    ExactInverse(SessionCodec(), b, s);
    PreKeyLaws();
    PreKeyLayout(k);
    ExactInverse(PreKeyCodec(), b, k);
  }

  // ----- invite tokens -----

  /** Everything the signature covers. */
  function TokenBody(v: InviteToken): bytes {
    [1] + (v.serverRoot + (v.hostId + (v.channelId + (Sized(v.relayHint) + (U64(v.expiresMs) +
      (U32(v.maxUses) + v.nonce))))))
  }

  predicate TokenFields(v: InviteToken) {
    && IsId(v.serverRoot) && IsId(v.hostId) && IsId(v.channelId) && IsText(v.relayHint) && IsU64(v.expiresMs)
    && IsU32(v.maxUses) && |v.nonce| == 8 && |v.sig| == 64 && IsBlob(TokenBody(v))
  }

  lemma TokenBodyLayout(v: InviteToken)
    ensures var t := TokenShape().unwrap(v).0;
      && BodyCodec().enc(t) == TokenBody(v)
      && (BodyCodec().fits(t) <==>
            && IsId(v.serverRoot) && IsId(v.hostId) && IsId(v.channelId) && IsText(v.relayHint) && IsU64(v.expiresMs)
            && IsU32(v.maxUses) && |v.nonce| == 8)
  {
    hide Pair, UInt, Fixed, Str, Utf8;
    FixedIsFlat(32, v.serverRoot);
    FixedIsFlat(32, v.hostId);
    FixedIsFlat(32, v.channelId);
    StrIsFlat(v.relayHint);
    UIntIsFlat(v.expiresMs);
    UIntIsFlat(v.maxUses);
    FixedIsFlat(8, v.nonce);
    var p1, y1 := Pair(UInt(4), Fixed(8)), (v.maxUses, v.nonce);
    var p2, y2 := Pair(UInt(8), p1), (v.expiresMs, y1);
    var p3, y3 := Pair(Str(), p2), (v.relayHint, y2);
    var p4, y4 := Pair(Id(), p3), (v.channelId, y3);
    var p5, y5 := Pair(Id(), p4), (v.hostId, y4);
    var p6, y6 := Pair(Id(), p5), (v.serverRoot, y5);
    PairIsFlat(UInt(4), Fixed(8), v.maxUses, v.nonce);
    PairIsFlat(UInt(8), p1, v.expiresMs, y1);
    PairIsFlat(Str(), p2, v.relayHint, y2);
    PairIsFlat(Id(), p3, v.channelId, y3);
    PairIsFlat(Id(), p4, v.hostId, y4);
    PairIsFlat(Id(), p5, v.serverRoot, y5);
    PairIsFlat(Version(), p6, (), y6);
  }

  lemma TokenLayout(v: InviteToken)
    ensures TokenCodec().enc(v) == Sized(TokenBody(v)) + v.sig && (TokenCodec().fits(v) <==> TokenFields(v))
  {
    hide Pair, Framed, Fixed, BodyCodec, Shaped, TokenBody, Utf8;
    var t := TokenShape().unwrap(v).0;
    TokenBodyLayout(v);
    FramedIsFlat(BodyCodec(), t);
    FixedIsFlat(64, v.sig);
    PairIsFlat(Framed(BodyCodec()), Fixed(64), t, v.sig);
    ShapedIsFlat(TokenShape(), v);
  }

  /** Bytes are read as a token exactly if they are its framed body and its signature. */
  lemma TokensByteForByte(b: bytes, v: InviteToken)
    ensures Finish(TokenCodec().dec(b)) == Ok(v) <==> TokenFields(v) && b == Sized(TokenBody(v)) + v.sig
  {
    hide TokenCodec, TokenBody, TokenFields;
    TokenLayout(v);
    TokensAreExact(b, v);
  }
}
