/** The wire formats of the direct-message stack: messages, snapshots and prekey bundles. */
module Packets {
  import opened Common
  import opened Wire

  function Id(): Codec<bytes> { Fixed(32) }

  lemma IdLaws()
    ensures Lawful(Id()) && Canonical(Id()) && AtLeast(Id(), 32)
  {
    FixedLaws(32);
  }

  // ----- messages -----

  datatype Header = Header(dh: bytes, pn: nat, n: nat)

  function HeaderShape(): Shape<(bytes, (nat, nat)), Header> {
    Shape(Pair(Id(), Pair(UInt(4), UInt(4))),
          (t: (bytes, (nat, nat))) => Header(t.0, t.1.0, t.1.1),
          (h: Header) => (h.dh, (h.pn, h.n)),
          (h: Header) => true)
  }

  function HeaderCodec(): Codec<Header> { Shaped(HeaderShape()) }

  lemma HeaderLaws()
    ensures Lawful(HeaderCodec()) && Canonical(HeaderCodec())
  {
    IdLaws();
    UIntLaws(4);
    PairLaws(UInt(4), UInt(4));
    PairLaws(Id(), Pair(UInt(4), UInt(4)));
    ShapeLawful(HeaderShape());
    ShapeCanonical(HeaderShape());
  }

  datatype DmMessage = DmMessage(header: Header, ciphertext: bytes)

  function DmMessageShape(): Shape<(Header, bytes), DmMessage> {
    Shape(Pair(HeaderCodec(), Bytes()),
          (t: (Header, bytes)) => DmMessage(t.0, t.1),
          (m: DmMessage) => (m.header, m.ciphertext),
          (m: DmMessage) => true)
  }

  function DmMessageCodec(): Codec<DmMessage> { Shaped(DmMessageShape()) }

  lemma DmMessageLaws()
    ensures Lawful(DmMessageCodec()) && Canonical(DmMessageCodec())
  {
    HeaderLaws();
    BytesLaws();
    PairLaws(HeaderCodec(), Bytes());
    ShapeLawful(DmMessageShape());
    ShapeCanonical(DmMessageShape());
  }

  datatype InitMessage = InitMessage(ik: bytes, ek: bytes, usedOtp: Option<bytes>, first: DmMessage)

  function InitShape(): Shape<(bytes, (bytes, (Option<bytes>, DmMessage))), InitMessage> {
    Shape(Pair(Id(), Pair(Id(), Pair(Maybe(Id()), Framed(DmMessageCodec())))),
          (t: (bytes, (bytes, (Option<bytes>, DmMessage)))) => InitMessage(t.0, t.1.0, t.1.1.0, t.1.1.1),
          (m: InitMessage) => (m.ik, (m.ek, (m.usedOtp, m.first))),
          (m: InitMessage) => true)
  }

  function InitCodec(): Codec<InitMessage> { Shaped(InitShape()) }

  lemma InitLaws()
    ensures Lawful(InitCodec()) && Canonical(InitCodec())
  {
    hide RoundTrips, Extends, Canonical, DmMessageCodec, Framed, Maybe, Id, Pair;
    IdLaws();
    MaybeLaws(Id());
    DmMessageLaws();
    FramedLawful(DmMessageCodec());
    FramedCanonical(DmMessageCodec());
    PairLaws(Maybe(Id()), Framed(DmMessageCodec()));
    PairLaws(Id(), Pair(Maybe(Id()), Framed(DmMessageCodec())));
    PairLaws(Id(), Pair(Id(), Pair(Maybe(Id()), Framed(DmMessageCodec()))));
    ShapeLawful(InitShape());
    ShapeCanonical(InitShape());
  }

  datatype Packet = Init(init: InitMessage) | Message(message: DmMessage)

  function InitPacket(): Shape<InitMessage, Packet> {
    Shape(Framed(InitCodec()), (m: InitMessage) => Init(m),
          (p: Packet) => if p.Init? then p.init else InitMessage([], [], None, DmMessage(Header([], 0, 0), [])),
          (p: Packet) => p.Init?)
  }

  function MessagePacket(): Shape<DmMessage, Packet> {
    Shape(Framed(DmMessageCodec()), (m: DmMessage) => Message(m),
          (p: Packet) => if p.Message? then p.message else DmMessage(Header([], 0, 0), []),
          (p: Packet) => p.Message?)
  }

  function PacketUnion(): Union<Packet> {
    Union(2,
          (p: Packet) => if p.Init? then 1 else 2,
          tag => if tag == 1 then Shaped(InitPacket()) else Shaped(MessagePacket()))
  }

  function PacketCodec(): Codec<Packet> { Tagged(PacketUnion()) }

  lemma PacketBranch(tag: nat)
    requires 1 <= tag <= 2
    ensures GoodBranch(PacketUnion(), tag)
  {
    hide RoundTrips, Extends, Canonical, InitCodec, DmMessageCodec, Framed;
    if tag == 1 {
      InitLaws();
      FramedLawful(InitCodec());
      FramedCanonical(InitCodec());
      ShapeLawful(InitPacket());
      ShapeCanonical(InitPacket());
    } else {
      DmMessageLaws();
      FramedLawful(DmMessageCodec());
      FramedCanonical(DmMessageCodec());
      ShapeLawful(MessagePacket());
      ShapeCanonical(MessagePacket());
    }
  }

  lemma PacketLaws()
    ensures Lawful(PacketCodec()) && Canonical(PacketCodec())
  {
    hide GoodBranch, RoundTrips, Extends, Canonical;
    forall tag: nat | 1 <= tag <= 2 ensures GoodBranch(PacketUnion(), tag) {
      PacketBranch(tag);
    }
    TaggedLaws(PacketUnion());
  }

  /** `Packet::decode` accepts exactly the encodings of packets, and inverts them. */
  lemma PacketsAreExact(b: bytes, p: Packet)
    ensures Finish(PacketCodec().dec(b)) == Ok(p) <==> PacketCodec().fits(p) && b == PacketCodec().enc(p)
  {
    PacketLaws();
    ExactInverse(PacketCodec(), b, p);
  }

  // ----- snapshots for the local store -----

  /** A ratchet as the store keeps it; the retained keys in some order. */
  datatype RatchetState = RatchetState(
    dhs: bytes, dhr: Option<bytes>, rk: bytes, cks: Option<bytes>, ckr: Option<bytes>,
    ns: nat, nr: nat, pn: nat, skipped: seq<(bytes, (nat, bytes))>)

  function KeptKey(): Codec<(bytes, (nat, bytes))> { Pair(Id(), Pair(UInt(4), Id())) }

  function Counters(): Codec<(nat, (nat, (nat, seq<(bytes, (nat, bytes))>)))> {
    Pair(UInt(4), Pair(UInt(4), Pair(UInt(4), List(KeptKey(), 1))))
  }

  type RatchetParts = (bytes, (Option<bytes>, (bytes, (Option<bytes>, (Option<bytes>, (nat, (nat, (nat,
    seq<(bytes, (nat, bytes))>))))))))

  function RatchetShape(): Shape<RatchetParts, RatchetState> {
    Shape(Pair(Id(), Pair(Maybe(Id()), Pair(Id(), Pair(Maybe(Id()), Pair(Maybe(Id()), Counters()))))),
          (t: RatchetParts) =>
            RatchetState(t.0, t.1.0, t.1.1.0, t.1.1.1.0, t.1.1.1.1.0,
                         t.1.1.1.1.1.0, t.1.1.1.1.1.1.0, t.1.1.1.1.1.1.1.0, t.1.1.1.1.1.1.1.1),
          (s: RatchetState) => (s.dhs, (s.dhr, (s.rk, (s.cks, (s.ckr, (s.ns, (s.nr, (s.pn, s.skipped)))))))),
          (s: RatchetState) => true)
  }

  function RatchetCodec(): Codec<RatchetState> { Shaped(RatchetShape()) }

  lemma KeptKeyLaws()
    ensures Lawful(KeptKey()) && Canonical(KeptKey()) && AtLeast(KeptKey(), 1)
  {
    hide RoundTrips, Extends, Canonical, AtLeast, Pair, Id, UInt;
    IdLaws();
    UIntLaws(4);
    PairLaws(UInt(4), Id());
    PairAtLeast(UInt(4), Id(), 4, 32);
    PairLaws(Id(), Pair(UInt(4), Id()));
    PairAtLeast(Id(), Pair(UInt(4), Id()), 32, 36);
    AtLeastLess(KeptKey(), 68, 1);
  }

  lemma CountersLaws()
    ensures Lawful(Counters()) && Canonical(Counters())
  {
    hide RoundTrips, Extends, Canonical, AtLeast, KeptKey, Pair, List, UInt;
    KeptKeyLaws();
    ListLawful(KeptKey(), 1);
    ListCanonical(KeptKey(), 1);
    UIntLaws(4);
    PairLaws(UInt(4), List(KeptKey(), 1));
    PairLaws(UInt(4), Pair(UInt(4), List(KeptKey(), 1)));
    PairLaws(UInt(4), Pair(UInt(4), Pair(UInt(4), List(KeptKey(), 1))));
  }

  lemma RatchetLaws()
    ensures Lawful(RatchetCodec()) && Canonical(RatchetCodec())
  {
    hide RoundTrips, Extends, Canonical, AtLeast, Counters, Pair, Maybe, Id;
    IdLaws();
    MaybeLaws(Id());
    CountersLaws();
    var p1 := Pair(Maybe(Id()), Counters());
    var p2 := Pair(Maybe(Id()), p1);
    var p3 := Pair(Id(), p2);
    var p4 := Pair(Maybe(Id()), p3);
    PairLaws(Maybe(Id()), Counters());
    PairLaws(Maybe(Id()), p1);
    PairLaws(Id(), p2);
    PairLaws(Maybe(Id()), p3);
    PairLaws(Id(), p4);
    RatchetShapeIsExact();
    ShapeLawful(RatchetShape());
    ShapeCanonical(RatchetShape());
  }

  lemma RatchetShapeIsExact()
    ensures Exact(RatchetShape())
  {
  }

  datatype SessionState = SessionState(ratchet: RatchetState, ad: bytes)

  function SessionShape(): Shape<(RatchetState, bytes), SessionState> {
    Shape(Pair(Framed(RatchetCodec()), Bytes()),
          (t: (RatchetState, bytes)) => SessionState(t.0, t.1),
          (s: SessionState) => (s.ratchet, s.ad),
          (s: SessionState) => true)
  }

  function SessionCodec(): Codec<SessionState> { Shaped(SessionShape()) }

  lemma SessionLaws()
    ensures Lawful(SessionCodec()) && Canonical(SessionCodec())
  {
    hide RoundTrips, Extends, Canonical, AtLeast, RatchetCodec, Pair, Framed, Bytes;
    RatchetLaws();
    BytesLaws();
    FramedLawful(RatchetCodec());
    FramedCanonical(RatchetCodec());
    PairLaws(Framed(RatchetCodec()), Bytes());
    ShapeLawful(SessionShape());
    ShapeCanonical(SessionShape());
  }

  // ----- prekeys -----

  datatype PreKeyState = PreKeyState(spk: bytes, otps: seq<bytes>)

  function PreKeyShape(): Shape<(bytes, seq<bytes>), PreKeyState> {
    Shape(Pair(Id(), List(Id(), 1)),
          (t: (bytes, seq<bytes>)) => PreKeyState(t.0, t.1),
          (s: PreKeyState) => (s.spk, s.otps),
          (s: PreKeyState) => true)
  }

  function PreKeyCodec(): Codec<PreKeyState> { Shaped(PreKeyShape()) }

  lemma PreKeyLaws()
    ensures Lawful(PreKeyCodec()) && Canonical(PreKeyCodec())
  {
    hide RoundTrips, Extends, Canonical, AtLeast, Pair, List, Id;
    IdLaws();
    AtLeastLess(Id(), 32, 1);
    ListLawful(Id(), 1);
    ListCanonical(Id(), 1);
    PairLaws(Id(), List(Id(), 1));
    ShapeLawful(PreKeyShape());
    ShapeCanonical(PreKeyShape());
  }

  datatype Bundle = Bundle(identity: bytes, idk: bytes, ik: bytes, spk: bytes, spkSig: bytes, otps: seq<(bytes, bytes)>)

  function SignedOtp(): Codec<(bytes, bytes)> { Pair(Id(), Fixed(64)) }

  type BundleParts = (bytes, (bytes, (bytes, (bytes, (bytes, seq<(bytes, bytes)>)))))

  function BundleShape(): Shape<BundleParts, Bundle> {
    Shape(Pair(Id(), Pair(Id(), Pair(Id(), Pair(Id(), Pair(Fixed(64), List(SignedOtp(), 1)))))),
          (t: BundleParts) => Bundle(t.0, t.1.0, t.1.1.0, t.1.1.1.0, t.1.1.1.1.0, t.1.1.1.1.1),
          (b: Bundle) => (b.identity, (b.idk, (b.ik, (b.spk, (b.spkSig, b.otps))))),
          (b: Bundle) => true)
  }

  function BundleCodec(): Codec<Bundle> { Shaped(BundleShape()) }

  lemma SignedOtpLaws()
    ensures Lawful(SignedOtp()) && Canonical(SignedOtp()) && AtLeast(SignedOtp(), 1)
  {
    hide RoundTrips, Extends, Canonical, AtLeast, Id, Fixed, Pair;
    IdLaws();
    FixedLaws(64);
    PairLaws(Id(), Fixed(64));
    PairAtLeast(Id(), Fixed(64), 32, 64);
    AtLeastLess(SignedOtp(), 96, 1);
  }

  lemma BundleLaws()
    ensures Lawful(BundleCodec()) && Canonical(BundleCodec())
  {
    hide RoundTrips, Extends, Canonical, AtLeast, List, Id, Fixed, SignedOtp, Pair;
    IdLaws();
    FixedLaws(64);
    SignedOtpLaws();
    ListLawful(SignedOtp(), 1);
    ListCanonical(SignedOtp(), 1);
    var p1 := Pair(Fixed(64), List(SignedOtp(), 1));
    var p2 := Pair(Id(), p1);
    var p3 := Pair(Id(), p2);
    var p4 := Pair(Id(), p3);
    PairLaws(Fixed(64), List(SignedOtp(), 1));
    PairLaws(Id(), p1);
    PairLaws(Id(), p2);
    PairLaws(Id(), p3);
    PairLaws(Id(), p4);
    ShapeLawful(BundleShape());
    ShapeCanonical(BundleShape());
  }

  /** `PreKeyBundle::decode` accepts exactly the encodings of bundles, and inverts them. */
  lemma BundlesAreExact(b: bytes, v: Bundle)
    ensures Finish(BundleCodec().dec(b)) == Ok(v) <==> BundleCodec().fits(v) && b == BundleCodec().enc(v)
  {
    BundleLaws();
    ExactInverse(BundleCodec(), b, v);
  }

  // ----- which snapshots can be saved -----

  ghost predicate Is32(b: Option<bytes>) { b.Some? ==> |b.value| == 32 }

  lemma KeptKeysFit(skipped: seq<(bytes, (nat, bytes))>)
    requires |skipped| < Pow256(4)
    requires forall i :: 0 <= i < |skipped| ==>
               |skipped[i].0| == 32 && skipped[i].1.0 < Pow256(4) && |skipped[i].1.1| == 32
    ensures List(KeptKey(), 1).fits(skipped)
  {
    hide Pow256, List, Pair, UInt;
    forall i | 0 <= i < |skipped| ensures KeptKey().fits(skipped[i]) {
      var (dh, (n, mk)) := skipped[i];
      UIntFits(4, n);
      PairFits(UInt(4), Id(), n, mk);
      PairFits(Id(), Pair(UInt(4), Id()), dh, (n, mk));
    }
    ListFits(KeptKey(), 1, skipped);
  }

  lemma CountersFit(ns: nat, nr: nat, pn: nat, skipped: seq<(bytes, (nat, bytes))>)
    requires ns < Pow256(4) && nr < Pow256(4) && pn < Pow256(4) && List(KeptKey(), 1).fits(skipped)
    ensures Counters().fits((ns, (nr, (pn, skipped))))
  {
    hide Pow256, List, KeptKey, BigEndian, Value;
  }

  lemma RatchetFits(s: RatchetState)
    requires |s.dhs| == 32 && |s.rk| == 32 && Is32(s.dhr) && Is32(s.cks) && Is32(s.ckr)
    requires Counters().fits((s.ns, (s.nr, (s.pn, s.skipped))))
    ensures RatchetCodec().fits(s)
  {
    hide Counters;
  }

  lemma SessionFits(s: SessionState)
    requires RatchetCodec().fits(s.ratchet) && |RatchetCodec().enc(s.ratchet)| < Pow256(4) && |s.ad| < Pow256(4)
    ensures SessionCodec().fits(s)
  {
    hide RatchetCodec, Pow256;
  }

  lemma PreKeyFits(s: PreKeyState)
    requires |s.spk| == 32 && |s.otps| < Pow256(4) && forall i :: 0 <= i < |s.otps| ==> |s.otps[i]| == 32
    ensures PreKeyCodec().fits(s)
  {
    hide Pow256;
    assert AllFit(Id(), s.otps);
  }
}
