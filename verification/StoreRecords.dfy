/**
 The records of the encrypted local store, and the codec of each. Two kinds of entry
 are split: one half is stored early, the other in a section that was added later.
 */
module StoreRecords {
  import opened Common
  import opened Wire
  import opened Packets

  // ----- what is stored -----

  datatype HistoryKind = Text(text: bytes) | File(filename: bytes, size: nat)

  /** The half of a history entry that the mandatory part carries. */
  datatype HistoryLine = HistoryLine(peerIdk: bytes, outgoing: bool, tsMs: nat, kind: HistoryKind)

  datatype HistoryEntry = HistoryEntry(line: HistoryLine, msgId: bytes)

  datatype ChannelLine = ChannelLine(channelId: bytes, sender: bytes, outgoing: bool, tsMs: nat, text: bytes)

  /** The half of a channel history entry that the last section carries. */
  datatype LineMeta = LineMeta(seqNo: nat, replyTo: Option<nat>, forwardedFrom: Option<bytes>)

  datatype ChannelHistoryEntry = ChannelHistoryEntry(line: ChannelLine, meta: LineMeta)

  datatype ChannelInfo = ChannelInfo(
    serverRoot: bytes, serverName: bytes, channelId: bytes, channelName: bytes, private: bool, hostId: bytes,
      voice: bool)

  datatype StoredChannel = StoredChannel(
    info: ChannelInfo, mls: bytes, lastSeq: nat, roster: seq<bytes>, logKey: Option<bytes>)

  datatype StoredHostedServer = StoredHostedServer(rootPub: bytes, name: bytes, rootSecret: bytes, channels: seq<bytes>)

  datatype StoredEdit = StoredEdit(channelId: bytes, seqNo: nat, author: bytes, text: bytes, deleted: bool)

  datatype StoredPin = StoredPin(channelId: bytes, seqNo: nat, pinnedBy: bytes, atMs: nat)

  datatype StoredDmEdit = StoredDmEdit(peerIdk: bytes, msgId: bytes, text: bytes, deleted: bool)

  datatype StoredServerPow = StoredServerPow(root: bytes, mCostKib: nat, tCost: nat, difficulty: nat, nonce: bytes)

  datatype StoredGroupCall = StoredGroupCall(channelId: bytes, mls: bytes)

  datatype PersistedState = PersistedState(
    lastAnnounceMs: nat, lastFetchSinceMs: nat, prekeys: PreKeyState,
    sessions: seq<(bytes, SessionState)>, channels: seq<StoredChannel>, hosted: seq<StoredHostedServer>,
    history: seq<HistoryEntry>, seenEnvelopes: seq<bytes>,
    channelHistory: seq<ChannelHistoryEntry>,
    inviteUses: seq<(bytes, nat)>,
    channelRemoved: seq<(bytes, (bytes, nat))>,
    serverAutokick: seq<(bytes, nat)>,
    serverPolicies: seq<bytes>,
    serverJoinPw: seq<(bytes, bytes)>,
    channelReactions: seq<(bytes, (nat, (bytes, bytes)))>,
    verifiedPeers: seq<(bytes, bytes)>,
    contacts: seq<(bytes, (bytes, nat))>,
    blocked: seq<bytes>,
    channelEdits: seq<StoredEdit>,
    channelPins: seq<StoredPin>,
    dmMsgIds: seq<bytes>,
    dmEdits: seq<StoredDmEdit>,
    serverBans: seq<(bytes, seq<bytes>)>,
    serverRegisterPow: seq<StoredServerPow>,
    groupCalls: seq<StoredGroupCall>)

  // ----- codecs that are never empty, and read only what they can write -----

  ghost predicate Firm<T(!new)>(c: Codec<T>) { Lawful(c) && AtLeast(c, 1) }

  ghost predicate Solid<T(!new)>(c: Codec<T>) { Firm(c) && Sound(c) }

  lemma PairFirm<A(!new), B(!new)>(a: Codec<A>, b: Codec<B>)
    requires Firm(a) && Firm(b)
    ensures Firm(Pair(a, b))
  {
    PairLawful(a, b);
    PairAtLeast(a, b, 1, 1);
    AtLeastLess(Pair(a, b), 2, 1);
  }

  lemma ListFirm<T(!new)>(c: Codec<T>)
    requires Firm(c)
    ensures Firm(List(c, 1))
  {
    ListLawful(c, 1);
    AtLeastLess(List(c, 1), 4, 1);
  }

  lemma ShapeFirm<A(!new), T(!new)>(s: Shape<A, T>)
    requires Exact(s) && Firm(s.parts)
    ensures Firm(Shaped(s))
  {
    ShapeLawful(s);
    ShapeAtLeast(s, 1);
  }

  lemma PairSolid<A(!new), B(!new)>(a: Codec<A>, b: Codec<B>)
    requires Solid(a) && Solid(b)
    ensures Solid(Pair(a, b))
  {
    hide Firm, Sound;
    PairFirm(a, b);
    PairSound(a, b);
  }

  lemma ListSolid<T(!new)>(c: Codec<T>)
    requires Solid(c)
    ensures Solid(List(c, 1))
  {
    hide Firm, Sound;
    ListFirm(c);
    ListSound(c, 1);
  }

  lemma ShapeSolid<A(!new), T(!new)>(s: Shape<A, T>)
    requires Exact(s) && Solid(s.parts)
    ensures Solid(Shaped(s))
  {
    hide Firm, Sound;
    ShapeFirm(s);
    ShapeSound(s);
  }

  lemma FramedSolid<T(!new)>(c: Codec<T>)
    requires RoundTrips(c) && Canonical(c)
    ensures Solid(Framed(c))
  {
    FramedLawful(c);
    AtLeastLess(Framed(c), 4, 1);
    FramedCanonical(c);
    CanonicalSound(Framed(c));
  }

  lemma UIntSolid(width: nat)
    requires width > 0
    ensures Solid(UInt(width))
  {
    UIntLaws(width);
    AtLeastLess(UInt(width), width, 1);
    CanonicalSound(UInt(width));
  }

  lemma FixedSolid(width: nat)
    requires width > 0
    ensures Solid(Fixed(width))
  {
    FixedLaws(width);
    AtLeastLess(Fixed(width), width, 1);
    CanonicalSound(Fixed(width));
  }

  lemma BasicsSolid()
    ensures Solid(Id()) && Solid(Bool()) && Solid(Str()) && Solid(Bytes()) && Solid(Maybe(Str())) && Solid(Maybe(Id()))
  {
    hide RoundTrips, Extends, Canonical, AtLeast, Sound, Bool, Str, Bytes, Maybe, Fixed;
    FixedSolid(32);
    FixedLaws(32);
    BoolLaws();
    StrLaws();
    AtLeastLess(Str(), 4, 1);
    BytesLaws();
    AtLeastLess(Bytes(), 4, 1);
    MaybeLaws(Str());
    MaybeLaws(Id());
    CanonicalSound(Bool());
    CanonicalSound(Str());
    CanonicalSound(Bytes());
    CanonicalSound(Maybe(Str()));
    CanonicalSound(Maybe(Id()));
  }

  // ----- the elements -----

  function TextShape(): Shape<bytes, HistoryKind> {
    Shape(Str(), t => Text(t), (k: HistoryKind) => if k.Text? then k.text else [], (k: HistoryKind) => k.Text?)
  }

  function FileShape(): Shape<(bytes, nat), HistoryKind> {
    Shape(Pair(Str(), UInt(8)),
          (t: (bytes, nat)) => File(t.0, t.1),
          (k: HistoryKind) => if k.File? then (k.filename, k.size) else ([], 0),
          (k: HistoryKind) => k.File?)
  }

  function KindUnion(): Union<HistoryKind> {
    Union(2,
          (k: HistoryKind) => if k.Text? then 1 else 2,
          tag => if tag == 1 then Shaped(TextShape()) else Shaped(FileShape()))
  }

  function KindCodec(): Codec<HistoryKind> { Tagged(KindUnion()) }

  lemma KindBranch(tag: nat)
    requires 1 <= tag <= 2
    ensures GoodBranch(KindUnion(), tag)
  {
    hide RoundTrips, Extends, Canonical, AtLeast, GoodBranch, Str, UInt, Pair;
    StrLaws();
    UIntLaws(8);
    PairLaws(Str(), UInt(8));
    if tag == 1 {
      VariantIsGood(KindUnion(), 1, TextShape());
    } else {
      VariantIsGood(KindUnion(), 2, FileShape());
    }
  }

  lemma KindSolid()
    ensures Solid(KindCodec())
  {
    hide GoodBranch, UInt, RoundTrips, Extends, Canonical, AtLeast, Sound, Tagged;
    forall tag: nat | 1 <= tag <= 2 ensures GoodBranch(KindUnion(), tag) {
      KindBranch(tag);
    }
    TaggedLaws(KindUnion());
    TaggedAtLeast(KindUnion());
    CanonicalSound(KindCodec());
  }

  lemma TaggedAtLeast<T(!new)>(u: Union<T>)
    ensures AtLeast(Tagged(u), 1)
  {
    var c := Tagged(u);
    forall v: T ensures AtLeastAt(c, 1, v) {
      assert |UInt(1).enc(u.tagOf(v))| == 1;
    }
  }

  type HistoryLineFields = (bytes, (bool, (nat, HistoryKind)))

  function HistoryLineShape(): Shape<HistoryLineFields, HistoryLine> {
    Shape(Pair(Id(), Pair(Bool(), Pair(UInt(8), KindCodec()))),
          (t: HistoryLineFields) => HistoryLine(t.0, t.1.0, t.1.1.0, t.1.1.1),
          (v: HistoryLine) => (v.peerIdk, (v.outgoing, (v.tsMs, v.kind))),
          (v: HistoryLine) => true)
  }

  function HistoryLineCodec(): Codec<HistoryLine> { Shaped(HistoryLineShape()) }

  lemma HistoryLineSolid()
    ensures Solid(HistoryLineCodec())
  {
    hide Solid, Pair, UInt, Id, Bool, Str, Bytes, Maybe, List, Fixed, Tagged, Framed;
    BasicsSolid();
    UIntSolid(8);
    KindSolid();
    PairSolid(UInt(8), KindCodec());
    var p1 := Pair(UInt(8), KindCodec());
    PairSolid(Bool(), p1);
    var p2 := Pair(Bool(), p1);
    PairSolid(Id(), p2);
    ShapeSolid(HistoryLineShape());
  }

  type ChannelLineFields = (bytes, (bytes, (bool, (nat, bytes))))

  function ChannelLineShape(): Shape<ChannelLineFields, ChannelLine> {
    Shape(Pair(Id(), Pair(Id(), Pair(Bool(), Pair(UInt(8), Str())))),
          (t: ChannelLineFields) => ChannelLine(t.0, t.1.0, t.1.1.0, t.1.1.1.0, t.1.1.1.1),
          (v: ChannelLine) => (v.channelId, (v.sender, (v.outgoing, (v.tsMs, v.text)))),
          (v: ChannelLine) => true)
  }

  function ChannelLineCodec(): Codec<ChannelLine> { Shaped(ChannelLineShape()) }

  lemma ChannelLineSolid()
    ensures Solid(ChannelLineCodec())
  {
    hide Solid, Pair, UInt, Id, Bool, Str, Bytes, Maybe, List, Fixed, Tagged, Framed;
    BasicsSolid();
    UIntSolid(8);
    PairSolid(UInt(8), Str());
    var p1 := Pair(UInt(8), Str());
    PairSolid(Bool(), p1);
    var p2 := Pair(Bool(), p1);
    PairSolid(Id(), p2);
    var p3 := Pair(Id(), p2);
    PairSolid(Id(), p3);
    ShapeSolid(ChannelLineShape());
  }

  /** A presence flag and a number that is there either way. */
  function ReplyCodec(): Codec<Option<nat>> {
    Codec((v: Option<nat>) => Pair(Bool(), UInt(8)).enc((v.Some?, if v.Some? then v.value else 0)),
          b => var (v, rest) :- Pair(Bool(), UInt(8)).dec(b); Done(if v.0 then Some(v.1) else None, rest),
          (v: Option<nat>) => v.Some? ==> UInt(8).fits(v.value))
  }

  lemma ReplyAt(v: Option<nat>, rest: bytes)
    requires ReplyCodec().fits(v)
    ensures RoundTripsAt(ReplyCodec(), v, rest) && AtLeastAt(ReplyCodec(), 1, v)
  {
    hide Pair, Bool, RoundTrips, Extends, AtLeast;
    BoolLaws();
    UIntLaws(8);
    var parts, x := Pair(Bool(), UInt(8)), (v.Some?, if v.Some? then v.value else 0);
    PairLaws(Bool(), UInt(8));
    PairAtLeast(Bool(), UInt(8), 1, 8);
    PairFits(Bool(), UInt(8), x.0, x.1);
    BoolFits(x.0);
    RoundTrip(parts, x, rest);
    Size(parts, 9, x);
  }

  lemma ReplyExtends(b: bytes, more: bytes)
    ensures ExtendsAt(ReplyCodec(), b, more)
  {
    hide Pair, Bool, RoundTrips, Extends, AtLeast;
    BoolLaws();
    UIntLaws(8);
    PairLaws(Bool(), UInt(8));
    if ReplyCodec().dec(b).Done? {
      Extend(Pair(Bool(), UInt(8)), b, more);
    }
  }

  lemma ReplySolid()
    ensures Solid(ReplyCodec())
  {
    var c := ReplyCodec();
    forall v: Option<nat>, rest: bytes ensures RoundTripsAt(c, v, rest) {
      if c.fits(v) {
        ReplyAt(v, rest);
      }
    }
    forall b, more ensures ExtendsAt(c, b, more) {
      ReplyExtends(b, more);
    }
    forall v: Option<nat> ensures AtLeastAt(c, 1, v) {
      if c.fits(v) {
        ReplyAt(v, []);
      }
    }
    forall b: bytes ensures SoundAt(c, b) {
      ReplySound(b);
    }
  }

  lemma ReplySound(b: bytes)
    ensures SoundAt(ReplyCodec(), b)
  {
    hide Pair, Bool, UInt, RoundTrips, Extends, AtLeast, Canonical, Pow256;
    BoolLaws();
    UIntLaws(8);
    PairLaws(Bool(), UInt(8));
    var parts := Pair(Bool(), UInt(8));
    if parts.dec(b).Done? {
      Reencode(parts, b);
      var v := parts.dec(b).value;
      PairFits(Bool(), UInt(8), v.0, v.1);
    }
  }

  lemma BoolFits(v: bool)
    ensures Bool().fits(v)
  {
  }

  type MetaFields = (nat, (Option<nat>, Option<bytes>))

  function MetaShape(): Shape<MetaFields, LineMeta> {
    Shape(Pair(UInt(8), Pair(ReplyCodec(), Maybe(Str()))),
          (t: MetaFields) => LineMeta(t.0, t.1.0, t.1.1),
          (v: LineMeta) => (v.seqNo, (v.replyTo, v.forwardedFrom)),
          (v: LineMeta) => true)
  }

  function MetaCodec(): Codec<LineMeta> { Shaped(MetaShape()) }

  lemma MetaSolid()
    ensures Solid(MetaCodec())
  {
    hide Solid, Pair, UInt, Id, Bool, Str, Bytes, Maybe, List, Fixed, Tagged, Framed;
    BasicsSolid();
    UIntSolid(8);
    ReplySolid();
    PairSolid(ReplyCodec(), Maybe(Str()));
    var p1 := Pair(ReplyCodec(), Maybe(Str()));
    PairSolid(UInt(8), p1);
    ShapeSolid(MetaShape());
  }

  type InfoFields = (bytes, (bytes, (bytes, (bytes, (bool, (bytes, bool))))))

  /** A flag added later: read if a byte is left, and otherwise `false`. */
  function VoiceCodec(): Codec<bool> {
    Codec(Bool().enc, b => if b == [] then Done(false, []) else Bool().dec(b), v => true)
  }

  function InfoShape(): Shape<InfoFields, ChannelInfo> {
    Shape(Pair(Id(), Pair(Str(), Pair(Id(), Pair(Str(), Pair(Bool(), Pair(Id(), VoiceCodec())))))),
          (t: InfoFields) => ChannelInfo(t.0, t.1.0, t.1.1.0, t.1.1.1.0, t.1.1.1.1.0, t.1.1.1.1.1.0, t.1.1.1.1.1.1),
          (v: ChannelInfo) =>
            (v.serverRoot, (v.serverName, (v.channelId, (v.channelName, (v.private, (v.hostId, v.voice)))))),
          (v: ChannelInfo) => true)
  }

  function InfoCodec(): Codec<ChannelInfo> { Shaped(InfoShape()) }

  ghost predicate AlmostAt<T>(c: Codec<T>, b: bytes) {
    c.dec(b).Done? ==> c.fits(c.dec(b).value) && |c.enc(c.dec(b).value)| + |c.dec(b).rest| <= |b| + 1
  }

  /** What decodes can be written again, in at most one byte more than was read. */
  ghost predicate Loose<T(!new)>(c: Codec<T>) {
    RoundTrips(c) && forall b :: AlmostAt(c, b)
  }

  lemma PairLoose<A(!new), B(!new)>(a: Codec<A>, b: Codec<B>)
    requires RoundTrips(a) && Canonical(a) && Loose(b)
    ensures Loose(Pair(a, b))
  {
    var c := Pair(a, b);
    forall v: (A, B), rest: bytes ensures RoundTripsAt(c, v, rest) {
      if c.fits(v) {
        RoundTrip(a, v.0, b.enc(v.1) + rest);
        RoundTrip(b, v.1, rest);
        assert c.enc(v) + rest == a.enc(v.0) + (b.enc(v.1) + rest);
      }
    }
    forall s: bytes ensures AlmostAt(c, s) {
      if c.dec(s).Done? {
        Reencode(a, s);
        assert AlmostAt(b, a.dec(s).rest);
      }
    }
  }

  lemma ShapeLoose<A(!new), T(!new)>(s: Shape<A, T>)
    requires Exact(s) && Loose(s.parts)
    ensures Loose(Shaped(s))
  {
    var c := Shaped(s);
    forall v: T, rest: bytes ensures RoundTripsAt(c, v, rest) {
      assert RoundTripsAt(s.parts, s.unwrap(v), rest) && ExactValue(s, v);
    }
    forall b: bytes ensures AlmostAt(c, b) {
      assert AlmostAt(s.parts, b);
      if s.parts.dec(b).Done? {
        assert ExactParts(s, s.parts.dec(b).value);
      }
    }
  }

  /** A frame of its own may have no room for the byte that writing adds. */
  lemma FramedLoose<T(!new)>(c: Codec<T>, ok: T -> bool)
    requires Loose(c) && forall v :: ok(v) ==> |c.enc(v)| < Pow256(4)
    ensures Firm(Framed(c)) && SoundFor(Framed(c), ok)
  {
    hide Pow256;
    FramedLawful(c);
    AtLeastLess(Framed(c), 4, 1);
    BytesLaws();
    var f := Framed(c);
    forall b: bytes ensures SoundForAt(f, ok, b) {
      if f.dec(b).Done? {
        Reencode(Bytes(), b);
        assert AlmostAt(c, Bytes().dec(b).value);
        FramedFits(c, f.dec(b).value);
      }
    }
  }

  lemma FramedFits<T>(c: Codec<T>, v: T)
    ensures Framed(c).fits(v) <==> c.fits(v) && |c.enc(v)| < Pow256(4)
    ensures forall b :: |Bytes().enc(b)| == 4 + |b|
  {
  }

  lemma VoiceLoose()
    ensures Loose(VoiceCodec())
  {
    BoolLaws();
    var c := VoiceCodec();
    forall v: bool, rest: bytes ensures RoundTripsAt(c, v, rest) {
      RoundTrip(Bool(), v, rest);
    }
    forall b: bytes ensures AlmostAt(c, b) {
      if b != [] && Bool().dec(b).Done? {
        Reencode(Bool(), b);
      }
    }
  }

  /** The record with its flag still fits into a frame. */
  predicate InfoFrames(info: ChannelInfo) { |InfoCodec().enc(info)| < Pow256(4) }

  /**
   A framed channel record decodes back; a record without the flag can be written again
   with it if the input was short or there is room for the flag.
   */
  lemma InfoIsFirm()
    ensures Firm(Framed(InfoCodec())) && SoundFor(Framed(InfoCodec()), InfoFrames)
  {
    hide RoundTrips, Extends, AtLeast, Canonical, Loose, Firm, SoundFor, Pair, Id, Str, Bool, VoiceCodec, Framed,
      Pow256;
    IdLaws();
    StrLaws();
    BoolLaws();
    VoiceLoose();
    var p1 := Pair(Id(), VoiceCodec());
    var p2 := Pair(Bool(), p1);
    var p3 := Pair(Str(), p2);
    var p4 := Pair(Id(), p3);
    var p5 := Pair(Str(), p4);
    PairLoose(Id(), VoiceCodec());
    PairLoose(Bool(), p1);
    PairLoose(Str(), p2);
    PairLoose(Id(), p3);
    PairLoose(Str(), p4);
    PairLoose(Id(), p5);
    ShapeLoose(InfoShape());
    FramedLoose(InfoCodec(), InfoFrames);
  }

  type ChannelFields = (ChannelInfo, (bytes, (nat, (seq<bytes>, Option<bytes>))))

  function ChannelShape(): Shape<ChannelFields, StoredChannel> {
    Shape(Pair(Framed(InfoCodec()), Pair(Bytes(), Pair(UInt(8), Pair(List(Id(), 1), Maybe(Id()))))),
          (t: ChannelFields) => StoredChannel(t.0, t.1.0, t.1.1.0, t.1.1.1.0, t.1.1.1.1),
          (v: StoredChannel) => (v.info, (v.mls, (v.lastSeq, (v.roster, v.logKey)))),
          (v: StoredChannel) => true)
  }

  function ChannelCodec(): Codec<StoredChannel> { Shaped(ChannelShape()) }

  predicate ChannelFrames(c: StoredChannel) { InfoFrames(c.info) }

  /** Everything in a stored channel after its framed record. */
  function ChannelRest(): Codec<(bytes, (nat, (seq<bytes>, Option<bytes>)))> {
    Pair(Bytes(), Pair(UInt(8), Pair(List(Id(), 1), Maybe(Id()))))
  }

  lemma ChannelRestSolid()
    ensures Solid(ChannelRest())
  {
    hide Solid, Pair, UInt, Id, Bytes, Maybe, List;
    BasicsSolid();
    UIntSolid(8);
    ListSolid(Id());
    PairSolid(List(Id(), 1), Maybe(Id()));
    var p1 := Pair(List(Id(), 1), Maybe(Id()));
    PairSolid(UInt(8), p1);
    PairSolid(Bytes(), Pair(UInt(8), p1));
  }

  lemma ChannelIsFirm()
    ensures Firm(ChannelCodec()) && SoundFor(ChannelCodec(), ChannelFrames)
  {
    hide Firm, Sound, SoundFor, Pair, Framed, ChannelRest, InfoCodec, InfoFrames;
    InfoIsFirm();
    ChannelRestSolid();
    SoundIsSoundFor(ChannelRest(), _ => true);
    PairFirm(Framed(InfoCodec()), ChannelRest());
    var okParts := (t: ChannelFields) => InfoFrames(t.0);
    PairSoundFor(Framed(InfoCodec()), InfoFrames, ChannelRest(), _ => true, okParts);
    assert ChannelShape().parts == Pair(Framed(InfoCodec()), ChannelRest()) by { ChannelPartsAre(); }
    ShapeFirm(ChannelShape());
    ShapeSoundFor(ChannelShape(), okParts, ChannelFrames);
  }

  lemma ChannelPartsAre()
    ensures ChannelShape().parts == Pair(Framed(InfoCodec()), ChannelRest())
  {
  }

  type HostedFields = (bytes, (bytes, (bytes, seq<bytes>)))

  function HostedShape(): Shape<HostedFields, StoredHostedServer> {
    Shape(Pair(Id(), Pair(Str(), Pair(Id(), List(Id(), 1)))),
          (t: HostedFields) => StoredHostedServer(t.0, t.1.0, t.1.1.0, t.1.1.1),
          (v: StoredHostedServer) => (v.rootPub, (v.name, (v.rootSecret, v.channels))),
          (v: StoredHostedServer) => true)
  }

  function HostedCodec(): Codec<StoredHostedServer> { Shaped(HostedShape()) }

  lemma HostedSolid()
    ensures Solid(HostedCodec())
  {
    hide Solid, Pair, UInt, Id, Bool, Str, Bytes, Maybe, List, Fixed, Tagged, Framed;
    BasicsSolid();
    ListSolid(Id());
    PairSolid(Id(), List(Id(), 1));
    var p1 := Pair(Id(), List(Id(), 1));
    PairSolid(Str(), p1);
    var p2 := Pair(Str(), p1);
    PairSolid(Id(), p2);
    ShapeSolid(HostedShape());
  }

  function InviteUseCodec(): Codec<(bytes, nat)> { Pair(Fixed(8), UInt(4)) }

  lemma InviteUseSolid()
    ensures Solid(InviteUseCodec())
  {
    hide Solid, Pair, UInt, Id, Bool, Str, Bytes, Maybe, List, Fixed, Tagged, Framed;
    BasicsSolid();
    FixedSolid(8);
    UIntSolid(4);
    PairSolid(Fixed(8), UInt(4));
  }

  function RemovedCodec(): Codec<(bytes, (bytes, nat))> { Pair(Id(), Pair(Id(), UInt(8))) }

  lemma RemovedSolid()
    ensures Solid(RemovedCodec())
  {
    hide Solid, Pair, UInt, Id, Bool, Str, Bytes, Maybe, List, Fixed, Tagged, Framed;
    BasicsSolid();
    UIntSolid(8);
    PairSolid(Id(), UInt(8));
    var p1 := Pair(Id(), UInt(8));
    PairSolid(Id(), p1);
  }

  function AutokickCodec(): Codec<(bytes, nat)> { Pair(Id(), UInt(8)) }

  lemma AutokickSolid()
    ensures Solid(AutokickCodec())
  {
    hide Solid, Pair, UInt, Id, Bool, Str, Bytes, Maybe, List, Fixed, Tagged, Framed;
    BasicsSolid();
    UIntSolid(8);
    PairSolid(Id(), UInt(8));
  }

  function IdPairCodec(): Codec<(bytes, bytes)> { Pair(Id(), Id()) }

  lemma IdPairSolid()
    ensures Solid(IdPairCodec())
  {
    hide Solid, Pair, UInt, Id, Bool, Str, Bytes, Maybe, List, Fixed, Tagged, Framed;
    BasicsSolid();
    PairSolid(Id(), Id());
  }

  function ReactionCodec(): Codec<(bytes, (nat, (bytes, bytes)))> { Pair(Id(), Pair(UInt(8), Pair(Str(), Id()))) }

  lemma ReactionSolid()
    ensures Solid(ReactionCodec())
  {
    hide Solid, Pair, UInt, Id, Bool, Str, Bytes, Maybe, List, Fixed, Tagged, Framed;
    BasicsSolid();
    UIntSolid(8);
    PairSolid(Str(), Id());
    var p1 := Pair(Str(), Id());
    PairSolid(UInt(8), p1);
    var p2 := Pair(UInt(8), p1);
    PairSolid(Id(), p2);
  }

  function ContactCodec(): Codec<(bytes, (bytes, nat))> { Pair(Id(), Pair(Str(), UInt(8))) }

  lemma ContactSolid()
    ensures Solid(ContactCodec())
  {
    hide Solid, Pair, UInt, Id, Bool, Str, Bytes, Maybe, List, Fixed, Tagged, Framed;
    BasicsSolid();
    UIntSolid(8);
    PairSolid(Str(), UInt(8));
    var p1 := Pair(Str(), UInt(8));
    PairSolid(Id(), p1);
  }

  type EditFields = (bytes, (nat, (bytes, (bytes, bool))))

  function EditShape(): Shape<EditFields, StoredEdit> {
    Shape(Pair(Id(), Pair(UInt(8), Pair(Id(), Pair(Str(), Bool())))),
          (t: EditFields) => StoredEdit(t.0, t.1.0, t.1.1.0, t.1.1.1.0, t.1.1.1.1),
          (v: StoredEdit) => (v.channelId, (v.seqNo, (v.author, (v.text, v.deleted)))),
          (v: StoredEdit) => true)
  }

  function EditCodec(): Codec<StoredEdit> { Shaped(EditShape()) }

  lemma EditSolid()
    ensures Solid(EditCodec())
  {
    hide Solid, Pair, UInt, Id, Bool, Str, Bytes, Maybe, List, Fixed, Tagged, Framed;
    BasicsSolid();
    UIntSolid(8);
    PairSolid(Str(), Bool());
    var p1 := Pair(Str(), Bool());
    PairSolid(Id(), p1);
    var p2 := Pair(Id(), p1);
    PairSolid(UInt(8), p2);
    var p3 := Pair(UInt(8), p2);
    PairSolid(Id(), p3);
    ShapeSolid(EditShape());
  }

  type PinFields = (bytes, (nat, (bytes, nat)))

  function PinShape(): Shape<PinFields, StoredPin> {
    Shape(Pair(Id(), Pair(UInt(8), Pair(Id(), UInt(8)))),
          (t: PinFields) => StoredPin(t.0, t.1.0, t.1.1.0, t.1.1.1),
          (v: StoredPin) => (v.channelId, (v.seqNo, (v.pinnedBy, v.atMs))),
          (v: StoredPin) => true)
  }

  function PinCodec(): Codec<StoredPin> { Shaped(PinShape()) }

  lemma PinSolid()
    ensures Solid(PinCodec())
  {
    hide Solid, Pair, UInt, Id, Bool, Str, Bytes, Maybe, List, Fixed, Tagged, Framed;
    BasicsSolid();
    UIntSolid(8);
    PairSolid(Id(), UInt(8));
    var p1 := Pair(Id(), UInt(8));
    PairSolid(UInt(8), p1);
    var p2 := Pair(UInt(8), p1);
    PairSolid(Id(), p2);
    ShapeSolid(PinShape());
  }

  function MsgIdCodec(): Codec<bytes> { Fixed(16) }

  lemma MsgIdSolid()
    ensures Solid(MsgIdCodec())
  {
    FixedSolid(16);
  }

  type DmEditFields = (bytes, (bytes, (bytes, bool)))

  function DmEditShape(): Shape<DmEditFields, StoredDmEdit> {
    Shape(Pair(Id(), Pair(MsgIdCodec(), Pair(Str(), Bool()))),
          (t: DmEditFields) => StoredDmEdit(t.0, t.1.0, t.1.1.0, t.1.1.1),
          (v: StoredDmEdit) => (v.peerIdk, (v.msgId, (v.text, v.deleted))),
          (v: StoredDmEdit) => true)
  }

  function DmEditCodec(): Codec<StoredDmEdit> { Shaped(DmEditShape()) }

  lemma DmEditSolid()
    ensures Solid(DmEditCodec())
  {
    hide Solid, Pair, UInt, Id, Bool, Str, Bytes, Maybe, List, Fixed, Tagged, Framed;
    BasicsSolid();
    FixedSolid(16);
    PairSolid(Str(), Bool());
    var p1 := Pair(Str(), Bool());
    PairSolid(MsgIdCodec(), p1);
    var p2 := Pair(MsgIdCodec(), p1);
    PairSolid(Id(), p2);
    ShapeSolid(DmEditShape());
  }

  function BanCodec(): Codec<(bytes, seq<bytes>)> { Pair(Id(), List(Id(), 1)) }

  lemma BanSolid()
    ensures Solid(BanCodec())
  {
    hide Solid, Pair, UInt, Id, Bool, Str, Bytes, Maybe, List, Fixed, Tagged, Framed;
    BasicsSolid();
    ListSolid(Id());
    PairSolid(Id(), List(Id(), 1));
  }

  type PowFields = (bytes, (nat, (nat, (nat, bytes))))

  function PowShape(): Shape<PowFields, StoredServerPow> {
    Shape(Pair(Id(), Pair(UInt(4), Pair(UInt(4), Pair(UInt(1), Fixed(16))))),
          (t: PowFields) => StoredServerPow(t.0, t.1.0, t.1.1.0, t.1.1.1.0, t.1.1.1.1),
          (v: StoredServerPow) => (v.root, (v.mCostKib, (v.tCost, (v.difficulty, v.nonce)))),
          (v: StoredServerPow) => true)
  }

  function PowCodec(): Codec<StoredServerPow> { Shaped(PowShape()) }

  lemma PowSolid()
    ensures Solid(PowCodec())
  {
    hide Solid, Pair, UInt, Id, Bool, Str, Bytes, Maybe, List, Fixed, Tagged, Framed;
    BasicsSolid();
    UIntSolid(4);
    UIntSolid(1);
    FixedSolid(16);
    PairSolid(UInt(1), Fixed(16));
    var p1 := Pair(UInt(1), Fixed(16));
    PairSolid(UInt(4), p1);
    var p2 := Pair(UInt(4), p1);
    PairSolid(UInt(4), p2);
    var p3 := Pair(UInt(4), p2);
    PairSolid(Id(), p3);
    ShapeSolid(PowShape());
  }

  type CallFields = (bytes, bytes)

  function CallShape(): Shape<CallFields, StoredGroupCall> {
    Shape(Pair(Id(), Bytes()),
          (t: CallFields) => StoredGroupCall(t.0, t.1),
          (v: StoredGroupCall) => (v.channelId, v.mls),
          (v: StoredGroupCall) => true)
  }

  function CallCodec(): Codec<StoredGroupCall> { Shaped(CallShape()) }

  lemma CallSolid()
    ensures Solid(CallCodec())
  {
    hide Solid, Pair, UInt, Id, Bool, Str, Bytes, Maybe, List, Fixed, Tagged, Framed;
    BasicsSolid();
    PairSolid(Id(), Bytes());
    ShapeSolid(CallShape());
  }
}
