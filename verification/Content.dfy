/**
 The application payload carried inside the ratchet: 23 tagged variants, and the
 file manifest one of them embeds. Strings are their UTF-8 bytes.
 */
module Content {
  import opened Common
  import opened Wire
  import opened Packets

  // ----- the file manifest -----

  datatype FileManifest = FileManifest(
    fileKey: bytes, filename: bytes, totalSize: nat, chunkSize: nat, chunkHashes: seq<bytes>, senderIdk: bytes,
      sig: bytes)

  type ManifestParts = (bytes, (bytes, (nat, (nat, (seq<bytes>, (bytes, bytes))))))

  function ManifestShape(): Shape<ManifestParts, FileManifest> {
    Shape(Pair(Id(), Pair(Str(), Pair(UInt(8), Pair(UInt(4), Pair(List(Id(), 1), Pair(Id(), Fixed(64))))))),
          (t: ManifestParts) => FileManifest(t.0, t.1.0, t.1.1.0, t.1.1.1.0, t.1.1.1.1.0, t.1.1.1.1.1.0, t.1.1.1.1.1.1),
          (m: FileManifest) => (m.fileKey, (m.filename, (m.totalSize, (m.chunkSize, (m.chunkHashes, (m.senderIdk,
            m.sig)))))),
          (m: FileManifest) => true)
  }

  function ManifestCodec(): Codec<FileManifest> { Shaped(ManifestShape()) }

  lemma ManifestLaws()
    ensures Lawful(ManifestCodec()) && Canonical(ManifestCodec())
  {
    hide RoundTrips, Extends, Canonical, AtLeast, Pair, List, Id, Fixed, Str, UInt;
    IdLaws();
    FixedLaws(64);
    StrLaws();
    UIntLaws(8);
    UIntLaws(4);
    AtLeastLess(Id(), 32, 1);
    ListLawful(Id(), 1);
    ListCanonical(Id(), 1);
    var p1 := Pair(Id(), Fixed(64));
    var p2 := Pair(List(Id(), 1), p1);
    var p3 := Pair(UInt(4), p2);
    var p4 := Pair(UInt(8), p3);
    var p5 := Pair(Str(), p4);
    PairLaws(Id(), Fixed(64));
    PairLaws(List(Id(), 1), p1);
    PairLaws(UInt(4), p2);
    PairLaws(UInt(8), p3);
    PairLaws(Str(), p4);
    PairLaws(Id(), p5);
    ShapeLawful(ManifestShape());
    ShapeCanonical(ManifestShape());
  }

  // ----- the variants -----

  datatype Content =
    | Text(text: bytes)
    | File(manifest: FileManifest)
    | Channel(control: bytes)
    | Typing
    | Reaction(targetSeq: nat, emoji: bytes, remove: bool)
    | CallOffer(offer: bytes)
    | CallAnswer(answer: bytes)
    | CallIce(candidate: bytes)
    | CallEnd
    | GroupCallWelcome(channelId: bytes, blob: bytes)
    | GroupCallCommit(channelId: bytes, blob: bytes)
    | GroupCallLeave(channelId: bytes)
    | Edit(targetSeq: nat, text: bytes)
    | Delete(targetSeq: nat)
    | Reply(targetSeq: nat, text: bytes)
    | Pin(targetSeq: nat, unpin: bool)
    | TextId(text: bytes, id: bytes)
    | DmEdit(target: bytes, text: bytes)
    | DmDelete(target: bytes)
    | Forward(origin: bytes, text: bytes)
    | GroupCallJoinRequest(channelId: bytes)
    | VoiceSignal(channelId: bytes, kind: nat, data: bytes)
    | CallSignal(kind: nat, data: bytes)

  function AsText(): Shape<bytes, Content> {
    Shape(Str(), (x: bytes) => Text(x), (c: Content) => if c.Text? then c.text else [], (c: Content) => c.Text?)
  }

  function AsFile(): Shape<FileManifest, Content> {
    Shape(Framed(ManifestCodec()),
          (x: FileManifest) => File(x),
          (c: Content) => if c.File? then c.manifest else FileManifest([], [], 0, 0, [], [], []),
          (c: Content) => c.File?)
  }

  function AsChannel(): Shape<bytes, Content> {
    Shape(Bytes(),
          (x: bytes) => Channel(x),
          (c: Content) => if c.Channel? then c.control else [],
          (c: Content) => c.Channel?)
  }

  function AsTyping(): Shape<(), Content> {
    Shape(Unit(), _ => Typing, (c: Content) => (), (c: Content) => c.Typing?)
  }

  function AsReaction(): Shape<(nat, (bytes, bool)), Content> {
    Shape(Pair(UInt(8), Pair(Str(), Bool())),
          (x: (nat, (bytes, bool))) => Reaction(x.0, x.1.0, x.1.1),
          (c: Content) => if c.Reaction? then (c.targetSeq, (c.emoji, c.remove)) else (0, ([], false)),
          (c: Content) => c.Reaction?)
  }

  function AsCallOffer(): Shape<bytes, Content> {
    Shape(Str(),
          (x: bytes) => CallOffer(x),
          (c: Content) => if c.CallOffer? then c.offer else [],
          (c: Content) => c.CallOffer?)
  }

  function AsCallAnswer(): Shape<bytes, Content> {
    Shape(Str(),
          (x: bytes) => CallAnswer(x),
          (c: Content) => if c.CallAnswer? then c.answer else [],
          (c: Content) => c.CallAnswer?)
  }

  function AsCallIce(): Shape<bytes, Content> {
    Shape(Str(),
          (x: bytes) => CallIce(x),
          (c: Content) => if c.CallIce? then c.candidate else [],
          (c: Content) => c.CallIce?)
  }

  function AsCallEnd(): Shape<(), Content> {
    Shape(Unit(), _ => CallEnd, (c: Content) => (), (c: Content) => c.CallEnd?)
  }

  function AsGroupCallWelcome(): Shape<(bytes, bytes), Content> {
    Shape(Pair(Id(), Bytes()),
          (x: (bytes, bytes)) => GroupCallWelcome(x.0, x.1),
          (c: Content) => if c.GroupCallWelcome? then (c.channelId, c.blob) else ([], []),
          (c: Content) => c.GroupCallWelcome?)
  }

  function AsGroupCallCommit(): Shape<(bytes, bytes), Content> {
    Shape(Pair(Id(), Bytes()),
          (x: (bytes, bytes)) => GroupCallCommit(x.0, x.1),
          (c: Content) => if c.GroupCallCommit? then (c.channelId, c.blob) else ([], []),
          (c: Content) => c.GroupCallCommit?)
  }

  function AsGroupCallLeave(): Shape<bytes, Content> {
    Shape(Id(),
          (x: bytes) => GroupCallLeave(x),
          (c: Content) => if c.GroupCallLeave? then c.channelId else [],
          (c: Content) => c.GroupCallLeave?)
  }

  function AsEdit(): Shape<(nat, bytes), Content> {
    Shape(Pair(UInt(8), Str()),
          (x: (nat, bytes)) => Edit(x.0, x.1),
          (c: Content) => if c.Edit? then (c.targetSeq, c.text) else (0, []),
          (c: Content) => c.Edit?)
  }

  function AsDelete(): Shape<nat, Content> {
    Shape(UInt(8),
          (x: nat) => Delete(x),
          (c: Content) => if c.Delete? then c.targetSeq else 0,
          (c: Content) => c.Delete?)
  }

  function AsReply(): Shape<(nat, bytes), Content> {
    Shape(Pair(UInt(8), Str()),
          (x: (nat, bytes)) => Reply(x.0, x.1),
          (c: Content) => if c.Reply? then (c.targetSeq, c.text) else (0, []),
          (c: Content) => c.Reply?)
  }

  function AsPin(): Shape<(nat, bool), Content> {
    Shape(Pair(UInt(8), Bool()),
          (x: (nat, bool)) => Pin(x.0, x.1),
          (c: Content) => if c.Pin? then (c.targetSeq, c.unpin) else (0, false),
          (c: Content) => c.Pin?)
  }

  function AsTextId(): Shape<(bytes, bytes), Content> {
    Shape(Pair(Str(), Fixed(16)),
          (x: (bytes, bytes)) => TextId(x.0, x.1),
          (c: Content) => if c.TextId? then (c.text, c.id) else ([], []),
          (c: Content) => c.TextId?)
  }

  function AsDmEdit(): Shape<(bytes, bytes), Content> {
    Shape(Pair(Fixed(16), Str()),
          (x: (bytes, bytes)) => DmEdit(x.0, x.1),
          (c: Content) => if c.DmEdit? then (c.target, c.text) else ([], []),
          (c: Content) => c.DmEdit?)
  }

  function AsDmDelete(): Shape<bytes, Content> {
    Shape(Fixed(16),
          (x: bytes) => DmDelete(x),
          (c: Content) => if c.DmDelete? then c.target else [],
          (c: Content) => c.DmDelete?)
  }

  function AsForward(): Shape<(bytes, bytes), Content> {
    Shape(Pair(Str(), Str()),
          (x: (bytes, bytes)) => Forward(x.0, x.1),
          (c: Content) => if c.Forward? then (c.origin, c.text) else ([], []),
          (c: Content) => c.Forward?)
  }

  function AsGroupCallJoinRequest(): Shape<bytes, Content> {
    Shape(Id(),
          (x: bytes) => GroupCallJoinRequest(x),
          (c: Content) => if c.GroupCallJoinRequest? then c.channelId else [],
          (c: Content) => c.GroupCallJoinRequest?)
  }

  function AsVoiceSignal(): Shape<(bytes, (nat, bytes)), Content> {
    Shape(Pair(Id(), Pair(UInt(1), Str())),
          (x: (bytes, (nat, bytes))) => VoiceSignal(x.0, x.1.0, x.1.1),
          (c: Content) => if c.VoiceSignal? then (c.channelId, (c.kind, c.data)) else ([], (0, [])),
          (c: Content) => c.VoiceSignal?)
  }

  function AsCallSignal(): Shape<(nat, bytes), Content> {
    Shape(Pair(UInt(1), Str()),
          (x: (nat, bytes)) => CallSignal(x.0, x.1),
          (c: Content) => if c.CallSignal? then (c.kind, c.data) else (0, []),
          (c: Content) => c.CallSignal?)
  }

  function Tag(c: Content): nat {
    match c
    case Text(_) => 1
    case File(_) => 2
    case Channel(_) => 3
    case Typing => 4
    case Reaction(_, _, _) => 5
    case CallOffer(_) => 6
    case CallAnswer(_) => 7
    case CallIce(_) => 8
    case CallEnd => 9
    case GroupCallWelcome(_, _) => 10
    case GroupCallCommit(_, _) => 11
    case GroupCallLeave(_) => 12
    case Edit(_, _) => 13
    case Delete(_) => 14
    case Reply(_, _) => 15
    case Pin(_, _) => 16
    case TextId(_, _) => 17
    case DmEdit(_, _) => 18
    case DmDelete(_) => 19
    case Forward(_, _) => 20
    case GroupCallJoinRequest(_) => 21
    case VoiceSignal(_, _, _) => 22
    case CallSignal(_, _) => 23
  }

  function Branch(tag: nat): Codec<Content> {
    match tag
    case 1 => Shaped(AsText())
    case 2 => Shaped(AsFile())
    case 3 => Shaped(AsChannel())
    case 4 => Shaped(AsTyping())
    case 5 => Shaped(AsReaction())
    case 6 => Shaped(AsCallOffer())
    case 7 => Shaped(AsCallAnswer())
    case 8 => Shaped(AsCallIce())
    case 9 => Shaped(AsCallEnd())
    case 10 => Shaped(AsGroupCallWelcome())
    case 11 => Shaped(AsGroupCallCommit())
    case 12 => Shaped(AsGroupCallLeave())
    case 13 => Shaped(AsEdit())
    case 14 => Shaped(AsDelete())
    case 15 => Shaped(AsReply())
    case 16 => Shaped(AsPin())
    case 17 => Shaped(AsTextId())
    case 18 => Shaped(AsDmEdit())
    case 19 => Shaped(AsDmDelete())
    case 20 => Shaped(AsForward())
    case 21 => Shaped(AsGroupCallJoinRequest())
    case 22 => Shaped(AsVoiceSignal())
    case _ => Shaped(AsCallSignal())
  }

  function ContentUnion(): Union<Content> { Union(23, Tag, Branch) }

  function ContentCodec(): Codec<Content> { Tagged(ContentUnion()) }

  lemma TextVariants()
    ensures GoodBranch(ContentUnion(), 1) && GoodBranch(ContentUnion(), 6) && GoodBranch(ContentUnion(), 7) &&
      GoodBranch(ContentUnion(), 8)
  {
    hide RoundTrips, Extends, Canonical, AtLeast, Pair, Id, Fixed, Str, UInt, Bytes, Bool, Framed, ManifestCodec;
    StrLaws();
    VariantIsGood(ContentUnion(), 1, AsText());
    VariantIsGood(ContentUnion(), 6, AsCallOffer());
    VariantIsGood(ContentUnion(), 7, AsCallAnswer());
    VariantIsGood(ContentUnion(), 8, AsCallIce());
  }

  lemma FileVariant()
    ensures GoodBranch(ContentUnion(), 2)
  {
    hide RoundTrips, Extends, Canonical, AtLeast, Pair, Id, Fixed, Str, UInt, Bytes, Bool, Framed, ManifestCodec;
    ManifestLaws();
    FramedLawful(ManifestCodec());
    FramedCanonical(ManifestCodec());
    VariantIsGood(ContentUnion(), 2, AsFile());
  }

  lemma ChannelVariant()
    ensures GoodBranch(ContentUnion(), 3)
  {
    hide RoundTrips, Extends, Canonical, AtLeast, Pair, Id, Fixed, Str, UInt, Bytes, Bool, Framed, ManifestCodec;
    BytesLaws();
    VariantIsGood(ContentUnion(), 3, AsChannel());
  }

  lemma BareVariants()
    ensures GoodBranch(ContentUnion(), 4) && GoodBranch(ContentUnion(), 9)
  {
    hide RoundTrips, Extends, Canonical, AtLeast, Pair, Id, Fixed, Str, UInt, Bytes, Bool, Framed, ManifestCodec;
    UnitLaws();
    forall x: () ensures ExactParts(AsTyping(), x) && ExactParts(AsCallEnd(), x) {
      assert x == ();
    }
    VariantIsGood(ContentUnion(), 4, AsTyping());
    VariantIsGood(ContentUnion(), 9, AsCallEnd());
  }

  lemma ReactionVariant()
    ensures GoodBranch(ContentUnion(), 5)
  {
    hide RoundTrips, Extends, Canonical, AtLeast, Pair, Id, Fixed, Str, UInt, Bytes, Bool, Framed, ManifestCodec;
    UIntLaws(8);
    StrLaws();
    BoolLaws();
    PairLaws(Str(), Bool());
    PairLaws(UInt(8), Pair(Str(), Bool()));
    VariantIsGood(ContentUnion(), 5, AsReaction());
  }

  lemma BlobVariants()
    ensures GoodBranch(ContentUnion(), 10) && GoodBranch(ContentUnion(), 11)
  {
    hide RoundTrips, Extends, Canonical, AtLeast, Pair, Id, Fixed, Str, UInt, Bytes, Bool, Framed, ManifestCodec;
    IdLaws();
    BytesLaws();
    PairLaws(Id(), Bytes());
    VariantIsGood(ContentUnion(), 10, AsGroupCallWelcome());
    VariantIsGood(ContentUnion(), 11, AsGroupCallCommit());
  }

  lemma ChannelIdVariants()
    ensures GoodBranch(ContentUnion(), 12) && GoodBranch(ContentUnion(), 21)
  {
    hide RoundTrips, Extends, Canonical, AtLeast, Pair, Id, Fixed, Str, UInt, Bytes, Bool, Framed, ManifestCodec;
    IdLaws();
    VariantIsGood(ContentUnion(), 12, AsGroupCallLeave());
    VariantIsGood(ContentUnion(), 21, AsGroupCallJoinRequest());
  }

  lemma SeqTextVariants()
    ensures GoodBranch(ContentUnion(), 13) && GoodBranch(ContentUnion(), 15)
  {
    hide RoundTrips, Extends, Canonical, AtLeast, Pair, Id, Fixed, Str, UInt, Bytes, Bool, Framed, ManifestCodec;
    UIntLaws(8);
    StrLaws();
    PairLaws(UInt(8), Str());
    VariantIsGood(ContentUnion(), 13, AsEdit());
    VariantIsGood(ContentUnion(), 15, AsReply());
  }

  lemma SeqVariant()
    ensures GoodBranch(ContentUnion(), 14)
  {
    hide RoundTrips, Extends, Canonical, AtLeast, Pair, Id, Fixed, Str, UInt, Bytes, Bool, Framed, ManifestCodec;
    UIntLaws(8);
    VariantIsGood(ContentUnion(), 14, AsDelete());
  }

  lemma PinVariant()
    ensures GoodBranch(ContentUnion(), 16)
  {
    hide RoundTrips, Extends, Canonical, AtLeast, Pair, Id, Fixed, Str, UInt, Bytes, Bool, Framed, ManifestCodec;
    UIntLaws(8);
    BoolLaws();
    PairLaws(UInt(8), Bool());
    VariantIsGood(ContentUnion(), 16, AsPin());
  }

  lemma TextIdVariant()
    ensures GoodBranch(ContentUnion(), 17)
  {
    hide RoundTrips, Extends, Canonical, AtLeast, Pair, Id, Fixed, Str, UInt, Bytes, Bool, Framed, ManifestCodec;
    StrLaws();
    FixedLaws(16);
    PairLaws(Str(), Fixed(16));
    VariantIsGood(ContentUnion(), 17, AsTextId());
  }

  lemma DmEditVariant()
    ensures GoodBranch(ContentUnion(), 18)
  {
    hide RoundTrips, Extends, Canonical, AtLeast, Pair, Id, Fixed, Str, UInt, Bytes, Bool, Framed, ManifestCodec;
    FixedLaws(16);
    StrLaws();
    PairLaws(Fixed(16), Str());
    VariantIsGood(ContentUnion(), 18, AsDmEdit());
  }

  lemma DmDeleteVariant()
    ensures GoodBranch(ContentUnion(), 19)
  {
    hide RoundTrips, Extends, Canonical, AtLeast, Pair, Id, Fixed, Str, UInt, Bytes, Bool, Framed, ManifestCodec;
    FixedLaws(16);
    VariantIsGood(ContentUnion(), 19, AsDmDelete());
  }

  lemma ForwardVariant()
    ensures GoodBranch(ContentUnion(), 20)
  {
    hide RoundTrips, Extends, Canonical, AtLeast, Pair, Id, Fixed, Str, UInt, Bytes, Bool, Framed, ManifestCodec;
    StrLaws();
    PairLaws(Str(), Str());
    VariantIsGood(ContentUnion(), 20, AsForward());
  }

  lemma VoiceVariant()
    ensures GoodBranch(ContentUnion(), 22)
  {
    hide RoundTrips, Extends, Canonical, AtLeast, Pair, Id, Fixed, Str, UInt, Bytes, Bool, Framed, ManifestCodec;
    IdLaws();
    UIntLaws(1);
    StrLaws();
    PairLaws(UInt(1), Str());
    PairLaws(Id(), Pair(UInt(1), Str()));
    VariantIsGood(ContentUnion(), 22, AsVoiceSignal());
  }

  lemma CallSignalVariant()
    ensures GoodBranch(ContentUnion(), 23)
  {
    hide RoundTrips, Extends, Canonical, AtLeast, Pair, Id, Fixed, Str, UInt, Bytes, Bool, Framed, ManifestCodec;
    UIntLaws(1);
    StrLaws();
    PairLaws(UInt(1), Str());
    VariantIsGood(ContentUnion(), 23, AsCallSignal());
  }

  lemma ContentLaws()
    ensures Lawful(ContentCodec()) && Canonical(ContentCodec())
  {
    hide GoodBranch, RoundTrips, Extends, Canonical;
    TextVariants();
    FileVariant();
    ChannelVariant();
    BareVariants();
    ReactionVariant();
    BlobVariants();
    ChannelIdVariants();
    SeqTextVariants();
    SeqVariant();
    PinVariant();
    TextIdVariant();
    DmEditVariant();
    DmDeleteVariant();
    ForwardVariant();
    VoiceVariant();
    CallSignalVariant();
    TaggedLaws(ContentUnion());
  }

  /**
   `Content::decode` accepts exactly the encodings of contents within their
   length limits, and inverts them: whatever decodes re-encodes to itself.
   */
  lemma ContentsAreExact(b: bytes, c: Content)
    ensures Finish(ContentCodec().dec(b)) == Ok(c) <==> ContentCodec().fits(c) && b == ContentCodec().enc(c)
  {
    ContentLaws();
    ExactInverse(ContentCodec(), b, c);
  }
}
