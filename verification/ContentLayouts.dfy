/** The application payload byte by byte: the file manifest and the 23 variants. */
module ContentLayouts {
  import opened Common
  import opened Wire
  import opened Flat
  import opened Packets
  import opened Content

  function ManifestBytes(v: FileManifest): bytes {
    v.fileKey + (Sized(v.filename) + (U64(v.totalSize) + (U32(v.chunkSize) + (Counted(v.chunkHashes, Same) + (
      v.senderIdk + (v.sig))))))
  }

  predicate ManifestFields(v: FileManifest) {
    IsId(v.fileKey) && IsText(v.filename) && IsU64(v.totalSize) && IsU32(v.chunkSize) &&
    IsU32(|v.chunkHashes|) && (forall i :: i in v.chunkHashes ==> IsId(i)) && IsId(v.senderIdk) && |v.sig| == 64
  }

  lemma ManifestLayout(v: FileManifest)
    ensures ManifestCodec().enc(v) == ManifestBytes(v) && (ManifestCodec().fits(v) <==> ManifestFields(v))
  {
    hide Pair, UInt, Fixed, Str, Bytes, Bool, Maybe, List, Framed, Utf8, Shaped;
    FixedIsFlat(32, v.fileKey);
    StrIsFlat(v.filename);
    UIntIsFlat(v.totalSize);
    UIntIsFlat(v.chunkSize);
    IdsAreFlat(v.chunkHashes);
    FixedIsFlat(32, v.senderIdk);
    FixedIsFlat(64, v.sig);
    PairIsFlat(Id(), Fixed(64), v.senderIdk, v.sig);
    var p1, y1 := Pair(Id(), Fixed(64)), (v.senderIdk, v.sig);
    PairIsFlat(List(Id(), 1), p1, v.chunkHashes, y1);
    var p2, y2 := Pair(List(Id(), 1), p1), (v.chunkHashes, y1);
    PairIsFlat(UInt(4), p2, v.chunkSize, y2);
    var p3, y3 := Pair(UInt(4), p2), (v.chunkSize, y2);
    PairIsFlat(UInt(8), p3, v.totalSize, y3);
    var p4, y4 := Pair(UInt(8), p3), (v.totalSize, y3);
    PairIsFlat(Str(), p4, v.filename, y4);
    var p5, y5 := Pair(Str(), p4), (v.filename, y4);
    PairIsFlat(Id(), p5, v.fileKey, y5);
    ShapedIsFlat(ManifestShape(), v);
  }

  /** The discriminant, and the fields in order. */
  function ContentBytes(c: Content): bytes {
    match c
    case Text(text) => [1] + (Sized(text))
    case File(manifest) => [2] + (Sized(ManifestBytes(manifest)))
    case Channel(control) => [3] + (Sized(control))
    case Typing => [4]
    case Reaction(targetSeq, emoji, remove) => [5] + (U64(targetSeq) + (Sized(emoji) + (Flag(remove))))
    case CallOffer(offer) => [6] + (Sized(offer))
    case CallAnswer(answer) => [7] + (Sized(answer))
    case CallIce(candidate) => [8] + (Sized(candidate))
    case CallEnd => [9]
    case GroupCallWelcome(channelId, blob) => [10] + (channelId + (Sized(blob)))
    case GroupCallCommit(channelId, blob) => [11] + (channelId + (Sized(blob)))
    case GroupCallLeave(channelId) => [12] + (channelId)
    case Edit(targetSeq, text) => [13] + (U64(targetSeq) + (Sized(text)))
    case Delete(targetSeq) => [14] + (U64(targetSeq))
    case Reply(targetSeq, text) => [15] + (U64(targetSeq) + (Sized(text)))
    case Pin(targetSeq, unpin) => [16] + (U64(targetSeq) + (Flag(unpin)))
    case TextId(text, id) => [17] + (Sized(text) + (id))
    case DmEdit(target, text) => [18] + (target + (Sized(text)))
    case DmDelete(target) => [19] + (target)
    case Forward(origin, text) => [20] + (Sized(origin) + (Sized(text)))
    case GroupCallJoinRequest(channelId) => [21] + (channelId)
    case VoiceSignal(channelId, kind, data) => [22] + (channelId + (U8(kind) + (Sized(data))))
    case CallSignal(kind, data) => [23] + (U8(kind) + (Sized(data)))
  }

  predicate ContentFields(c: Content) {
    match c
    case Text(text) => IsText(text)
    case File(manifest) => ManifestFields(manifest) && IsBlob(ManifestBytes(manifest))
    case Channel(control) => IsBlob(control)
    case Typing => true
    case Reaction(targetSeq, emoji, remove) => IsU64(targetSeq) && IsText(emoji)
    case CallOffer(offer) => IsText(offer)
    case CallAnswer(answer) => IsText(answer)
    case CallIce(candidate) => IsText(candidate)
    case CallEnd => true
    case GroupCallWelcome(channelId, blob) => IsId(channelId) && IsBlob(blob)
    case GroupCallCommit(channelId, blob) => IsId(channelId) && IsBlob(blob)
    case GroupCallLeave(channelId) => IsId(channelId)
    case Edit(targetSeq, text) => IsU64(targetSeq) && IsText(text)
    case Delete(targetSeq) => IsU64(targetSeq)
    case Reply(targetSeq, text) => IsU64(targetSeq) && IsText(text)
    case Pin(targetSeq, unpin) => IsU64(targetSeq)
    case TextId(text, id) => IsText(text) && |id| == 16
    case DmEdit(target, text) => |target| == 16 && IsText(text)
    case DmDelete(target) => |target| == 16
    case Forward(origin, text) => IsText(origin) && IsText(text)
    case GroupCallJoinRequest(channelId) => IsId(channelId)
    case VoiceSignal(channelId, kind, data) => IsId(channelId) && IsU8(kind) && IsText(data)
    case CallSignal(kind, data) => IsU8(kind) && IsText(data)
  }

  /** The layout of one variant, from that of its parts. */
  lemma VariantLayout<A>(c: Content, s: Shape<A, Content>, parts: bytes, fields: bool)
    requires Branch(Tag(c)) == Shaped(s) && s.covers(c)
    requires s.parts.enc(s.unwrap(c)) == parts && (s.parts.fits(s.unwrap(c)) <==> fields)
    ensures ContentCodec().enc(c) == [Tag(c)] + parts && (ContentCodec().fits(c) <==> fields)
  {
    hide Tagged, Shaped;
    TaggedIsFlat(ContentUnion(), c);
    ShapedIsFlat(s, c);
  }

  lemma TextParts(text: bytes)
    ensures var c := Content.Text(text);
      && Tag(c) == 1 && Branch(1) == Shaped(AsText()) && AsText().covers(c)
      && AsText().parts == Str()
      && AsText().unwrap(c) == text
  {
  }

  lemma TextLayout(text: bytes)
    ensures ContentCodec().enc(Content.Text(text)) == [1] + (Sized(text))
    ensures ContentCodec().fits(Content.Text(text)) <==> IsText(text)
  {
    hide Pair, UInt, Fixed, Str, Bytes, Bool, Framed, Utf8, Shaped, ContentCodec, ManifestCodec, ManifestBytes,
      ManifestFields, IsText, IsBlob, IsU64, IsU8, Sized, U64, U8, Branch, Tag, AsText;
    StrIsFlat(text);
    TextParts(text);
    VariantLayout(Content.Text(text), AsText(), Sized(text), IsText(text));
  }

  lemma FileParts(manifest: FileManifest)
    ensures var c := Content.File(manifest);
      && Tag(c) == 2 && Branch(2) == Shaped(AsFile()) && AsFile().covers(c)
      && AsFile().parts == Framed(ManifestCodec())
      && AsFile().unwrap(c) == manifest
  {
  }

  lemma FileLayout(manifest: FileManifest)
    ensures ContentCodec().enc(Content.File(manifest)) == [2] + (Sized(ManifestBytes(manifest)))
    ensures ContentCodec().fits(Content.File(manifest)) <==>
              ManifestFields(manifest) && IsBlob(ManifestBytes(manifest))
  {
    hide Pair, UInt, Fixed, Str, Bytes, Bool, Framed, Utf8, Shaped, ContentCodec, ManifestCodec, ManifestBytes,
      ManifestFields, IsText, IsBlob, IsU64, IsU8, Sized, U64, U8, Branch, Tag, AsFile;
    ManifestLayout(manifest);
    FramedIsFlat(ManifestCodec(), manifest);
    FileParts(manifest);
    VariantLayout(Content.File(manifest), AsFile(),
                  Sized(ManifestBytes(manifest)), ManifestFields(manifest) && IsBlob(ManifestBytes(manifest)));
  }

  lemma ChannelParts(control: bytes)
    ensures var c := Content.Channel(control);
      && Tag(c) == 3 && Branch(3) == Shaped(AsChannel()) && AsChannel().covers(c)
      && AsChannel().parts == Bytes()
      && AsChannel().unwrap(c) == control
  {
  }

  lemma ChannelLayout(control: bytes)
    ensures ContentCodec().enc(Content.Channel(control)) == [3] + (Sized(control))
    ensures ContentCodec().fits(Content.Channel(control)) <==> IsBlob(control)
  {
    hide Pair, UInt, Fixed, Str, Bytes, Bool, Framed, Utf8, Shaped, ContentCodec, ManifestCodec, ManifestBytes,
      ManifestFields, IsText, IsBlob, IsU64, IsU8, Sized, U64, U8, Branch, Tag, AsChannel;
    BytesIsFlat(control);
    ChannelParts(control);
    VariantLayout(Content.Channel(control), AsChannel(), Sized(control), IsBlob(control));
  }

  lemma TypingParts()
    ensures var c := Content.Typing;
      && Tag(c) == 4 && Branch(4) == Shaped(AsTyping()) && AsTyping().covers(c)
      && AsTyping().parts == Unit()
      && AsTyping().unwrap(c) == ()
  {
  }

  lemma TypingLayout()
    ensures ContentCodec().enc(Content.Typing) == [4]
    ensures ContentCodec().fits(Content.Typing)
  {
    hide Pair, UInt, Fixed, Str, Bytes, Bool, Framed, Utf8, Shaped, ContentCodec, ManifestCodec, ManifestBytes,
      ManifestFields, IsText, IsBlob, IsU64, IsU8, Sized, U64, U8, Branch, Tag, AsTyping;
    TypingParts();
    VariantLayout(Content.Typing, AsTyping(), [], true);
  }

  lemma ReactionParts(targetSeq: nat, emoji: bytes, remove: bool)
    ensures var c := Content.Reaction(targetSeq, emoji, remove);
      && Tag(c) == 5 && Branch(5) == Shaped(AsReaction()) && AsReaction().covers(c)
      && AsReaction().parts == Pair(UInt(8), Pair(Str(), Bool()))
      && AsReaction().unwrap(c) == (targetSeq, (emoji, remove))
  {
  }

  lemma ReactionLayout(targetSeq: nat, emoji: bytes, remove: bool)
    ensures ContentCodec().enc(Content.Reaction(targetSeq, emoji, remove))
         == [5] + (U64(targetSeq) + (Sized(emoji) + (Flag(remove))))
    ensures ContentCodec().fits(Content.Reaction(targetSeq, emoji, remove)) <==> IsU64(targetSeq) && IsText(emoji)
  {
    hide Pair, UInt, Fixed, Str, Bytes, Bool, Framed, Utf8, Shaped, ContentCodec, ManifestCodec, ManifestBytes,
      ManifestFields, IsText, IsBlob, IsU64, IsU8, Sized, U64, U8, Branch, Tag, AsReaction;
    UIntIsFlat(targetSeq);
    StrIsFlat(emoji);
    BoolIsFlat(remove);
    PairIsFlat(Str(), Bool(), emoji, remove);
    PairIsFlat(UInt(8), Pair(Str(), Bool()), targetSeq, (emoji, remove));
    ReactionParts(targetSeq, emoji, remove);
    VariantLayout(Content.Reaction(targetSeq, emoji, remove), AsReaction(),
                  U64(targetSeq) + (Sized(emoji) + (Flag(remove))), IsU64(targetSeq) && IsText(emoji));
  }

  lemma CallOfferParts(offer: bytes)
    ensures var c := Content.CallOffer(offer);
      && Tag(c) == 6 && Branch(6) == Shaped(AsCallOffer()) && AsCallOffer().covers(c)
      && AsCallOffer().parts == Str()
      && AsCallOffer().unwrap(c) == offer
  {
  }

  lemma CallOfferLayout(offer: bytes)
    ensures ContentCodec().enc(Content.CallOffer(offer)) == [6] + (Sized(offer))
    ensures ContentCodec().fits(Content.CallOffer(offer)) <==> IsText(offer)
  {
    hide Pair, UInt, Fixed, Str, Bytes, Bool, Framed, Utf8, Shaped, ContentCodec, ManifestCodec, ManifestBytes,
      ManifestFields, IsText, IsBlob, IsU64, IsU8, Sized, U64, U8, Branch, Tag, AsCallOffer;
    StrIsFlat(offer);
    CallOfferParts(offer);
    VariantLayout(Content.CallOffer(offer), AsCallOffer(), Sized(offer), IsText(offer));
  }

  lemma CallAnswerParts(answer: bytes)
    ensures var c := Content.CallAnswer(answer);
      && Tag(c) == 7 && Branch(7) == Shaped(AsCallAnswer()) && AsCallAnswer().covers(c)
      && AsCallAnswer().parts == Str()
      && AsCallAnswer().unwrap(c) == answer
  {
  }

  lemma CallAnswerLayout(answer: bytes)
    ensures ContentCodec().enc(Content.CallAnswer(answer)) == [7] + (Sized(answer))
    ensures ContentCodec().fits(Content.CallAnswer(answer)) <==> IsText(answer)
  {
    hide Pair, UInt, Fixed, Str, Bytes, Bool, Framed, Utf8, Shaped, ContentCodec, ManifestCodec, ManifestBytes,
      ManifestFields, IsText, IsBlob, IsU64, IsU8, Sized, U64, U8, Branch, Tag, AsCallAnswer;
    StrIsFlat(answer);
    CallAnswerParts(answer);
    VariantLayout(Content.CallAnswer(answer), AsCallAnswer(), Sized(answer), IsText(answer));
  }

  lemma CallIceParts(candidate: bytes)
    ensures var c := Content.CallIce(candidate);
      && Tag(c) == 8 && Branch(8) == Shaped(AsCallIce()) && AsCallIce().covers(c)
      && AsCallIce().parts == Str()
      && AsCallIce().unwrap(c) == candidate
  {
  }

  lemma CallIceLayout(candidate: bytes)
    ensures ContentCodec().enc(Content.CallIce(candidate)) == [8] + (Sized(candidate))
    ensures ContentCodec().fits(Content.CallIce(candidate)) <==> IsText(candidate)
  {
    hide Pair, UInt, Fixed, Str, Bytes, Bool, Framed, Utf8, Shaped, ContentCodec, ManifestCodec, ManifestBytes,
      ManifestFields, IsText, IsBlob, IsU64, IsU8, Sized, U64, U8, Branch, Tag, AsCallIce;
    StrIsFlat(candidate);
    CallIceParts(candidate);
    VariantLayout(Content.CallIce(candidate), AsCallIce(), Sized(candidate), IsText(candidate));
  }

  lemma CallEndParts()
    ensures var c := Content.CallEnd;
      && Tag(c) == 9 && Branch(9) == Shaped(AsCallEnd()) && AsCallEnd().covers(c)
      && AsCallEnd().parts == Unit()
      && AsCallEnd().unwrap(c) == ()
  {
  }

  lemma CallEndLayout()
    ensures ContentCodec().enc(Content.CallEnd) == [9]
    ensures ContentCodec().fits(Content.CallEnd)
  {
    hide Pair, UInt, Fixed, Str, Bytes, Bool, Framed, Utf8, Shaped, ContentCodec, ManifestCodec, ManifestBytes,
      ManifestFields, IsText, IsBlob, IsU64, IsU8, Sized, U64, U8, Branch, Tag, AsCallEnd;
    CallEndParts();
    VariantLayout(Content.CallEnd, AsCallEnd(), [], true);
  }

  lemma GroupCallWelcomeParts(channelId: bytes, blob: bytes)
    ensures var c := Content.GroupCallWelcome(channelId, blob);
      && Tag(c) == 10 && Branch(10) == Shaped(AsGroupCallWelcome()) && AsGroupCallWelcome().covers(c)
      && AsGroupCallWelcome().parts == Pair(Id(), Bytes())
      && AsGroupCallWelcome().unwrap(c) == (channelId, blob)
  {
  }

  lemma GroupCallWelcomeLayout(channelId: bytes, blob: bytes)
    ensures ContentCodec().enc(Content.GroupCallWelcome(channelId, blob)) == [10] + (channelId + (Sized(blob)))
    ensures ContentCodec().fits(Content.GroupCallWelcome(channelId, blob)) <==> IsId(channelId) && IsBlob(blob)
  {
    hide Pair, UInt, Fixed, Str, Bytes, Bool, Framed, Utf8, Shaped, ContentCodec, ManifestCodec, ManifestBytes,
      ManifestFields, IsText, IsBlob, IsU64, IsU8, Sized, U64, U8, Branch, Tag, AsGroupCallWelcome;
    FixedIsFlat(32, channelId);
    BytesIsFlat(blob);
    PairIsFlat(Id(), Bytes(), channelId, blob);
    GroupCallWelcomeParts(channelId, blob);
    VariantLayout(Content.GroupCallWelcome(channelId, blob), AsGroupCallWelcome(),
                  channelId + (Sized(blob)), IsId(channelId) && IsBlob(blob));
  }

  lemma GroupCallCommitParts(channelId: bytes, blob: bytes)
    ensures var c := Content.GroupCallCommit(channelId, blob);
      && Tag(c) == 11 && Branch(11) == Shaped(AsGroupCallCommit()) && AsGroupCallCommit().covers(c)
      && AsGroupCallCommit().parts == Pair(Id(), Bytes())
      && AsGroupCallCommit().unwrap(c) == (channelId, blob)
  {
  }

  lemma GroupCallCommitLayout(channelId: bytes, blob: bytes)
    ensures ContentCodec().enc(Content.GroupCallCommit(channelId, blob)) == [11] + (channelId + (Sized(blob)))
    ensures ContentCodec().fits(Content.GroupCallCommit(channelId, blob)) <==> IsId(channelId) && IsBlob(blob)
  {
    hide Pair, UInt, Fixed, Str, Bytes, Bool, Framed, Utf8, Shaped, ContentCodec, ManifestCodec, ManifestBytes,
      ManifestFields, IsText, IsBlob, IsU64, IsU8, Sized, U64, U8, Branch, Tag, AsGroupCallCommit;
    FixedIsFlat(32, channelId);
    BytesIsFlat(blob);
    PairIsFlat(Id(), Bytes(), channelId, blob);
    GroupCallCommitParts(channelId, blob);
    VariantLayout(Content.GroupCallCommit(channelId, blob), AsGroupCallCommit(),
                  channelId + (Sized(blob)), IsId(channelId) && IsBlob(blob));
  }

  lemma GroupCallLeaveParts(channelId: bytes)
    ensures var c := Content.GroupCallLeave(channelId);
      && Tag(c) == 12 && Branch(12) == Shaped(AsGroupCallLeave()) && AsGroupCallLeave().covers(c)
      && AsGroupCallLeave().parts == Id()
      && AsGroupCallLeave().unwrap(c) == channelId
  {
  }

  lemma GroupCallLeaveLayout(channelId: bytes)
    ensures ContentCodec().enc(Content.GroupCallLeave(channelId)) == [12] + (channelId)
    ensures ContentCodec().fits(Content.GroupCallLeave(channelId)) <==> IsId(channelId)
  {
    hide Pair, UInt, Fixed, Str, Bytes, Bool, Framed, Utf8, Shaped, ContentCodec, ManifestCodec, ManifestBytes,
      ManifestFields, IsText, IsBlob, IsU64, IsU8, Sized, U64, U8, Branch, Tag, AsGroupCallLeave;
    FixedIsFlat(32, channelId);
    GroupCallLeaveParts(channelId);
    VariantLayout(Content.GroupCallLeave(channelId), AsGroupCallLeave(), channelId, IsId(channelId));
  }

  lemma EditParts(targetSeq: nat, text: bytes)
    ensures var c := Content.Edit(targetSeq, text);
      && Tag(c) == 13 && Branch(13) == Shaped(AsEdit()) && AsEdit().covers(c)
      && AsEdit().parts == Pair(UInt(8), Str())
      && AsEdit().unwrap(c) == (targetSeq, text)
  {
  }

  lemma EditLayout(targetSeq: nat, text: bytes)
    ensures ContentCodec().enc(Content.Edit(targetSeq, text)) == [13] + (U64(targetSeq) + (Sized(text)))
    ensures ContentCodec().fits(Content.Edit(targetSeq, text)) <==> IsU64(targetSeq) && IsText(text)
  {
    hide Pair, UInt, Fixed, Str, Bytes, Bool, Framed, Utf8, Shaped, ContentCodec, ManifestCodec, ManifestBytes,
      ManifestFields, IsText, IsBlob, IsU64, IsU8, Sized, U64, U8, Branch, Tag, AsEdit;
    UIntIsFlat(targetSeq);
    StrIsFlat(text);
    PairIsFlat(UInt(8), Str(), targetSeq, text);
    EditParts(targetSeq, text);
    VariantLayout(Content.Edit(targetSeq, text), AsEdit(),
                  U64(targetSeq) + (Sized(text)), IsU64(targetSeq) && IsText(text));
  }

  lemma DeleteParts(targetSeq: nat)
    ensures var c := Content.Delete(targetSeq);
      && Tag(c) == 14 && Branch(14) == Shaped(AsDelete()) && AsDelete().covers(c)
      && AsDelete().parts == UInt(8)
      && AsDelete().unwrap(c) == targetSeq
  {
  }

  lemma DeleteLayout(targetSeq: nat)
    ensures ContentCodec().enc(Content.Delete(targetSeq)) == [14] + (U64(targetSeq))
    ensures ContentCodec().fits(Content.Delete(targetSeq)) <==> IsU64(targetSeq)
  {
    hide Pair, UInt, Fixed, Str, Bytes, Bool, Framed, Utf8, Shaped, ContentCodec, ManifestCodec, ManifestBytes,
      ManifestFields, IsText, IsBlob, IsU64, IsU8, Sized, U64, U8, Branch, Tag, AsDelete;
    UIntIsFlat(targetSeq);
    DeleteParts(targetSeq);
    VariantLayout(Content.Delete(targetSeq), AsDelete(), U64(targetSeq), IsU64(targetSeq));
  }

  lemma ReplyParts(targetSeq: nat, text: bytes)
    ensures var c := Content.Reply(targetSeq, text);
      && Tag(c) == 15 && Branch(15) == Shaped(AsReply()) && AsReply().covers(c)
      && AsReply().parts == Pair(UInt(8), Str())
      && AsReply().unwrap(c) == (targetSeq, text)
  {
  }

  lemma ReplyLayout(targetSeq: nat, text: bytes)
    ensures ContentCodec().enc(Content.Reply(targetSeq, text)) == [15] + (U64(targetSeq) + (Sized(text)))
    ensures ContentCodec().fits(Content.Reply(targetSeq, text)) <==> IsU64(targetSeq) && IsText(text)
  {
    hide Pair, UInt, Fixed, Str, Bytes, Bool, Framed, Utf8, Shaped, ContentCodec, ManifestCodec, ManifestBytes,
      ManifestFields, IsText, IsBlob, IsU64, IsU8, Sized, U64, U8, Branch, Tag, AsReply;
    UIntIsFlat(targetSeq);
    StrIsFlat(text);
    PairIsFlat(UInt(8), Str(), targetSeq, text);
    ReplyParts(targetSeq, text);
    VariantLayout(Content.Reply(targetSeq, text), AsReply(),
                  U64(targetSeq) + (Sized(text)), IsU64(targetSeq) && IsText(text));
  }

  lemma PinParts(targetSeq: nat, unpin: bool)
    ensures var c := Content.Pin(targetSeq, unpin);
      && Tag(c) == 16 && Branch(16) == Shaped(AsPin()) && AsPin().covers(c)
      && AsPin().parts == Pair(UInt(8), Bool())
      && AsPin().unwrap(c) == (targetSeq, unpin)
  {
  }

  lemma PinLayout(targetSeq: nat, unpin: bool)
    ensures ContentCodec().enc(Content.Pin(targetSeq, unpin)) == [16] + (U64(targetSeq) + (Flag(unpin)))
    ensures ContentCodec().fits(Content.Pin(targetSeq, unpin)) <==> IsU64(targetSeq)
  {
    hide Pair, UInt, Fixed, Str, Bytes, Bool, Framed, Utf8, Shaped, ContentCodec, ManifestCodec, ManifestBytes,
      ManifestFields, IsText, IsBlob, IsU64, IsU8, Sized, U64, U8, Branch, Tag, AsPin;
    UIntIsFlat(targetSeq);
    BoolIsFlat(unpin);
    PairIsFlat(UInt(8), Bool(), targetSeq, unpin);
    PinParts(targetSeq, unpin);
    VariantLayout(Content.Pin(targetSeq, unpin), AsPin(), U64(targetSeq) + (Flag(unpin)), IsU64(targetSeq));
  }

  lemma TextIdParts(text: bytes, id: bytes)
    ensures var c := Content.TextId(text, id);
      && Tag(c) == 17 && Branch(17) == Shaped(AsTextId()) && AsTextId().covers(c)
      && AsTextId().parts == Pair(Str(), Fixed(16))
      && AsTextId().unwrap(c) == (text, id)
  {
  }

  lemma TextIdLayout(text: bytes, id: bytes)
    ensures ContentCodec().enc(Content.TextId(text, id)) == [17] + (Sized(text) + (id))
    ensures ContentCodec().fits(Content.TextId(text, id)) <==> IsText(text) && |id| == 16
  {
    hide Pair, UInt, Fixed, Str, Bytes, Bool, Framed, Utf8, Shaped, ContentCodec, ManifestCodec, ManifestBytes,
      ManifestFields, IsText, IsBlob, IsU64, IsU8, Sized, U64, U8, Branch, Tag, AsTextId;
    StrIsFlat(text);
    FixedIsFlat(16, id);
    PairIsFlat(Str(), Fixed(16), text, id);
    TextIdParts(text, id);
    VariantLayout(Content.TextId(text, id), AsTextId(), Sized(text) + (id), IsText(text) && |id| == 16);
  }

  lemma DmEditParts(target: bytes, text: bytes)
    ensures var c := Content.DmEdit(target, text);
      && Tag(c) == 18 && Branch(18) == Shaped(AsDmEdit()) && AsDmEdit().covers(c)
      && AsDmEdit().parts == Pair(Fixed(16), Str())
      && AsDmEdit().unwrap(c) == (target, text)
  {
  }

  lemma DmEditLayout(target: bytes, text: bytes)
    ensures ContentCodec().enc(Content.DmEdit(target, text)) == [18] + (target + (Sized(text)))
    ensures ContentCodec().fits(Content.DmEdit(target, text)) <==> |target| == 16 && IsText(text)
  {
    hide Pair, UInt, Fixed, Str, Bytes, Bool, Framed, Utf8, Shaped, ContentCodec, ManifestCodec, ManifestBytes,
      ManifestFields, IsText, IsBlob, IsU64, IsU8, Sized, U64, U8, Branch, Tag, AsDmEdit;
    FixedIsFlat(16, target);
    StrIsFlat(text);
    PairIsFlat(Fixed(16), Str(), target, text);
    DmEditParts(target, text);
    VariantLayout(Content.DmEdit(target, text), AsDmEdit(), target + (Sized(text)), |target| == 16 && IsText(text));
  }

  lemma DmDeleteParts(target: bytes)
    ensures var c := Content.DmDelete(target);
      && Tag(c) == 19 && Branch(19) == Shaped(AsDmDelete()) && AsDmDelete().covers(c)
      && AsDmDelete().parts == Fixed(16)
      && AsDmDelete().unwrap(c) == target
  {
  }

  lemma DmDeleteLayout(target: bytes)
    ensures ContentCodec().enc(Content.DmDelete(target)) == [19] + (target)
    ensures ContentCodec().fits(Content.DmDelete(target)) <==> |target| == 16
  {
    hide Pair, UInt, Fixed, Str, Bytes, Bool, Framed, Utf8, Shaped, ContentCodec, ManifestCodec, ManifestBytes,
      ManifestFields, IsText, IsBlob, IsU64, IsU8, Sized, U64, U8, Branch, Tag, AsDmDelete;
    FixedIsFlat(16, target);
    DmDeleteParts(target);
    VariantLayout(Content.DmDelete(target), AsDmDelete(), target, |target| == 16);
  }

  lemma ForwardParts(origin: bytes, text: bytes)
    ensures var c := Content.Forward(origin, text);
      && Tag(c) == 20 && Branch(20) == Shaped(AsForward()) && AsForward().covers(c)
      && AsForward().parts == Pair(Str(), Str())
      && AsForward().unwrap(c) == (origin, text)
  {
  }

  lemma ForwardLayout(origin: bytes, text: bytes)
    ensures ContentCodec().enc(Content.Forward(origin, text)) == [20] + (Sized(origin) + (Sized(text)))
    ensures ContentCodec().fits(Content.Forward(origin, text)) <==> IsText(origin) && IsText(text)
  {
    hide Pair, UInt, Fixed, Str, Bytes, Bool, Framed, Utf8, Shaped, ContentCodec, ManifestCodec, ManifestBytes,
      ManifestFields, IsText, IsBlob, IsU64, IsU8, Sized, U64, U8, Branch, Tag, AsForward;
    StrIsFlat(origin);
    StrIsFlat(text);
    PairIsFlat(Str(), Str(), origin, text);
    ForwardParts(origin, text);
    VariantLayout(Content.Forward(origin, text), AsForward(),
                  Sized(origin) + (Sized(text)), IsText(origin) && IsText(text));
  }

  lemma GroupCallJoinRequestParts(channelId: bytes)
    ensures var c := Content.GroupCallJoinRequest(channelId);
      && Tag(c) == 21 && Branch(21) == Shaped(AsGroupCallJoinRequest()) && AsGroupCallJoinRequest().covers(c)
      && AsGroupCallJoinRequest().parts == Id()
      && AsGroupCallJoinRequest().unwrap(c) == channelId
  {
  }

  lemma GroupCallJoinRequestLayout(channelId: bytes)
    ensures ContentCodec().enc(Content.GroupCallJoinRequest(channelId)) == [21] + (channelId)
    ensures ContentCodec().fits(Content.GroupCallJoinRequest(channelId)) <==> IsId(channelId)
  {
    hide Pair, UInt, Fixed, Str, Bytes, Bool, Framed, Utf8, Shaped, ContentCodec, ManifestCodec, ManifestBytes,
      ManifestFields, IsText, IsBlob, IsU64, IsU8, Sized, U64, U8, Branch, Tag, AsGroupCallJoinRequest;
    FixedIsFlat(32, channelId);
    GroupCallJoinRequestParts(channelId);
    VariantLayout(Content.GroupCallJoinRequest(channelId), AsGroupCallJoinRequest(), channelId, IsId(channelId));
  }

  lemma VoiceSignalParts(channelId: bytes, kind: nat, data: bytes)
    ensures var c := Content.VoiceSignal(channelId, kind, data);
      && Tag(c) == 22 && Branch(22) == Shaped(AsVoiceSignal()) && AsVoiceSignal().covers(c)
      && AsVoiceSignal().parts == Pair(Id(), Pair(UInt(1), Str()))
      && AsVoiceSignal().unwrap(c) == (channelId, (kind, data))
  {
  }

  lemma VoiceSignalLayout(channelId: bytes, kind: nat, data: bytes)
    ensures ContentCodec().enc(Content.VoiceSignal(channelId, kind, data))
         == [22] + (channelId + (U8(kind) + (Sized(data))))
    ensures ContentCodec().fits(Content.VoiceSignal(channelId, kind, data)) <==>
              IsId(channelId) && IsU8(kind) && IsText(data)
  {
    hide Pair, UInt, Fixed, Str, Bytes, Bool, Framed, Utf8, Shaped, ContentCodec, ManifestCodec, ManifestBytes,
      ManifestFields, IsText, IsBlob, IsU64, IsU8, Sized, U64, U8, Branch, Tag, AsVoiceSignal;
    FixedIsFlat(32, channelId);
    UIntIsFlat(kind);
    StrIsFlat(data);
    PairIsFlat(UInt(1), Str(), kind, data);
    PairIsFlat(Id(), Pair(UInt(1), Str()), channelId, (kind, data));
    VoiceSignalParts(channelId, kind, data);
    VariantLayout(Content.VoiceSignal(channelId, kind, data), AsVoiceSignal(),
                  channelId + (U8(kind) + (Sized(data))), IsId(channelId) && IsU8(kind) && IsText(data));
  }

  lemma CallSignalParts(kind: nat, data: bytes)
    ensures var c := Content.CallSignal(kind, data);
      && Tag(c) == 23 && Branch(23) == Shaped(AsCallSignal()) && AsCallSignal().covers(c)
      && AsCallSignal().parts == Pair(UInt(1), Str())
      && AsCallSignal().unwrap(c) == (kind, data)
  {
  }

  lemma CallSignalLayout(kind: nat, data: bytes)
    ensures ContentCodec().enc(Content.CallSignal(kind, data)) == [23] + (U8(kind) + (Sized(data)))
    ensures ContentCodec().fits(Content.CallSignal(kind, data)) <==> IsU8(kind) && IsText(data)
  {
    hide Pair, UInt, Fixed, Str, Bytes, Bool, Framed, Utf8, Shaped, ContentCodec, ManifestCodec, ManifestBytes,
      ManifestFields, IsText, IsBlob, IsU64, IsU8, Sized, U64, U8, Branch, Tag, AsCallSignal;
    UIntIsFlat(kind);
    StrIsFlat(data);
    PairIsFlat(UInt(1), Str(), kind, data);
    CallSignalParts(kind, data);
    VariantLayout(Content.CallSignal(kind, data), AsCallSignal(),
                  U8(kind) + (Sized(data)), IsU8(kind) && IsText(data));
  }

  lemma ContentLayout(c: Content)
    ensures ContentCodec().enc(c) == ContentBytes(c) && (ContentCodec().fits(c) <==> ContentFields(c))
  {
    hide ContentCodec, ManifestBytes, ManifestFields, IsText, IsBlob, IsU64, IsU8, IsId, Sized, U64, U8, Flag;
    match c {
      case Text(text) => TextLayout(text);
      case File(manifest) => FileLayout(manifest);
      case Channel(control) => ChannelLayout(control);
      case Typing => TypingLayout();
      case Reaction(targetSeq, emoji, remove) => ReactionLayout(targetSeq, emoji, remove);
      case CallOffer(offer) => CallOfferLayout(offer);
      case CallAnswer(answer) => CallAnswerLayout(answer);
      case CallIce(candidate) => CallIceLayout(candidate);
      case CallEnd => CallEndLayout();
      case GroupCallWelcome(channelId, blob) => GroupCallWelcomeLayout(channelId, blob);
      case GroupCallCommit(channelId, blob) => GroupCallCommitLayout(channelId, blob);
      case GroupCallLeave(channelId) => GroupCallLeaveLayout(channelId);
      case Edit(targetSeq, text) => EditLayout(targetSeq, text);
      case Delete(targetSeq) => DeleteLayout(targetSeq);
      case Reply(targetSeq, text) => ReplyLayout(targetSeq, text);
      case Pin(targetSeq, unpin) => PinLayout(targetSeq, unpin);
      case TextId(text, id) => TextIdLayout(text, id);
      case DmEdit(target, text) => DmEditLayout(target, text);
      case DmDelete(target) => DmDeleteLayout(target);
      case Forward(origin, text) => ForwardLayout(origin, text);
      case GroupCallJoinRequest(channelId) => GroupCallJoinRequestLayout(channelId);
      case VoiceSignal(channelId, kind, data) => VoiceSignalLayout(channelId, kind, data);
      case CallSignal(kind, data) => CallSignalLayout(kind, data);
    }
  }

  /** Bytes are read as a content exactly if they are the content written out. */
  lemma ContentsByteForByte(b: bytes, c: Content)
    ensures Finish(ContentCodec().dec(b)) == Ok(c) <==> ContentFields(c) && b == ContentBytes(c)
  {
    hide ContentCodec, ContentBytes, ContentFields;
    ContentLayout(c);
    ContentsAreExact(b, c);
  }
}
