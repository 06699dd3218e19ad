/**
 The payload of the local store byte by byte: the records, the mandatory part and the 18
 sections in their order, and what older or unusual records are read as.
 */
module StoreLayouts {
  import opened Common
  import opened Wire
  import opened Flat
  import opened Packets
  import opened Layouts
  import opened Sections
  import opened StoreRecords
  import opened Store

  // ----- records -----

  function KindBytes(v: HistoryKind): bytes {
    match v
    case Text(text) => [1] + Sized(text)
    case File(filename, size) => [2] + (Sized(filename) + U64(size))
  }

  predicate KindFields(v: HistoryKind) {
    match v
    case Text(text) => IsText(text)
    case File(filename, size) => IsText(filename) && IsU64(size)
  }

  lemma KindLayout(v: HistoryKind)
    ensures KindCodec().enc(v) == KindBytes(v) && (KindCodec().fits(v) <==> KindFields(v))
  {
    hide Tagged, Shaped, Pair, UInt, Str, Utf8, IsText, IsU64, Sized, U64;
    TaggedIsFlat(KindUnion(), v);
    match v {
      case Text(text) =>
        StrIsFlat(text);
        ShapedIsFlat(TextShape(), v);
      case File(filename, size) =>
        StrIsFlat(filename);
        UIntIsFlat(size);
        PairIsFlat(Str(), UInt(8), filename, size);
        ShapedIsFlat(FileShape(), v);
    }
  }

  /** A flag and a number, which is zero if there is none. */
  function ReplyBytes(v: Option<nat>): bytes { Flag(v.Some?) + U64(if v.Some? then v.value else 0) }

  predicate ReplyFields(v: Option<nat>) { v.Some? ==> IsU64(v.value) }

  lemma ReplyLayout(v: Option<nat>)
    ensures ReplyCodec().enc(v) == ReplyBytes(v) && (ReplyCodec().fits(v) <==> ReplyFields(v))
  {
    hide Pair, Bool, UInt, U64, Flag, IsU64;
    var n := if v.Some? then v.value else 0;
    BoolIsFlat(v.Some?);
    UIntIsFlat(n);
    PairIsFlat(Bool(), UInt(8), v.Some?, n);
  }

  function HistoryLineBytes(v: HistoryLine): bytes {
    v.peerIdk + (Flag(v.outgoing) + (U64(v.tsMs) + (KindBytes(v.kind))))
  }

  predicate HistoryLineFields(v: HistoryLine) {
    IsId(v.peerIdk) && IsU64(v.tsMs) && KindFields(v.kind)
  }

  lemma HistoryLineLayout(v: HistoryLine)
    ensures HistoryLineCodec().enc(v) == HistoryLineBytes(v) && (HistoryLineCodec().fits(v) <==> HistoryLineFields(v))
  {
    hide Pair, UInt, Fixed, Str, Bytes, Bool, Maybe, List, Framed, Utf8, Shaped, KindCodec, KindBytes,
      KindFields;
    FixedIsFlat(32, v.peerIdk);
    BoolIsFlat(v.outgoing);
    UIntIsFlat(v.tsMs);
    KindLayout(v.kind);
    PairIsFlat(UInt(8), KindCodec(), v.tsMs, v.kind);
    var p1, y1 := Pair(UInt(8), KindCodec()), (v.tsMs, v.kind);
    PairIsFlat(Bool(), p1, v.outgoing, y1);
    var p2, y2 := Pair(Bool(), p1), (v.outgoing, y1);
    PairIsFlat(Id(), p2, v.peerIdk, y2);
    ShapedIsFlat(HistoryLineShape(), v);
  }

  function ChannelLineBytes(v: ChannelLine): bytes {
    v.channelId + (v.sender + (Flag(v.outgoing) + (U64(v.tsMs) + (Sized(v.text)))))
  }

  predicate ChannelLineFields(v: ChannelLine) {
    IsId(v.channelId) && IsId(v.sender) && IsU64(v.tsMs) && IsText(v.text)
  }

  lemma ChannelLineLayout(v: ChannelLine)
    ensures ChannelLineCodec().enc(v) == ChannelLineBytes(v) && (ChannelLineCodec().fits(v) <==> ChannelLineFields(v))
  {
    hide Pair, UInt, Fixed, Str, Bytes, Bool, Maybe, List, Framed, Utf8, Shaped;
    FixedIsFlat(32, v.channelId);
    FixedIsFlat(32, v.sender);
    BoolIsFlat(v.outgoing);
    UIntIsFlat(v.tsMs);
    StrIsFlat(v.text);
    PairIsFlat(UInt(8), Str(), v.tsMs, v.text);
    var p1, y1 := Pair(UInt(8), Str()), (v.tsMs, v.text);
    PairIsFlat(Bool(), p1, v.outgoing, y1);
    var p2, y2 := Pair(Bool(), p1), (v.outgoing, y1);
    PairIsFlat(Id(), p2, v.sender, y2);
    var p3, y3 := Pair(Id(), p2), (v.sender, y2);
    PairIsFlat(Id(), p3, v.channelId, y3);
    ShapedIsFlat(ChannelLineShape(), v);
  }

  function MetaBytes(v: LineMeta): bytes {
    U64(v.seqNo) + (ReplyBytes(v.replyTo) + (PerhapsSized(v.forwardedFrom)))
  }

  predicate MetaFields(v: LineMeta) {
    IsU64(v.seqNo) && ReplyFields(v.replyTo) && (v.forwardedFrom.Some? ==> IsText(v.forwardedFrom.value))
  }

  lemma MetaLayout(v: LineMeta)
    ensures MetaCodec().enc(v) == MetaBytes(v) && (MetaCodec().fits(v) <==> MetaFields(v))
  {
    hide Pair, UInt, Fixed, Str, Bytes, Bool, Maybe, List, Framed, Utf8, Shaped, ReplyCodec, ReplyBytes,
      ReplyFields;
    UIntIsFlat(v.seqNo);
    ReplyLayout(v.replyTo);
    MaybeStrIsFlat(v.forwardedFrom);
    PairIsFlat(ReplyCodec(), Maybe(Str()), v.replyTo, v.forwardedFrom);
    var p1, y1 := Pair(ReplyCodec(), Maybe(Str())), (v.replyTo, v.forwardedFrom);
    PairIsFlat(UInt(8), p1, v.seqNo, y1);
    ShapedIsFlat(MetaShape(), v);
  }

  lemma VoiceIsFlat(v: bool)
    ensures VoiceCodec().enc(v) == Flag(v) && VoiceCodec().fits(v)
  {
  }

  function InfoBytes(v: ChannelInfo): bytes {
    v.serverRoot + (Sized(v.serverName) + (v.channelId + (Sized(v.channelName) + (Flag(v.private) + (
      v.hostId + (Flag(v.voice)))))))
  }

  predicate InfoFields(v: ChannelInfo) {
    IsId(v.serverRoot) && IsText(v.serverName) && IsId(v.channelId) && IsText(v.channelName) && IsId(v.hostId)
  }

  lemma InfoLayout(v: ChannelInfo)
    ensures InfoCodec().enc(v) == InfoBytes(v) && (InfoCodec().fits(v) <==> InfoFields(v))
  {
    hide Pair, UInt, Fixed, Str, Bytes, Bool, Maybe, List, Framed, Utf8, Shaped, VoiceCodec;
    FixedIsFlat(32, v.serverRoot);
    StrIsFlat(v.serverName);
    FixedIsFlat(32, v.channelId);
    StrIsFlat(v.channelName);
    BoolIsFlat(v.private);
    FixedIsFlat(32, v.hostId);
    VoiceIsFlat(v.voice);
    PairIsFlat(Id(), VoiceCodec(), v.hostId, v.voice);
    var p1, y1 := Pair(Id(), VoiceCodec()), (v.hostId, v.voice);
    PairIsFlat(Bool(), p1, v.private, y1);
    var p2, y2 := Pair(Bool(), p1), (v.private, y1);
    PairIsFlat(Str(), p2, v.channelName, y2);
    var p3, y3 := Pair(Str(), p2), (v.channelName, y2);
    PairIsFlat(Id(), p3, v.channelId, y3);
    var p4, y4 := Pair(Id(), p3), (v.channelId, y3);
    PairIsFlat(Str(), p4, v.serverName, y4);
    var p5, y5 := Pair(Str(), p4), (v.serverName, y4);
    PairIsFlat(Id(), p5, v.serverRoot, y5);
    ShapedIsFlat(InfoShape(), v);
  }

  function ChannelBytes(v: StoredChannel): bytes {
    Sized(InfoBytes(v.info)) + (Sized(v.mls) + (U64(v.lastSeq) + (Counted(v.roster, Same) + (
      Perhaps(v.logKey)))))
  }

  predicate ChannelFields(v: StoredChannel) {
    InfoFields(v.info) && IsBlob(InfoBytes(v.info)) && IsBlob(v.mls) && IsU64(v.lastSeq) &&
    IsU32(|v.roster|) && (forall i :: i in v.roster ==> IsId(i)) && (v.logKey.Some? ==> IsId(v.logKey.value))
  }

  lemma ChannelLayout(v: StoredChannel)
    ensures ChannelCodec().enc(v) == ChannelBytes(v) && (ChannelCodec().fits(v) <==> ChannelFields(v))
  {
    hide Pair, UInt, Fixed, Str, Bytes, Bool, Maybe, List, Framed, Utf8, Shaped, InfoCodec, InfoBytes,
      InfoFields;
    InfoLayout(v.info);
    FramedIsFlat(InfoCodec(), v.info);
    BytesIsFlat(v.mls);
    UIntIsFlat(v.lastSeq);
    IdsAreFlat(v.roster);
    MaybeIdIsFlat(v.logKey);
    PairIsFlat(List(Id(), 1), Maybe(Id()), v.roster, v.logKey);
    var p1, y1 := Pair(List(Id(), 1), Maybe(Id())), (v.roster, v.logKey);
    PairIsFlat(UInt(8), p1, v.lastSeq, y1);
    var p2, y2 := Pair(UInt(8), p1), (v.lastSeq, y1);
    PairIsFlat(Bytes(), p2, v.mls, y2);
    var p3, y3 := Pair(Bytes(), p2), (v.mls, y2);
    PairIsFlat(Framed(InfoCodec()), p3, v.info, y3);
    ShapedIsFlat(ChannelShape(), v);
  }

  function HostedBytes(v: StoredHostedServer): bytes {
    v.rootPub + (Sized(v.name) + (v.rootSecret + (Counted(v.channels, Same))))
  }

  predicate HostedFields(v: StoredHostedServer) {
    IsId(v.rootPub) && IsText(v.name) && IsId(v.rootSecret) &&
    IsU32(|v.channels|) && (forall i :: i in v.channels ==> IsId(i))
  }

  lemma HostedLayout(v: StoredHostedServer)
    ensures HostedCodec().enc(v) == HostedBytes(v) && (HostedCodec().fits(v) <==> HostedFields(v))
  {
    hide Pair, UInt, Fixed, Str, Bytes, Bool, Maybe, List, Framed, Utf8, Shaped;
    FixedIsFlat(32, v.rootPub);
    StrIsFlat(v.name);
    FixedIsFlat(32, v.rootSecret);
    IdsAreFlat(v.channels);
    PairIsFlat(Id(), List(Id(), 1), v.rootSecret, v.channels);
    var p1, y1 := Pair(Id(), List(Id(), 1)), (v.rootSecret, v.channels);
    PairIsFlat(Str(), p1, v.name, y1);
    var p2, y2 := Pair(Str(), p1), (v.name, y1);
    PairIsFlat(Id(), p2, v.rootPub, y2);
    ShapedIsFlat(HostedShape(), v);
  }

  function SessionEntryBytes(v: (bytes, SessionState)): bytes {
    v.0 + (Sized(SessionBytes(v.1)))
  }

  predicate SessionEntryFields(v: (bytes, SessionState)) {
    IsId(v.0) && SessionFields(v.1) && IsBlob(SessionBytes(v.1))
  }

  lemma SessionEntryLayout(v: (bytes, SessionState))
    ensures SessionEntry().enc(v) == SessionEntryBytes(v) && (SessionEntry().fits(v) <==> SessionEntryFields(v))
  {
    hide Pair, UInt, Fixed, Str, Bytes, Bool, Maybe, List, Framed, Utf8, SessionCodec, SessionBytes,
      SessionFields;
    FixedIsFlat(32, v.0);
    SessionLayout(v.1);
    FramedIsFlat(SessionCodec(), v.1);
    PairIsFlat(Id(), Framed(SessionCodec()), v.0, v.1);
  }

  function InviteUseBytes(v: (bytes, nat)): bytes {
    v.0 + (U32(v.1))
  }

  predicate InviteUseFields(v: (bytes, nat)) {
    |v.0| == 8 && IsU32(v.1)
  }

  lemma InviteUseLayout(v: (bytes, nat))
    ensures InviteUseCodec().enc(v) == InviteUseBytes(v) && (InviteUseCodec().fits(v) <==> InviteUseFields(v))
  {
    hide Pair, UInt, Fixed, Str, Bytes, Bool, Maybe, List, Framed, Utf8;
    FixedIsFlat(8, v.0);
    UIntIsFlat(v.1);
    PairIsFlat(Fixed(8), UInt(4), v.0, v.1);
  }

  function RemovedBytes(v: (bytes, (bytes, nat))): bytes {
    v.0 + (v.1.0 + (U64(v.1.1)))
  }

  predicate RemovedFields(v: (bytes, (bytes, nat))) {
    IsId(v.0) && IsId(v.1.0) && IsU64(v.1.1)
  }

  lemma RemovedLayout(v: (bytes, (bytes, nat)))
    ensures RemovedCodec().enc(v) == RemovedBytes(v) && (RemovedCodec().fits(v) <==> RemovedFields(v))
  {
    hide Pair, UInt, Fixed, Str, Bytes, Bool, Maybe, List, Framed, Utf8;
    FixedIsFlat(32, v.0);
    FixedIsFlat(32, v.1.0);
    UIntIsFlat(v.1.1);
    PairIsFlat(Id(), UInt(8), v.1.0, v.1.1);
    var p1, y1 := Pair(Id(), UInt(8)), (v.1.0, v.1.1);
    PairIsFlat(Id(), p1, v.0, y1);
  }

  function AutokickBytes(v: (bytes, nat)): bytes {
    v.0 + (U64(v.1))
  }

  predicate AutokickFields(v: (bytes, nat)) {
    IsId(v.0) && IsU64(v.1)
  }

  lemma AutokickLayout(v: (bytes, nat))
    ensures AutokickCodec().enc(v) == AutokickBytes(v) && (AutokickCodec().fits(v) <==> AutokickFields(v))
  {
    hide Pair, UInt, Fixed, Str, Bytes, Bool, Maybe, List, Framed, Utf8;
    FixedIsFlat(32, v.0);
    UIntIsFlat(v.1);
    PairIsFlat(Id(), UInt(8), v.0, v.1);
  }

  function IdPairBytes(v: (bytes, bytes)): bytes {
    v.0 + (v.1)
  }

  predicate IdPairFields(v: (bytes, bytes)) {
    IsId(v.0) && IsId(v.1)
  }

  lemma IdPairLayout(v: (bytes, bytes))
    ensures IdPairCodec().enc(v) == IdPairBytes(v) && (IdPairCodec().fits(v) <==> IdPairFields(v))
  {
    hide Pair, UInt, Fixed, Str, Bytes, Bool, Maybe, List, Framed, Utf8;
    FixedIsFlat(32, v.0);
    FixedIsFlat(32, v.1);
    PairIsFlat(Id(), Id(), v.0, v.1);
  }

  function ReactionBytes(v: (bytes, (nat, (bytes, bytes)))): bytes {
    v.0 + (U64(v.1.0) + (Sized(v.1.1.0) + (v.1.1.1)))
  }

  predicate ReactionFields(v: (bytes, (nat, (bytes, bytes)))) {
    IsId(v.0) && IsU64(v.1.0) && IsText(v.1.1.0) && IsId(v.1.1.1)
  }

  lemma ReactionLayout(v: (bytes, (nat, (bytes, bytes))))
    ensures ReactionCodec().enc(v) == ReactionBytes(v) && (ReactionCodec().fits(v) <==> ReactionFields(v))
  {
    hide Pair, UInt, Fixed, Str, Bytes, Bool, Maybe, List, Framed, Utf8;
    FixedIsFlat(32, v.0);
    UIntIsFlat(v.1.0);
    StrIsFlat(v.1.1.0);
    FixedIsFlat(32, v.1.1.1);
    PairIsFlat(Str(), Id(), v.1.1.0, v.1.1.1);
    var p1, y1 := Pair(Str(), Id()), (v.1.1.0, v.1.1.1);
    PairIsFlat(UInt(8), p1, v.1.0, y1);
    var p2, y2 := Pair(UInt(8), p1), (v.1.0, y1);
    PairIsFlat(Id(), p2, v.0, y2);
  }

  function ContactBytes(v: (bytes, (bytes, nat))): bytes {
    v.0 + (Sized(v.1.0) + (U64(v.1.1)))
  }

  predicate ContactFields(v: (bytes, (bytes, nat))) {
    IsId(v.0) && IsText(v.1.0) && IsU64(v.1.1)
  }

  lemma ContactLayout(v: (bytes, (bytes, nat)))
    ensures ContactCodec().enc(v) == ContactBytes(v) && (ContactCodec().fits(v) <==> ContactFields(v))
  {
    hide Pair, UInt, Fixed, Str, Bytes, Bool, Maybe, List, Framed, Utf8;
    FixedIsFlat(32, v.0);
    StrIsFlat(v.1.0);
    UIntIsFlat(v.1.1);
    PairIsFlat(Str(), UInt(8), v.1.0, v.1.1);
    var p1, y1 := Pair(Str(), UInt(8)), (v.1.0, v.1.1);
    PairIsFlat(Id(), p1, v.0, y1);
  }

  function EditBytes(v: StoredEdit): bytes {
    v.channelId + (U64(v.seqNo) + (v.author + (Sized(v.text) + (Flag(v.deleted)))))
  }

  predicate EditFields(v: StoredEdit) {
    IsId(v.channelId) && IsU64(v.seqNo) && IsId(v.author) && IsText(v.text)
  }

  lemma EditLayout(v: StoredEdit)
    ensures EditCodec().enc(v) == EditBytes(v) && (EditCodec().fits(v) <==> EditFields(v))
  {
    hide Pair, UInt, Fixed, Str, Bytes, Bool, Maybe, List, Framed, Utf8, Shaped;
    FixedIsFlat(32, v.channelId);
    UIntIsFlat(v.seqNo);
    FixedIsFlat(32, v.author);
    StrIsFlat(v.text);
    BoolIsFlat(v.deleted);
    PairIsFlat(Str(), Bool(), v.text, v.deleted);
    var p1, y1 := Pair(Str(), Bool()), (v.text, v.deleted);
    PairIsFlat(Id(), p1, v.author, y1);
    var p2, y2 := Pair(Id(), p1), (v.author, y1);
    PairIsFlat(UInt(8), p2, v.seqNo, y2);
    var p3, y3 := Pair(UInt(8), p2), (v.seqNo, y2);
    PairIsFlat(Id(), p3, v.channelId, y3);
    ShapedIsFlat(EditShape(), v);
  }

  function PinBytes(v: StoredPin): bytes {
    v.channelId + (U64(v.seqNo) + (v.pinnedBy + (U64(v.atMs))))
  }

  predicate PinFields(v: StoredPin) {
    IsId(v.channelId) && IsU64(v.seqNo) && IsId(v.pinnedBy) && IsU64(v.atMs)
  }

  lemma PinLayout(v: StoredPin)
    ensures PinCodec().enc(v) == PinBytes(v) && (PinCodec().fits(v) <==> PinFields(v))
  {
    hide Pair, UInt, Fixed, Str, Bytes, Bool, Maybe, List, Framed, Utf8, Shaped;
    FixedIsFlat(32, v.channelId);
    UIntIsFlat(v.seqNo);
    FixedIsFlat(32, v.pinnedBy);
    UIntIsFlat(v.atMs);
    PairIsFlat(Id(), UInt(8), v.pinnedBy, v.atMs);
    var p1, y1 := Pair(Id(), UInt(8)), (v.pinnedBy, v.atMs);
    PairIsFlat(UInt(8), p1, v.seqNo, y1);
    var p2, y2 := Pair(UInt(8), p1), (v.seqNo, y1);
    PairIsFlat(Id(), p2, v.channelId, y2);
    ShapedIsFlat(PinShape(), v);
  }

  function DmEditBytes(v: StoredDmEdit): bytes {
    v.peerIdk + (v.msgId + (Sized(v.text) + (Flag(v.deleted))))
  }

  predicate DmEditFields(v: StoredDmEdit) {
    IsId(v.peerIdk) && |v.msgId| == 16 && IsText(v.text)
  }

  lemma DmEditLayout(v: StoredDmEdit)
    ensures DmEditCodec().enc(v) == DmEditBytes(v) && (DmEditCodec().fits(v) <==> DmEditFields(v))
  {
    hide Pair, UInt, Fixed, Str, Bytes, Bool, Maybe, List, Framed, Utf8, Shaped;
    FixedIsFlat(32, v.peerIdk);
    FixedIsFlat(16, v.msgId);
    StrIsFlat(v.text);
    BoolIsFlat(v.deleted);
    PairIsFlat(Str(), Bool(), v.text, v.deleted);
    var p1, y1 := Pair(Str(), Bool()), (v.text, v.deleted);
    PairIsFlat(MsgIdCodec(), p1, v.msgId, y1);
    var p2, y2 := Pair(MsgIdCodec(), p1), (v.msgId, y1);
    PairIsFlat(Id(), p2, v.peerIdk, y2);
    ShapedIsFlat(DmEditShape(), v);
  }

  function BanBytes(v: (bytes, seq<bytes>)): bytes {
    v.0 + (Counted(v.1, Same))
  }

  predicate BanFields(v: (bytes, seq<bytes>)) {
    IsId(v.0) && IsU32(|v.1|) && (forall i :: i in v.1 ==> IsId(i))
  }

  lemma BanLayout(v: (bytes, seq<bytes>))
    ensures BanCodec().enc(v) == BanBytes(v) && (BanCodec().fits(v) <==> BanFields(v))
  {
    hide Pair, UInt, Fixed, Str, Bytes, Bool, Maybe, List, Framed, Utf8;
    FixedIsFlat(32, v.0);
    IdsAreFlat(v.1);
    PairIsFlat(Id(), List(Id(), 1), v.0, v.1);
  }

  function PowBytes(v: StoredServerPow): bytes {
    v.root + (U32(v.mCostKib) + (U32(v.tCost) + (U8(v.difficulty) + (v.nonce))))
  }

  predicate PowFields(v: StoredServerPow) {
    IsId(v.root) && IsU32(v.mCostKib) && IsU32(v.tCost) && IsU8(v.difficulty) && |v.nonce| == 16
  }

  lemma PowLayout(v: StoredServerPow)
    ensures PowCodec().enc(v) == PowBytes(v) && (PowCodec().fits(v) <==> PowFields(v))
  {
    hide Pair, UInt, Fixed, Str, Bytes, Bool, Maybe, List, Framed, Utf8, Shaped;
    FixedIsFlat(32, v.root);
    UIntIsFlat(v.mCostKib);
    UIntIsFlat(v.tCost);
    UIntIsFlat(v.difficulty);
    FixedIsFlat(16, v.nonce);
    PairIsFlat(UInt(1), Fixed(16), v.difficulty, v.nonce);
    var p1, y1 := Pair(UInt(1), Fixed(16)), (v.difficulty, v.nonce);
    PairIsFlat(UInt(4), p1, v.tCost, y1);
    var p2, y2 := Pair(UInt(4), p1), (v.tCost, y1);
    PairIsFlat(UInt(4), p2, v.mCostKib, y2);
    var p3, y3 := Pair(UInt(4), p2), (v.mCostKib, y2);
    PairIsFlat(Id(), p3, v.root, y3);
    ShapedIsFlat(PowShape(), v);
  }

  function CallBytes(v: StoredGroupCall): bytes {
    v.channelId + (Sized(v.mls))
  }

  predicate CallFields(v: StoredGroupCall) {
    IsId(v.channelId) && IsBlob(v.mls)
  }

  lemma CallLayout(v: StoredGroupCall)
    ensures CallCodec().enc(v) == CallBytes(v) && (CallCodec().fits(v) <==> CallFields(v))
  {
    hide Pair, UInt, Fixed, Str, Bytes, Bool, Maybe, List, Framed, Utf8, Shaped;
    FixedIsFlat(32, v.channelId);
    BytesIsFlat(v.mls);
    PairIsFlat(Id(), Bytes(), v.channelId, v.mls);
    ShapedIsFlat(CallShape(), v);
  }

  // ----- lists of records -----

  ghost predicate AllOf<T>(xs: seq<T>, fine: T -> bool) { IsU32(|xs|) && forall x :: x in xs ==> fine(x) }

  lemma HistoryLineRows(xs: seq<HistoryLine>)
    ensures List(HistoryLineCodec(), 1).enc(xs) == Counted(xs, HistoryLineBytes)
    ensures List(HistoryLineCodec(), 1).fits(xs) <==> AllOf(xs, HistoryLineFields)
  {
    hide List, HistoryLineCodec, Counted, HistoryLineBytes, HistoryLineFields, IsU32;
    forall v | v in xs
      ensures HistoryLineCodec().enc(v) == HistoryLineBytes(v) && (HistoryLineCodec().fits(v) <==> HistoryLineFields(v))
    {
      HistoryLineLayout(v);
    }
    ListIsFlat(HistoryLineCodec(), 1, xs, HistoryLineBytes);
  }

  lemma ChannelLineRows(xs: seq<ChannelLine>)
    ensures List(ChannelLineCodec(), 1).enc(xs) == Counted(xs, ChannelLineBytes)
    ensures List(ChannelLineCodec(), 1).fits(xs) <==> AllOf(xs, ChannelLineFields)
  {
    hide List, ChannelLineCodec, Counted, ChannelLineBytes, ChannelLineFields, IsU32;
    forall v | v in xs
      ensures ChannelLineCodec().enc(v) == ChannelLineBytes(v) && (ChannelLineCodec().fits(v) <==> ChannelLineFields(v))
    {
      ChannelLineLayout(v);
    }
    ListIsFlat(ChannelLineCodec(), 1, xs, ChannelLineBytes);
  }

  lemma ChannelRows(xs: seq<StoredChannel>)
    ensures List(ChannelCodec(), 1).enc(xs) == Counted(xs, ChannelBytes)
    ensures List(ChannelCodec(), 1).fits(xs) <==> AllOf(xs, ChannelFields)
  {
    hide List, ChannelCodec, Counted, ChannelBytes, ChannelFields, IsU32;
    forall v | v in xs
      ensures ChannelCodec().enc(v) == ChannelBytes(v) && (ChannelCodec().fits(v) <==> ChannelFields(v))
    {
      ChannelLayout(v);
    }
    ListIsFlat(ChannelCodec(), 1, xs, ChannelBytes);
  }

  lemma HostedRows(xs: seq<StoredHostedServer>)
    ensures List(HostedCodec(), 1).enc(xs) == Counted(xs, HostedBytes)
    ensures List(HostedCodec(), 1).fits(xs) <==> AllOf(xs, HostedFields)
  {
    hide List, HostedCodec, Counted, HostedBytes, HostedFields, IsU32;
    forall v | v in xs
      ensures HostedCodec().enc(v) == HostedBytes(v) && (HostedCodec().fits(v) <==> HostedFields(v))
    {
      HostedLayout(v);
    }
    ListIsFlat(HostedCodec(), 1, xs, HostedBytes);
  }

  lemma SessionEntryRows(xs: seq<(bytes, SessionState)>)
    ensures List(SessionEntry(), 1).enc(xs) == Counted(xs, SessionEntryBytes)
    ensures List(SessionEntry(), 1).fits(xs) <==> AllOf(xs, SessionEntryFields)
  {
    hide List, SessionEntry, Counted, SessionEntryBytes, SessionEntryFields, IsU32;
    forall v | v in xs
      ensures SessionEntry().enc(v) == SessionEntryBytes(v) && (SessionEntry().fits(v) <==> SessionEntryFields(v))
    {
      SessionEntryLayout(v);
    }
    ListIsFlat(SessionEntry(), 1, xs, SessionEntryBytes);
  }

  lemma InviteUseRows(xs: seq<(bytes, nat)>)
    ensures List(InviteUseCodec(), 1).enc(xs) == Counted(xs, InviteUseBytes)
    ensures List(InviteUseCodec(), 1).fits(xs) <==> AllOf(xs, InviteUseFields)
  {
    hide List, InviteUseCodec, Counted, InviteUseBytes, InviteUseFields, IsU32;
    forall v | v in xs
      ensures InviteUseCodec().enc(v) == InviteUseBytes(v) && (InviteUseCodec().fits(v) <==> InviteUseFields(v))
    {
      InviteUseLayout(v);
    }
    ListIsFlat(InviteUseCodec(), 1, xs, InviteUseBytes);
  }

  lemma RemovedRows(xs: seq<(bytes, (bytes, nat))>)
    ensures List(RemovedCodec(), 1).enc(xs) == Counted(xs, RemovedBytes)
    ensures List(RemovedCodec(), 1).fits(xs) <==> AllOf(xs, RemovedFields)
  {
    hide List, RemovedCodec, Counted, RemovedBytes, RemovedFields, IsU32;
    forall v | v in xs
      ensures RemovedCodec().enc(v) == RemovedBytes(v) && (RemovedCodec().fits(v) <==> RemovedFields(v))
    {
      RemovedLayout(v);
    }
    ListIsFlat(RemovedCodec(), 1, xs, RemovedBytes);
  }

  lemma AutokickRows(xs: seq<(bytes, nat)>)
    ensures List(AutokickCodec(), 1).enc(xs) == Counted(xs, AutokickBytes)
    ensures List(AutokickCodec(), 1).fits(xs) <==> AllOf(xs, AutokickFields)
  {
    hide List, AutokickCodec, Counted, AutokickBytes, AutokickFields, IsU32;
    forall v | v in xs
      ensures AutokickCodec().enc(v) == AutokickBytes(v) && (AutokickCodec().fits(v) <==> AutokickFields(v))
    {
      AutokickLayout(v);
    }
    ListIsFlat(AutokickCodec(), 1, xs, AutokickBytes);
  }

  lemma IdPairRows(xs: seq<(bytes, bytes)>)
    ensures List(IdPairCodec(), 1).enc(xs) == Counted(xs, IdPairBytes)
    ensures List(IdPairCodec(), 1).fits(xs) <==> AllOf(xs, IdPairFields)
  {
    hide List, IdPairCodec, Counted, IdPairBytes, IdPairFields, IsU32;
    forall v | v in xs
      ensures IdPairCodec().enc(v) == IdPairBytes(v) && (IdPairCodec().fits(v) <==> IdPairFields(v))
    {
      IdPairLayout(v);
    }
    ListIsFlat(IdPairCodec(), 1, xs, IdPairBytes);
  }

  lemma ReactionRows(xs: seq<(bytes, (nat, (bytes, bytes)))>)
    ensures List(ReactionCodec(), 1).enc(xs) == Counted(xs, ReactionBytes)
    ensures List(ReactionCodec(), 1).fits(xs) <==> AllOf(xs, ReactionFields)
  {
    hide List, ReactionCodec, Counted, ReactionBytes, ReactionFields, IsU32;
    forall v | v in xs
      ensures ReactionCodec().enc(v) == ReactionBytes(v) && (ReactionCodec().fits(v) <==> ReactionFields(v))
    {
      ReactionLayout(v);
    }
    ListIsFlat(ReactionCodec(), 1, xs, ReactionBytes);
  }

  lemma ContactRows(xs: seq<(bytes, (bytes, nat))>)
    ensures List(ContactCodec(), 1).enc(xs) == Counted(xs, ContactBytes)
    ensures List(ContactCodec(), 1).fits(xs) <==> AllOf(xs, ContactFields)
  {
    hide List, ContactCodec, Counted, ContactBytes, ContactFields, IsU32;
    forall v | v in xs
      ensures ContactCodec().enc(v) == ContactBytes(v) && (ContactCodec().fits(v) <==> ContactFields(v))
    {
      ContactLayout(v);
    }
    ListIsFlat(ContactCodec(), 1, xs, ContactBytes);
  }

  lemma EditRows(xs: seq<StoredEdit>)
    ensures List(EditCodec(), 1).enc(xs) == Counted(xs, EditBytes)
    ensures List(EditCodec(), 1).fits(xs) <==> AllOf(xs, EditFields)
  {
    hide List, EditCodec, Counted, EditBytes, EditFields, IsU32;
    forall v | v in xs
      ensures EditCodec().enc(v) == EditBytes(v) && (EditCodec().fits(v) <==> EditFields(v))
    {
      EditLayout(v);
    }
    ListIsFlat(EditCodec(), 1, xs, EditBytes);
  }

  lemma PinRows(xs: seq<StoredPin>)
    ensures List(PinCodec(), 1).enc(xs) == Counted(xs, PinBytes)
    ensures List(PinCodec(), 1).fits(xs) <==> AllOf(xs, PinFields)
  {
    hide List, PinCodec, Counted, PinBytes, PinFields, IsU32;
    forall v | v in xs
      ensures PinCodec().enc(v) == PinBytes(v) && (PinCodec().fits(v) <==> PinFields(v))
    {
      PinLayout(v);
    }
    ListIsFlat(PinCodec(), 1, xs, PinBytes);
  }

  lemma DmEditRows(xs: seq<StoredDmEdit>)
    ensures List(DmEditCodec(), 1).enc(xs) == Counted(xs, DmEditBytes)
    ensures List(DmEditCodec(), 1).fits(xs) <==> AllOf(xs, DmEditFields)
  {
    hide List, DmEditCodec, Counted, DmEditBytes, DmEditFields, IsU32;
    forall v | v in xs
      ensures DmEditCodec().enc(v) == DmEditBytes(v) && (DmEditCodec().fits(v) <==> DmEditFields(v))
    {
      DmEditLayout(v);
    }
    ListIsFlat(DmEditCodec(), 1, xs, DmEditBytes);
  }

  lemma BanRows(xs: seq<(bytes, seq<bytes>)>)
    ensures List(BanCodec(), 1).enc(xs) == Counted(xs, BanBytes)
    ensures List(BanCodec(), 1).fits(xs) <==> AllOf(xs, BanFields)
  {
    hide List, BanCodec, Counted, BanBytes, BanFields, IsU32;
    forall v | v in xs
      ensures BanCodec().enc(v) == BanBytes(v) && (BanCodec().fits(v) <==> BanFields(v))
    {
      BanLayout(v);
    }
    ListIsFlat(BanCodec(), 1, xs, BanBytes);
  }

  lemma PowRows(xs: seq<StoredServerPow>)
    ensures List(PowCodec(), 1).enc(xs) == Counted(xs, PowBytes)
    ensures List(PowCodec(), 1).fits(xs) <==> AllOf(xs, PowFields)
  {
    hide List, PowCodec, Counted, PowBytes, PowFields, IsU32;
    forall v | v in xs
      ensures PowCodec().enc(v) == PowBytes(v) && (PowCodec().fits(v) <==> PowFields(v))
    {
      PowLayout(v);
    }
    ListIsFlat(PowCodec(), 1, xs, PowBytes);
  }

  lemma CallRows(xs: seq<StoredGroupCall>)
    ensures List(CallCodec(), 1).enc(xs) == Counted(xs, CallBytes)
    ensures List(CallCodec(), 1).fits(xs) <==> AllOf(xs, CallFields)
  {
    hide List, CallCodec, Counted, CallBytes, CallFields, IsU32;
    forall v | v in xs
      ensures CallCodec().enc(v) == CallBytes(v) && (CallCodec().fits(v) <==> CallFields(v))
    {
      CallLayout(v);
    }
    ListIsFlat(CallCodec(), 1, xs, CallBytes);
  }

  lemma MetaRows(xs: seq<LineMeta>)
    ensures List(MetaCodec(), 1).enc(xs) == Counted(xs, MetaBytes)
    ensures List(MetaCodec(), 1).fits(xs) <==> AllOf(xs, MetaFields)
  {
    hide List, MetaCodec, Counted, MetaBytes, MetaFields, IsU32;
    forall v | v in xs
      ensures MetaCodec().enc(v) == MetaBytes(v) && (MetaCodec().fits(v) <==> MetaFields(v))
    {
      MetaLayout(v);
    }
    ListIsFlat(MetaCodec(), 1, xs, MetaBytes);
  }

  lemma IdRows(xs: seq<bytes>)
    ensures List(Id(), 1).enc(xs) == Counted(xs, Same)
    ensures List(Id(), 1).fits(xs) <==> AllOf(xs, IsId)
  {
    hide List, Counted, IsU32;
    IdsAreFlat(xs);
  }

  predicate IsMsgId(v: bytes) { |v| == 16 }

  lemma MsgIdRows(xs: seq<bytes>)
    ensures List(MsgIdCodec(), 1).enc(xs) == Counted(xs, Same)
    ensures List(MsgIdCodec(), 1).fits(xs) <==> AllOf(xs, IsMsgId)
  {
    hide List, Counted, IsU32;
    ListIsFlat(MsgIdCodec(), 1, xs, Same);
  }

  lemma BlobRows(xs: seq<bytes>)
    ensures List(Bytes(), 1).enc(xs) == Counted(xs, Sized)
    ensures List(Bytes(), 1).fits(xs) <==> AllOf(xs, IsBlob)
  {
    hide List, Bytes, Counted, IsU32, Sized, IsBlob;
    forall v | v in xs ensures Bytes().enc(v) == Sized(v) && (Bytes().fits(v) <==> IsBlob(v)) {
      BytesIsFlat(v);
    }
    ListIsFlat(Bytes(), 1, xs, Sized);
  }

  // ----- the mandatory part -----

  function FrontBytes(v: Front): bytes {
    U64(v.lastAnnounceMs) + (U64(v.lastFetchSinceMs) + (Sized(PreKeyBytes(v.prekeys)) + (
      Counted(v.sessions, SessionEntryBytes) + (Counted(v.channels, ChannelBytes) + (
      Counted(v.hosted, HostedBytes) + (Counted(v.lines, HistoryLineBytes) + (Counted(v.seen, Same))))))))
  }

  ghost predicate FrontFields(v: Front) {
    IsU64(v.lastAnnounceMs) && IsU64(v.lastFetchSinceMs) &&
    PreKeyFields(v.prekeys) && IsBlob(PreKeyBytes(v.prekeys)) && AllOf(v.sessions, SessionEntryFields) &&
    AllOf(v.channels, ChannelFields) && AllOf(v.hosted, HostedFields) && AllOf(v.lines, HistoryLineFields) &&
    AllOf(v.seen, IsId)
  }

  lemma FrontLayout(v: Front)
    ensures FrontCodec().enc(v) == FrontBytes(v) && (FrontCodec().fits(v) <==> FrontFields(v))
  {
    hide Pair, UInt, Fixed, Str, Bytes, Bool, Maybe, List, Framed, Utf8, Shaped, SessionEntry, ChannelCodec,
      HostedCodec, HistoryLineCodec, AllOf, Counted, IsU64, U64, Sized, IsBlob, PreKeyCodec, PreKeyBytes,
      PreKeyFields, SessionEntryBytes, SessionEntryFields, ChannelBytes, ChannelFields, HostedBytes,
      HostedFields, HistoryLineBytes, HistoryLineFields;
    UIntIsFlat(v.lastAnnounceMs);
    UIntIsFlat(v.lastFetchSinceMs);
    PreKeyLayout(v.prekeys);
    FramedIsFlat(PreKeyCodec(), v.prekeys);
    SessionEntryRows(v.sessions);
    ChannelRows(v.channels);
    HostedRows(v.hosted);
    HistoryLineRows(v.lines);
    IdRows(v.seen);
    PairIsFlat(List(HistoryLineCodec(), 1), List(Id(), 1), v.lines, v.seen);
    var p1, y1 := Pair(List(HistoryLineCodec(), 1), List(Id(), 1)), (v.lines, v.seen);
    PairIsFlat(List(HostedCodec(), 1), p1, v.hosted, y1);
    var p2, y2 := Pair(List(HostedCodec(), 1), p1), (v.hosted, y1);
    PairIsFlat(List(ChannelCodec(), 1), p2, v.channels, y2);
    var p3, y3 := Pair(List(ChannelCodec(), 1), p2), (v.channels, y2);
    PairIsFlat(List(SessionEntry(), 1), p3, v.sessions, y3);
    var p4, y4 := Pair(List(SessionEntry(), 1), p3), (v.sessions, y3);
    PairIsFlat(Framed(PreKeyCodec()), p4, v.prekeys, y4);
    var p5, y5 := Pair(Framed(PreKeyCodec()), p4), (v.prekeys, y4);
    PairIsFlat(UInt(8), p5, v.lastFetchSinceMs, y5);
    var p6, y6 := Pair(UInt(8), p5), (v.lastFetchSinceMs, y5);
    PairIsFlat(UInt(8), p6, v.lastAnnounceMs, y6);
    ShapedIsFlat(FrontShape(), v);
  }

  // ----- the sections -----

  function LateStrings(r: Late): seq<bytes> {
    [Counted(r.dmMsgIds, Same), Counted(r.dmEdits, DmEditBytes), Counted(r.serverBans, BanBytes),
     Counted(r.serverRegisterPow, PowBytes), Counted(r.groupCalls, CallBytes), Counted(r.lineMeta, MetaBytes)]
  }

  ghost predicate LateFine(r: Late) {
    AllOf(r.dmMsgIds, IsMsgId) && AllOf(r.dmEdits, DmEditFields) && AllOf(r.serverBans, BanFields) &&
    AllOf(r.serverRegisterPow, PowFields) && AllOf(r.groupCalls, CallFields) && AllOf(r.lineMeta, MetaFields)
  }

  lemma LateListed(r: Late)
    ensures ListedAs(LateTail(), r, LateStrings(r))
  {
    hide Then, List, Wrapped, ListedAs, Counted, Same, Sized, BanCodec, CallCodec, DmEditCodec, MetaCodec,
      MsgIdCodec, PowCodec, End;
    MsgIdRows(r.dmMsgIds);
    DmEditRows(r.dmEdits);
    BanRows(r.serverBans);
    PowRows(r.serverRegisterPow);
    CallRows(r.groupCalls);
    MetaRows(r.lineMeta);
    EndListed();
    var w5 := Counted(r.lineMeta, MetaBytes);
    ThenListed(List(MetaCodec(), 1), End(), r.lineMeta, (), w5, []);
    var t5, y5, s5 := Then(List(MetaCodec(), 1), End()), (r.lineMeta, ()), [w5] + [];
    var w4 := Counted(r.groupCalls, CallBytes);
    ThenListed(List(CallCodec(), 1), t5, r.groupCalls, y5, w4, s5);
    var t4, y4, s4 := Then(List(CallCodec(), 1), t5), (r.groupCalls, y5), [w4] + s5;
    var w3 := Counted(r.serverRegisterPow, PowBytes);
    ThenListed(List(PowCodec(), 1), t4, r.serverRegisterPow, y4, w3, s4);
    var t3, y3, s3 := Then(List(PowCodec(), 1), t4), (r.serverRegisterPow, y4), [w3] + s4;
    var w2 := Counted(r.serverBans, BanBytes);
    ThenListed(List(BanCodec(), 1), t3, r.serverBans, y3, w2, s3);
    var t2, y2, s2 := Then(List(BanCodec(), 1), t3), (r.serverBans, y3), [w2] + s3;
    var w1 := Counted(r.dmEdits, DmEditBytes);
    ThenListed(List(DmEditCodec(), 1), t2, r.dmEdits, y2, w1, s2);
    var t1, y1, s1 := Then(List(DmEditCodec(), 1), t2), (r.dmEdits, y2), [w1] + s2;
    var w0 := Counted(r.dmMsgIds, Same);
    ThenListed(List(MsgIdCodec(), 1), t1, r.dmMsgIds, y1, w0, s1);
    var s0 := [w0] + s1;
    assert s0 == LateStrings(r);
    WrappedListed(LateSections(), WrapLate, UnwrapLate, r, s0);
  }

  lemma LateIsFine(r: Late)
    ensures LateTail().fits(r) <==> LateFine(r)
  {
    hide List, AllOf, Counted, BanCodec, CallCodec, DmEditCodec, MetaCodec, MsgIdCodec, PowCodec, LateTail;
    MsgIdRows(r.dmMsgIds);
    DmEditRows(r.dmEdits);
    BanRows(r.serverBans);
    PowRows(r.serverRegisterPow);
    CallRows(r.groupCalls);
    MetaRows(r.lineMeta);
    LateFit(r);
  }

  function MiddleStrings(r: Middle): seq<bytes> {
    [Counted(r.channelReactions, ReactionBytes), Counted(r.verifiedPeers, IdPairBytes),
     Counted(r.contacts, ContactBytes), Counted(r.blocked, Same), Counted(r.channelEdits, EditBytes),
     Counted(r.channelPins, PinBytes)] + LateStrings(r.later)
  }

  ghost predicate MiddleFine(r: Middle) {
    AllOf(r.channelReactions, ReactionFields) && AllOf(r.verifiedPeers, IdPairFields) &&
    AllOf(r.contacts, ContactFields) && AllOf(r.blocked, IsId) && AllOf(r.channelEdits, EditFields) &&
    AllOf(r.channelPins, PinFields) && LateFine(r.later)
  }

  lemma MiddleListed(r: Middle)
    ensures ListedAs(MiddleTail(), r, MiddleStrings(r))
  {
    hide Then, List, Wrapped, ListedAs, Counted, Same, Sized, ContactCodec, EditCodec, Id, IdPairCodec,
      PinCodec, ReactionCodec, LateTail, LateStrings;
    ReactionRows(r.channelReactions);
    IdPairRows(r.verifiedPeers);
    ContactRows(r.contacts);
    IdRows(r.blocked);
    EditRows(r.channelEdits);
    PinRows(r.channelPins);
    LateListed(r.later);
    var w5 := Counted(r.channelPins, PinBytes);
    ThenListed(List(PinCodec(), 1), LateTail(), r.channelPins, r.later, w5, LateStrings(r.later));
    var t5, y5, s5 := Then(List(PinCodec(), 1), LateTail()), (r.channelPins, r.later), [w5] + LateStrings(r.later);
    var w4 := Counted(r.channelEdits, EditBytes);
    ThenListed(List(EditCodec(), 1), t5, r.channelEdits, y5, w4, s5);
    var t4, y4, s4 := Then(List(EditCodec(), 1), t5), (r.channelEdits, y5), [w4] + s5;
    var w3 := Counted(r.blocked, Same);
    ThenListed(List(Id(), 1), t4, r.blocked, y4, w3, s4);
    var t3, y3, s3 := Then(List(Id(), 1), t4), (r.blocked, y4), [w3] + s4;
    var w2 := Counted(r.contacts, ContactBytes);
    ThenListed(List(ContactCodec(), 1), t3, r.contacts, y3, w2, s3);
    var t2, y2, s2 := Then(List(ContactCodec(), 1), t3), (r.contacts, y3), [w2] + s3;
    var w1 := Counted(r.verifiedPeers, IdPairBytes);
    ThenListed(List(IdPairCodec(), 1), t2, r.verifiedPeers, y2, w1, s2);
    var t1, y1, s1 := Then(List(IdPairCodec(), 1), t2), (r.verifiedPeers, y2), [w1] + s2;
    var w0 := Counted(r.channelReactions, ReactionBytes);
    ThenListed(List(ReactionCodec(), 1), t1, r.channelReactions, y1, w0, s1);
    var s0 := [w0] + s1;
    assert s0 == MiddleStrings(r);
    WrappedListed(MiddleSections(), WrapMiddle, UnwrapMiddle, r, s0);
  }

  lemma MiddleIsFine(r: Middle)
    ensures MiddleTail().fits(r) <==> MiddleFine(r)
  {
    hide List, AllOf, Counted, ContactCodec, EditCodec, Id, IdPairCodec, PinCodec, ReactionCodec, LateFine,
      MiddleTail, LateTail;
    ReactionRows(r.channelReactions);
    IdPairRows(r.verifiedPeers);
    ContactRows(r.contacts);
    IdRows(r.blocked);
    EditRows(r.channelEdits);
    PinRows(r.channelPins);
    LateIsFine(r.later);
    MiddleFit(r);
  }

  function RowsStrings(r: Rows): seq<bytes> {
    [Counted(r.channelLines, ChannelLineBytes), Counted(r.inviteUses, InviteUseBytes),
     Counted(r.channelRemoved, RemovedBytes), Counted(r.serverAutokick, AutokickBytes),
     Counted(r.serverPolicies, Sized), Counted(r.serverJoinPw, IdPairBytes)] + MiddleStrings(r.later)
  }

  ghost predicate RowsFine(r: Rows) {
    AllOf(r.channelLines, ChannelLineFields) && AllOf(r.inviteUses, InviteUseFields) &&
    AllOf(r.channelRemoved, RemovedFields) && AllOf(r.serverAutokick, AutokickFields) &&
    AllOf(r.serverPolicies, IsBlob) && AllOf(r.serverJoinPw, IdPairFields) && MiddleFine(r.later)
  }

  lemma RowsListed(r: Rows)
    ensures ListedAs(RowsTail(), r, RowsStrings(r))
  {
    hide Then, List, Wrapped, ListedAs, Counted, Same, Sized, AutokickCodec, Bytes, ChannelLineCodec,
      IdPairCodec, InviteUseCodec, RemovedCodec, MiddleTail, MiddleStrings;
    ChannelLineRows(r.channelLines);
    InviteUseRows(r.inviteUses);
    RemovedRows(r.channelRemoved);
    AutokickRows(r.serverAutokick);
    BlobRows(r.serverPolicies);
    IdPairRows(r.serverJoinPw);
    MiddleListed(r.later);
    var w5 := Counted(r.serverJoinPw, IdPairBytes);
    ThenListed(List(IdPairCodec(), 1), MiddleTail(), r.serverJoinPw, r.later, w5, MiddleStrings(r.later));
    var t5, y5, s5 := Then(List(IdPairCodec(), 1), MiddleTail()), (r.serverJoinPw, r.later),
      [w5] + MiddleStrings(r.later);
    var w4 := Counted(r.serverPolicies, Sized);
    ThenListed(List(Bytes(), 1), t5, r.serverPolicies, y5, w4, s5);
    var t4, y4, s4 := Then(List(Bytes(), 1), t5), (r.serverPolicies, y5), [w4] + s5;
    var w3 := Counted(r.serverAutokick, AutokickBytes);
    ThenListed(List(AutokickCodec(), 1), t4, r.serverAutokick, y4, w3, s4);
    var t3, y3, s3 := Then(List(AutokickCodec(), 1), t4), (r.serverAutokick, y4), [w3] + s4;
    var w2 := Counted(r.channelRemoved, RemovedBytes);
    ThenListed(List(RemovedCodec(), 1), t3, r.channelRemoved, y3, w2, s3);
    var t2, y2, s2 := Then(List(RemovedCodec(), 1), t3), (r.channelRemoved, y3), [w2] + s3;
    var w1 := Counted(r.inviteUses, InviteUseBytes);
    ThenListed(List(InviteUseCodec(), 1), t2, r.inviteUses, y2, w1, s2);
    var t1, y1, s1 := Then(List(InviteUseCodec(), 1), t2), (r.inviteUses, y2), [w1] + s2;
    var w0 := Counted(r.channelLines, ChannelLineBytes);
    ThenListed(List(ChannelLineCodec(), 1), t1, r.channelLines, y1, w0, s1);
    var s0 := [w0] + s1;
    assert s0 == RowsStrings(r);
    WrappedListed(RowsSections(), WrapRows, UnwrapRows, r, s0);
  }

  lemma RowsIsFine(r: Rows)
    ensures RowsTail().fits(r) <==> RowsFine(r)
  {
    hide List, AllOf, Counted, AutokickCodec, Bytes, ChannelLineCodec, IdPairCodec, InviteUseCodec,
      RemovedCodec, MiddleFine, RowsTail, MiddleTail;
    ChannelLineRows(r.channelLines);
    InviteUseRows(r.inviteUses);
    RemovedRows(r.channelRemoved);
    AutokickRows(r.serverAutokick);
    BlobRows(r.serverPolicies);
    IdPairRows(r.serverJoinPw);
    MiddleIsFine(r.later);
    RowsFit(r);
  }

  // ----- the whole payload -----

  /** The 18 sections, in the order in which they were introduced. */
  function SectionStrings(s: PersistedState): seq<bytes> {
    [Counted(ChannelLinesOf(s.channelHistory), ChannelLineBytes), Counted(s.inviteUses, InviteUseBytes),
     Counted(s.channelRemoved, RemovedBytes), Counted(s.serverAutokick, AutokickBytes),
     Counted(s.serverPolicies, Sized), Counted(s.serverJoinPw, IdPairBytes)] +
    ([Counted(s.channelReactions, ReactionBytes), Counted(s.verifiedPeers, IdPairBytes),
      Counted(s.contacts, ContactBytes), Counted(s.blocked, Same), Counted(s.channelEdits, EditBytes),
      Counted(s.channelPins, PinBytes)] +
     [Counted(s.dmMsgIds, Same), Counted(s.dmEdits, DmEditBytes), Counted(s.serverBans, BanBytes),
      Counted(s.serverRegisterPow, PowBytes), Counted(s.groupCalls, CallBytes),
      Counted(MetaOf(s.channelHistory), MetaBytes)])
  }

  ghost predicate StateFields(s: PersistedState) {
    && FrontFields(FrontOf(s))
    && AllOf(s.channelHistory, (e: ChannelHistoryEntry) => ChannelLineFields(e.line) && MetaFields(e.meta))
    && AllOf(s.inviteUses, InviteUseFields) && AllOf(s.channelRemoved, RemovedFields)
    && AllOf(s.serverAutokick, AutokickFields) && AllOf(s.serverPolicies, IsBlob)
    && AllOf(s.serverJoinPw, IdPairFields) && AllOf(s.channelReactions, ReactionFields)
    && AllOf(s.verifiedPeers, IdPairFields) && AllOf(s.contacts, ContactFields) && AllOf(s.blocked, IsId)
    && AllOf(s.channelEdits, EditFields) && AllOf(s.channelPins, PinFields) && AllOf(s.dmMsgIds, IsMsgId)
    && AllOf(s.dmEdits, DmEditFields) && AllOf(s.serverBans, BanFields)
    && AllOf(s.serverRegisterPow, PowFields) && AllOf(s.groupCalls, CallFields)
  }

  lemma HistoryIsFine(history: seq<ChannelHistoryEntry>)
    ensures AllOf(history, (e: ChannelHistoryEntry) => ChannelLineFields(e.line) && MetaFields(e.meta)) <==>
      AllOf(ChannelLinesOf(history), ChannelLineFields) && AllOf(MetaOf(history), MetaFields)
  {
    hide IsU32, ChannelLineFields, MetaFields;
    var lines, metas := ChannelLinesOf(history), MetaOf(history);
    assert forall i :: 0 <= i < |history| ==> lines[i] in lines && metas[i] in metas && history[i] in history;
  }

  /** A saved state is the mandatory part and the sections, and so is every point at which it may be cut off. */
  lemma SavedByteForByte(s: PersistedState, k: nat)
    requires k <= 18
    ensures Boundary(s, k) == FrontBytes(FrontOf(s)) + Join(SectionStrings(s)[..k])
    ensures Encode(s) == FrontBytes(FrontOf(s)) + Join(SectionStrings(s))
    ensures Storable(s) <==> StateFields(s)
  {
    hide Good, FrontCodec, RowsTail, FrontOf, RowsOf, FrontBytes, FrontFields, SectionStrings, Join, StateFields;
    FrontLayout(FrontOf(s));
    RowsListed(RowsOf(s));
    StringsAre(s);
    RowsGood();
    WholeTail(RowsTail(), RowsOf(s));
    var all := SectionStrings(s);
    assert all[..18] == all;
    StateIsFine(s);
  }

  lemma StringsAre(s: PersistedState)
    ensures RowsStrings(RowsOf(s)) == SectionStrings(s) && |SectionStrings(s)| == 18
  {
    hide Counted, ChannelLinesOf, MetaOf;
  }

  lemma StateIsFine(s: PersistedState)
    ensures FrontFields(FrontOf(s)) && RowsTail().fits(RowsOf(s)) <==> StateFields(s)
  {
    hide RowsTail, FrontFields, AllOf, ChannelLinesOf, MetaOf, FrontOf;
    RowsIsFine(RowsOf(s));
    HistoryIsFine(s.channelHistory);
  }

  // ----- records as they are read -----

  ghost predicate NumberedAs(b: bytes, v: Option<nat>, n: nat, rest: bytes) {
    IsU64(n) && (v.Some? ==> n == v.value) && b == Flag(v.Some?) + U64(n) + rest
  }

  /** Whatever number stands where there is no reply is passed over. */
  lemma RepliesAreExact(b: bytes, v: Option<nat>, rest: bytes)
    ensures ReplyCodec().dec(b) == Done(v, rest) <==> exists n :: NumberedAs(b, v, n, rest)
  {
    hide Pair, Bool, UInt, RoundTrips, Extends, AtLeast, Canonical, U64, IsU64, Flag;
    BoolLaws();
    UIntLaws(8);
    var parts := Pair(Bool(), UInt(8));
    PairLaws(Bool(), UInt(8));
    if ReplyCodec().dec(b) == Done(v, rest) {
      Reencode(parts, b);
      var x := parts.dec(b).value;
      PairIsFlat(Bool(), UInt(8), x.0, x.1);
      BoolIsFlat(x.0);
      UIntIsFlat(x.1);
      assert NumberedAs(b, v, x.1, rest);
    }
    if n: nat :| NumberedAs(b, v, n, rest) {
      PairIsFlat(Bool(), UInt(8), v.Some?, n);
      BoolIsFlat(v.Some?);
      UIntIsFlat(n);
      RoundTrip(parts, (v.Some?, n), rest);
    }
  }

  lemma PairReads<A(!new), B>(a: Codec<A>, b: Codec<B>, x: A, y: B, rest: bytes)
    requires RoundTrips(a) && a.fits(x) && Finish(b.dec(rest)) == Ok(y)
    ensures Finish(Pair(a, b).dec(a.enc(x) + rest)) == Ok((x, y))
  {
    RoundTrip(a, x, rest);
  }

  lemma PairWasRead<A, B>(a: Codec<A>, b: Codec<B>, s: bytes, x: A, y: B) returns (rest: bytes)
    requires Canonical(a) && Finish(Pair(a, b).dec(s)) == Ok((x, y))
    ensures a.fits(x) && s == a.enc(x) + rest && Finish(b.dec(rest)) == Ok(y)
  {
    Reencode(a, s);
    rest := a.dec(s).rest;
  }

  lemma VoiceIsExact(b: bytes, v: bool)
    ensures Finish(VoiceCodec().dec(b)) == Ok(v) <==> b == Flag(v) || (b == [] && !v)
  {
  }

  /** The record as it was before its flag. */
  function FirstInfoBytes(v: ChannelInfo): bytes {
    v.serverRoot + (Sized(v.serverName) + (v.channelId + (Sized(v.channelName) + (Flag(v.private) + v.hostId))))
  }

  /** A record up to its flag, and the rest. */
  function InfoThen(v: ChannelInfo, rest: bytes): bytes {
    v.serverRoot + (Sized(v.serverName) + (v.channelId + (Sized(v.channelName) +
      (Flag(v.private) + (v.hostId + rest)))))
  }

  lemma InfoReads(v: ChannelInfo, rest: bytes)
    requires InfoFields(v) && Finish(VoiceCodec().dec(rest)) == Ok(v.voice)
    ensures Finish(InfoCodec().dec(InfoThen(v, rest))) == Ok(v)
  {
    hide Pair, Fixed, Str, Bool, VoiceCodec, RoundTrips, Extends, Canonical, AtLeast, Sized, Flag, IsText, IsId, Shaped,
      Finish;
    InfoFieldsAreFlat(v);
    var p1, y1 := Pair(Id(), VoiceCodec()), (v.hostId, v.voice);
    var p2, y2 := Pair(Bool(), p1), (v.private, y1);
    var p3, y3 := Pair(Str(), p2), (v.channelName, y2);
    var p4, y4 := Pair(Id(), p3), (v.channelId, y3);
    var p5, y5 := Pair(Str(), p4), (v.serverName, y4);
    var r1 := v.hostId + rest;
    var r2 := Flag(v.private) + r1;
    var r3 := Sized(v.channelName) + r2;
    var r4 := v.channelId + r3;
    var r5 := Sized(v.serverName) + r4;
    PairReads(Id(), VoiceCodec(), v.hostId, v.voice, rest);
    PairReads(Bool(), p1, v.private, y1, r1);
    PairReads(Str(), p2, v.channelName, y2, r2);
    PairReads(Id(), p3, v.channelId, y3, r3);
    PairReads(Str(), p4, v.serverName, y4, r4);
    PairReads(Id(), p5, v.serverRoot, y5, r5);
    ShapedReads(InfoShape(), InfoThen(v, rest), (v.serverRoot, y5), v);
  }

  lemma ShapedReads<A, T>(s: Shape<A, T>, b: bytes, x: A, v: T)
    ensures Finish(s.parts.dec(b)) == Ok(x) && s.wrap(x) == v ==> Finish(Shaped(s).dec(b)) == Ok(v)
  {
  }

  /** The fields in the terms of their codecs, whose laws are at hand. */
  lemma InfoFieldsAreFlat(v: ChannelInfo)
    ensures Lawful(Id()) && Canonical(Id()) && Lawful(Str()) && Canonical(Str()) && Lawful(Bool()) && Canonical(Bool())
    ensures Id().enc(v.serverRoot) == v.serverRoot && (Id().fits(v.serverRoot) <==> IsId(v.serverRoot))
    ensures Str().enc(v.serverName) == Sized(v.serverName) && (Str().fits(v.serverName) <==> IsText(v.serverName))
    ensures Id().enc(v.channelId) == v.channelId && (Id().fits(v.channelId) <==> IsId(v.channelId))
    ensures Str().enc(v.channelName) == Sized(v.channelName) && (Str().fits(v.channelName) <==> IsText(v.channelName))
    ensures Bool().enc(v.private) == Flag(v.private) && Bool().fits(v.private)
    ensures Id().enc(v.hostId) == v.hostId && (Id().fits(v.hostId) <==> IsId(v.hostId))
  {
    hide Fixed, Str, Bool, RoundTrips, Extends, Canonical, AtLeast, Sized, Flag, IsText;
    IdLaws();
    StrLaws();
    BoolLaws();
    FixedIsFlat(32, v.serverRoot);
    StrIsFlat(v.serverName);
    FixedIsFlat(32, v.channelId);
    StrIsFlat(v.channelName);
    BoolIsFlat(v.private);
    FixedIsFlat(32, v.hostId);
  }

  lemma InfoWasRead(b: bytes, v: ChannelInfo) returns (rest: bytes)
    requires Finish(InfoCodec().dec(b)) == Ok(v)
    ensures InfoFields(v) && b == InfoThen(v, rest) && Finish(VoiceCodec().dec(rest)) == Ok(v.voice)
  {
    hide Pair, Fixed, Str, Bool, VoiceCodec, RoundTrips, Extends, Canonical, AtLeast, Sized, Flag, IsText, IsId, Shaped,
      Finish;
    InfoFieldsAreFlat(v);
    var p1, y1 := Pair(Id(), VoiceCodec()), (v.hostId, v.voice);
    var p2, y2 := Pair(Bool(), p1), (v.private, y1);
    var p3, y3 := Pair(Str(), p2), (v.channelName, y2);
    var p4, y4 := Pair(Id(), p3), (v.channelId, y3);
    var p5, y5 := Pair(Str(), p4), (v.serverName, y4);
    InfoPartsWereRead(b, v);
    var r5 := PairWasRead(Id(), p5, b, v.serverRoot, y5);
    var r4 := PairWasRead(Str(), p4, r5, v.serverName, y4);
    var r3 := PairWasRead(Id(), p3, r4, v.channelId, y3);
    var r2 := PairWasRead(Str(), p2, r3, v.channelName, y2);
    var r1 := PairWasRead(Bool(), p1, r2, v.private, y1);
    rest := PairWasRead(Id(), VoiceCodec(), r1, v.hostId, v.voice);
  }

  lemma InfoPartsWereRead(b: bytes, v: ChannelInfo)
    requires Finish(InfoCodec().dec(b)) == Ok(v)
    ensures Finish(InfoShape().parts.dec(b)) == Ok(InfoShape().unwrap(v))
  {
    hide Pair, Fixed, Str, Bool, VoiceCodec;
  }

  /** A record is read from its bytes and, if its flag is clear, from those without the flag. */
  lemma InfosAreExact(b: bytes, v: ChannelInfo)
    ensures Finish(InfoCodec().dec(b)) == Ok(v) <==>
      InfoFields(v) && (b == InfoBytes(v) || (b == FirstInfoBytes(v) && !v.voice))
  {
    hide InfoCodec, VoiceCodec, InfoFields, Sized, Finish, IsText;
    assert InfoThen(v, []) == FirstInfoBytes(v) by { assert v.hostId + [] == v.hostId; }
    VoiceIsExact(Flag(v.voice), v.voice);
    VoiceIsExact([], v.voice);
    if Finish(InfoCodec().dec(b)) == Ok(v) {
      var rest := InfoWasRead(b, v);
      VoiceIsExact(rest, v.voice);
    }
    if InfoFields(v) && b == InfoBytes(v) {
      InfoReads(v, Flag(v.voice));
    }
    if InfoFields(v) && b == FirstInfoBytes(v) && !v.voice {
      InfoReads(v, []);
    }
  }

}
