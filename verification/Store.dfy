/**
 Encoding and decoding the payload of the local store, what a saved state decodes
 to, and which cut-off payloads still load and as what.
 */
module Store {
  import opened Common
  import opened Wire
  import opened Packets
  import opened Sections
  import opened StoreRecords

  // ----- the mandatory part -----

  datatype Front = Front(
    lastAnnounceMs: nat, lastFetchSinceMs: nat, prekeys: PreKeyState, sessions: seq<(bytes, SessionState)>,
    channels: seq<StoredChannel>, hosted: seq<StoredHostedServer>, lines: seq<HistoryLine>, seen: seq<bytes>)

  type ListFields = (seq<StoredChannel>, (seq<StoredHostedServer>, (seq<HistoryLine>, seq<bytes>)))

  type FrontFields = (nat, (nat, (PreKeyState, (seq<(bytes, SessionState)>, ListFields))))

  function SessionEntry(): Codec<(bytes, SessionState)> { Pair(Id(), Framed(SessionCodec())) }

  function PlainLists(): Codec<(seq<StoredHostedServer>, (seq<HistoryLine>, seq<bytes>))> {
    Pair(List(HostedCodec(), 1), Pair(List(HistoryLineCodec(), 1), List(Id(), 1)))
  }

  function ListsCodec(): Codec<ListFields> { Pair(List(ChannelCodec(), 1), PlainLists()) }

  function FrontParts(): Codec<FrontFields> {
    Pair(UInt(8), Pair(UInt(8), Pair(Framed(PreKeyCodec()), Pair(List(SessionEntry(), 1), ListsCodec()))))
  }

  function Wrap(t: FrontFields): Front {
    var l: ListFields := t.1.1.1.1;
    Front(t.0, t.1.0, t.1.1.0, t.1.1.1.0, l.0, l.1.0, l.1.1.0, l.1.1.1)
  }

  function Unwrap(f: Front): FrontFields {
    (f.lastAnnounceMs, (f.lastFetchSinceMs, (f.prekeys, (f.sessions, (f.channels, (f.hosted, (f.lines, f.seen)))))))
  }

  function FrontShape(): Shape<FrontFields, Front> { Shape(FrontParts(), Wrap, Unwrap, (f: Front) => true) }

  function FrontCodec(): Codec<Front> { Shaped(FrontShape()) }

  /** Every channel record has room for its flag. */
  predicate RecordsFrame(channels: seq<StoredChannel>) {
    forall i :: 0 <= i < |channels| ==> ChannelFrames(channels[i])
  }

  lemma PlainListsSolid()
    ensures Solid(PlainLists())
  {
    hide Solid, Pair, List, HostedCodec, HistoryLineCodec, Id;
    BasicsSolid();
    HostedSolid();
    HistoryLineSolid();
    ListSolid(HostedCodec());
    ListSolid(HistoryLineCodec());
    ListSolid(Id());
    PairSolid(List(HistoryLineCodec(), 1), List(Id(), 1));
    PairSolid(List(HostedCodec(), 1), Pair(List(HistoryLineCodec(), 1), List(Id(), 1)));
  }

  lemma ListsAreFirm()
    ensures Firm(ListsCodec()) && SoundFor(ListsCodec(), (l: ListFields) => RecordsFrame(l.0))
  {
    hide Firm, Sound, SoundFor, Pair, List, ChannelCodec, PlainLists, ChannelFrames;
    ChannelIsFirm();
    PlainListsSolid();
    ListFirm(ChannelCodec());
    ListSoundFor(ChannelCodec(), 1, ChannelFrames, RecordsFrame);
    SoundIsSoundFor(PlainLists(), _ => true);
    PairFirm(List(ChannelCodec(), 1), PlainLists());
    PairSoundFor(List(ChannelCodec(), 1), RecordsFrame, PlainLists(), _ => true,
                 (l: ListFields) => RecordsFrame(l.0));
  }

  lemma FramedStatesSolid()
    ensures Solid(Framed(PreKeyCodec())) && Solid(Framed(SessionCodec()))
  {
    hide RoundTrips, Extends, Canonical, AtLeast, Framed, PreKeyCodec, SessionCodec, Sound;
    PreKeyLaws();
    SessionLaws();
    FramedSolid(PreKeyCodec());
    FramedSolid(SessionCodec());
  }

  lemma EntriesSolid()
    ensures Solid(List(SessionEntry(), 1)) && Solid(UInt(8)) && Solid(Framed(PreKeyCodec()))
  {
    hide Solid, Pair, List, SessionCodec, PreKeyCodec, Framed, Id, UInt;
    BasicsSolid();
    UIntSolid(8);
    FramedStatesSolid();
    PairSolid(Id(), Framed(SessionCodec()));
    ListSolid(SessionEntry());
  }

  /** Putting a solid codec in front keeps the condition on what follows. */
  lemma InFront<A(!new), B(!new)>(a: Codec<A>, b: Codec<B>, ok: B -> bool, okPair: ((A, B)) -> bool)
    requires Solid(a) && Firm(b) && SoundFor(b, ok) && forall v :: okPair(v) ==> ok(v.1)
    ensures Firm(Pair(a, b)) && SoundFor(Pair(a, b), okPair)
  {
    hide Firm, Sound, SoundFor, Pair;
    PairFirm(a, b);
    SoundIsSoundFor(a, _ => true);
    PairSoundFor(a, _ => true, b, ok, okPair);
  }

  lemma FrontIsFirm()
    ensures Firm(FrontCodec()) && SoundFor(FrontCodec(), (f: Front) => RecordsFrame(f.channels))
  {
    hide Solid, Firm, SoundFor, Pair, List, ListsCodec, PreKeyCodec, SessionEntry, Framed, UInt, RecordsFrame;
    EntriesSolid();
    ListsAreFirm();
    var ok0 := (l: ListFields) => RecordsFrame(l.0);
    var ok1 := (t: (seq<(bytes, SessionState)>, ListFields)) => RecordsFrame(t.1.0);
    var ok2 := (t: (PreKeyState, (seq<(bytes, SessionState)>, ListFields))) => RecordsFrame(t.1.1.0);
    var ok3 := (t: (nat, (PreKeyState, (seq<(bytes, SessionState)>, ListFields)))) => RecordsFrame(t.1.1.1.0);
    var ok4 := (t: FrontFields) => RecordsFrame(t.1.1.1.1.0);
    var p1 := Pair(List(SessionEntry(), 1), ListsCodec());
    var p2 := Pair(Framed(PreKeyCodec()), p1);
    var p3 := Pair(UInt(8), p2);
    InFront(List(SessionEntry(), 1), ListsCodec(), ok0, ok1);
    InFront(Framed(PreKeyCodec()), p1, ok1, ok2);
    InFront(UInt(8), p2, ok2, ok3);
    InFront(UInt(8), p3, ok3, ok4);
    ShapeFirm(FrontShape());
    ShapeSoundFor(FrontShape(), ok4, (f: Front) => RecordsFrame(f.channels));
  }

  /** A front that fits has room for every flag. */
  lemma FittingRecordsFrame(f: Front)
    requires FrontCodec().fits(f)
    ensures RecordsFrame(f.channels)
  {
    hide UInt, PreKeyCodec, SessionEntry, PlainLists, InfoCodec, ChannelRest, Pow256;
    assert List(ChannelCodec(), 1).fits(f.channels);
    ListFits(ChannelCodec(), 1, f.channels);
    forall i | 0 <= i < |f.channels| ensures ChannelFrames(f.channels[i]) {
      ChannelPartsAre();
      PairFits(Framed(InfoCodec()), ChannelRest(), f.channels[i].info, ChannelShape().unwrap(f.channels[i]).1);
      FramedFits(InfoCodec(), f.channels[i].info);
    }
  }

  // ----- the trailing sections, in order of introduction -----

  datatype Late = Late(
    dmMsgIds: seq<bytes>, dmEdits: seq<StoredDmEdit>, serverBans: seq<(bytes, seq<bytes>)>,
    serverRegisterPow: seq<StoredServerPow>, groupCalls: seq<StoredGroupCall>, lineMeta: seq<LineMeta>)

  type LateFields =
    (seq<bytes>, (seq<StoredDmEdit>, (seq<(bytes, seq<bytes>)>,
     (seq<StoredServerPow>, (seq<StoredGroupCall>, (seq<LineMeta>, ()))))))

  function WrapLate(t: LateFields): Late {
    Late(t.0, t.1.0, t.1.1.0, t.1.1.1.0, t.1.1.1.1.0, t.1.1.1.1.1.0)
  }

  function UnwrapLate(r: Late): LateFields {
    (r.dmMsgIds, (r.dmEdits, (r.serverBans, (r.serverRegisterPow,
      (r.groupCalls, (r.lineMeta, ()))))))
  }

  function LateLastThree(): Tail<(seq<StoredServerPow>, (seq<StoredGroupCall>, (seq<LineMeta>, ())))> {
    Then(List(PowCodec(), 1), Then(List(CallCodec(), 1), Then(List(MetaCodec(), 1), End())))
  }

  function LateSections(): Tail<LateFields> {
    Then(List(MsgIdCodec(), 1), Then(List(DmEditCodec(), 1), Then(List(BanCodec(), 1), LateLastThree())))
  }

  function LateTail(): Tail<Late> { Wrapped(LateSections(), WrapLate, UnwrapLate) }

  datatype Middle = Middle(
    channelReactions: seq<(bytes, (nat, (bytes, bytes)))>, verifiedPeers: seq<(bytes, bytes)>,
    contacts: seq<(bytes, (bytes, nat))>, blocked: seq<bytes>, channelEdits: seq<StoredEdit>,
    channelPins: seq<StoredPin>, later: Late)

  type MiddleFields =
    (seq<(bytes, (nat, (bytes, bytes)))>, (seq<(bytes, bytes)>, (seq<(bytes, (bytes, nat))>,
     (seq<bytes>, (seq<StoredEdit>, (seq<StoredPin>, Late))))))

  function WrapMiddle(t: MiddleFields): Middle {
    Middle(t.0, t.1.0, t.1.1.0, t.1.1.1.0, t.1.1.1.1.0, t.1.1.1.1.1.0, t.1.1.1.1.1.1)
  }

  function UnwrapMiddle(r: Middle): MiddleFields {
    (r.channelReactions, (r.verifiedPeers, (r.contacts, (r.blocked,
      (r.channelEdits, (r.channelPins, r.later))))))
  }

  function MiddleLastThree(): Tail<(seq<bytes>, (seq<StoredEdit>, (seq<StoredPin>, Late)))> {
    Then(List(Id(), 1), Then(List(EditCodec(), 1), Then(List(PinCodec(), 1), LateTail())))
  }

  function MiddleSections(): Tail<MiddleFields> {
    Then(List(ReactionCodec(), 1), Then(List(IdPairCodec(), 1), Then(List(ContactCodec(), 1), MiddleLastThree())))
  }

  function MiddleTail(): Tail<Middle> { Wrapped(MiddleSections(), WrapMiddle, UnwrapMiddle) }

  datatype Rows = Rows(
    channelLines: seq<ChannelLine>, inviteUses: seq<(bytes, nat)>, channelRemoved: seq<(bytes, (bytes, nat))>,
    serverAutokick: seq<(bytes, nat)>, serverPolicies: seq<bytes>, serverJoinPw: seq<(bytes, bytes)>,
    later: Middle)

  type RowsFields =
    (seq<ChannelLine>, (seq<(bytes, nat)>, (seq<(bytes, (bytes, nat))>,
     (seq<(bytes, nat)>, (seq<bytes>, (seq<(bytes, bytes)>, Middle))))))

  function WrapRows(t: RowsFields): Rows {
    Rows(t.0, t.1.0, t.1.1.0, t.1.1.1.0, t.1.1.1.1.0, t.1.1.1.1.1.0, t.1.1.1.1.1.1)
  }

  function UnwrapRows(r: Rows): RowsFields {
    (r.channelLines, (r.inviteUses, (r.channelRemoved, (r.serverAutokick,
      (r.serverPolicies, (r.serverJoinPw, r.later))))))
  }

  function RowsLastThree(): Tail<(seq<(bytes, nat)>, (seq<bytes>, (seq<(bytes, bytes)>, Middle)))> {
    Then(List(AutokickCodec(), 1), Then(List(Bytes(), 1), Then(List(IdPairCodec(), 1), MiddleTail())))
  }

  function RowsSections(): Tail<RowsFields> {
    Then(List(ChannelLineCodec(), 1), Then(List(InviteUseCodec(), 1), Then(List(RemovedCodec(), 1), RowsLastThree())))
  }

  function RowsTail(): Tail<Rows> { Wrapped(RowsSections(), WrapRows, UnwrapRows) }

  lemma SectionIsGood<A(!new)>(c: Codec<A>)
    requires Solid(c)
    ensures GoodSection(List(c, 1)) && List(c, 1).fits([])
  {
    hide Solid;
    ListSolid(c);
    ListFits(c, 1, []);
    assert Solid(List(c, 1)) ==> GoodSection(List(c, 1)) by { SolidIsGood(List(c, 1)); }
  }

  lemma SolidIsGood<A(!new)>(c: Codec<seq<A>>)
    ensures Solid(c) ==> GoodSection(c)
  {
  }

  lemma LateGood()
    ensures Good(LateTail()) && LateTail().count == 6
  {
    hide Solid, GoodSection, Good, Then, List, Wrapped, BanCodec, CallCodec, DmEditCodec, MetaCodec,
      MsgIdCodec, PowCodec;
    EndIsGood();
    BanSolid();
    CallSolid();
    DmEditSolid();
    MetaSolid();
    MsgIdSolid();
    PowSolid();
    SectionIsGood(MetaCodec());
    ThenIsGood(List(MetaCodec(), 1), End());
    ThenCount(List(MetaCodec(), 1), End());
    var t5 := Then(List(MetaCodec(), 1), End());
    SectionIsGood(CallCodec());
    ThenIsGood(List(CallCodec(), 1), t5);
    ThenCount(List(CallCodec(), 1), t5);
    var t4 := Then(List(CallCodec(), 1), t5);
    SectionIsGood(PowCodec());
    ThenIsGood(List(PowCodec(), 1), t4);
    ThenCount(List(PowCodec(), 1), t4);
    var t3 := Then(List(PowCodec(), 1), t4);
    SectionIsGood(BanCodec());
    ThenIsGood(List(BanCodec(), 1), t3);
    ThenCount(List(BanCodec(), 1), t3);
    var t2 := Then(List(BanCodec(), 1), t3);
    SectionIsGood(DmEditCodec());
    ThenIsGood(List(DmEditCodec(), 1), t2);
    ThenCount(List(DmEditCodec(), 1), t2);
    var t1 := Then(List(DmEditCodec(), 1), t2);
    SectionIsGood(MsgIdCodec());
    ThenIsGood(List(MsgIdCodec(), 1), t1);
    ThenCount(List(MsgIdCodec(), 1), t1);
    var t0 := Then(List(MsgIdCodec(), 1), t1);
    LateInverse();
    WrappedIsGood(t0, WrapLate, UnwrapLate);
  }

  lemma LateInverse()
    ensures forall x: LateFields, v: Late :: InverseAt(WrapLate, UnwrapLate, x, v)
  {
    forall x: LateFields, v: Late ensures InverseAt(WrapLate, UnwrapLate, x, v) {
      assert x.1.1.1.1.1.1 == ();
    }
  }

  lemma ThenCount<A, T>(c: Codec<seq<A>>, t: Tail<T>)
    ensures Then(c, t).count == t.count + 1
  {
  }

  lemma MiddleGood()
    ensures Good(MiddleTail()) && MiddleTail().count == 12
  {
    hide Solid, GoodSection, Good, Then, List, Wrapped, ContactCodec, EditCodec, Id, IdPairCodec, PinCodec,
      ReactionCodec, LateTail;
    LateGood();
    BasicsSolid();
    ContactSolid();
    EditSolid();
    IdPairSolid();
    PinSolid();
    ReactionSolid();
    SectionIsGood(PinCodec());
    ThenIsGood(List(PinCodec(), 1), LateTail());
    ThenCount(List(PinCodec(), 1), LateTail());
    var t5 := Then(List(PinCodec(), 1), LateTail());
    SectionIsGood(EditCodec());
    ThenIsGood(List(EditCodec(), 1), t5);
    ThenCount(List(EditCodec(), 1), t5);
    var t4 := Then(List(EditCodec(), 1), t5);
    SectionIsGood(Id());
    ThenIsGood(List(Id(), 1), t4);
    ThenCount(List(Id(), 1), t4);
    var t3 := Then(List(Id(), 1), t4);
    SectionIsGood(ContactCodec());
    ThenIsGood(List(ContactCodec(), 1), t3);
    ThenCount(List(ContactCodec(), 1), t3);
    var t2 := Then(List(ContactCodec(), 1), t3);
    SectionIsGood(IdPairCodec());
    ThenIsGood(List(IdPairCodec(), 1), t2);
    ThenCount(List(IdPairCodec(), 1), t2);
    var t1 := Then(List(IdPairCodec(), 1), t2);
    SectionIsGood(ReactionCodec());
    ThenIsGood(List(ReactionCodec(), 1), t1);
    ThenCount(List(ReactionCodec(), 1), t1);
    var t0 := Then(List(ReactionCodec(), 1), t1);
    MiddleInverse();
    WrappedIsGood(t0, WrapMiddle, UnwrapMiddle);
  }

  lemma MiddleInverse()
    ensures forall x: MiddleFields, v: Middle :: InverseAt(WrapMiddle, UnwrapMiddle, x, v)
  {
    forall x: MiddleFields, v: Middle ensures InverseAt(WrapMiddle, UnwrapMiddle, x, v) {
    }
  }

  lemma RowsGood()
    ensures Good(RowsTail()) && RowsTail().count == 18
  {
    hide Solid, GoodSection, Good, Then, List, Wrapped, AutokickCodec, Bytes, ChannelLineCodec, IdPairCodec,
      InviteUseCodec, RemovedCodec, MiddleTail;
    MiddleGood();
    AutokickSolid();
    BasicsSolid();
    ChannelLineSolid();
    IdPairSolid();
    InviteUseSolid();
    RemovedSolid();
    SectionIsGood(IdPairCodec());
    ThenIsGood(List(IdPairCodec(), 1), MiddleTail());
    ThenCount(List(IdPairCodec(), 1), MiddleTail());
    var t5 := Then(List(IdPairCodec(), 1), MiddleTail());
    SectionIsGood(Bytes());
    ThenIsGood(List(Bytes(), 1), t5);
    ThenCount(List(Bytes(), 1), t5);
    var t4 := Then(List(Bytes(), 1), t5);
    SectionIsGood(AutokickCodec());
    ThenIsGood(List(AutokickCodec(), 1), t4);
    ThenCount(List(AutokickCodec(), 1), t4);
    var t3 := Then(List(AutokickCodec(), 1), t4);
    SectionIsGood(RemovedCodec());
    ThenIsGood(List(RemovedCodec(), 1), t3);
    ThenCount(List(RemovedCodec(), 1), t3);
    var t2 := Then(List(RemovedCodec(), 1), t3);
    SectionIsGood(InviteUseCodec());
    ThenIsGood(List(InviteUseCodec(), 1), t2);
    ThenCount(List(InviteUseCodec(), 1), t2);
    var t1 := Then(List(InviteUseCodec(), 1), t2);
    SectionIsGood(ChannelLineCodec());
    ThenIsGood(List(ChannelLineCodec(), 1), t1);
    ThenCount(List(ChannelLineCodec(), 1), t1);
    var t0 := Then(List(ChannelLineCodec(), 1), t1);
    RowsInverse();
    WrappedIsGood(t0, WrapRows, UnwrapRows);
  }

  lemma RowsInverse()
    ensures forall x: RowsFields, v: Rows :: InverseAt(WrapRows, UnwrapRows, x, v)
  {
    forall x: RowsFields, v: Rows ensures InverseAt(WrapRows, UnwrapRows, x, v) {
    }
  }

  // ----- a state and what is written for it -----

  function NoId(): bytes { seq(16, _ => 0) }

  function NoMeta(): LineMeta { LineMeta(0, None, None) }

  function LinesOf(history: seq<HistoryEntry>): seq<HistoryLine> {
    seq(|history|, i requires 0 <= i < |history| => history[i].line)
  }

  function ChannelLinesOf(history: seq<ChannelHistoryEntry>): seq<ChannelLine> {
    seq(|history|, i requires 0 <= i < |history| => history[i].line)
  }

  function MetaOf(history: seq<ChannelHistoryEntry>): seq<LineMeta> {
    seq(|history|, i requires 0 <= i < |history| => history[i].meta)
  }

  function FrontOf(s: PersistedState): Front {
    Front(s.lastAnnounceMs, s.lastFetchSinceMs, s.prekeys, s.sessions, s.channels, s.hosted, LinesOf(s.history),
          s.seenEnvelopes)
  }

  function LateOf(s: PersistedState): Late {
    Late(s.dmMsgIds, s.dmEdits, s.serverBans, s.serverRegisterPow, s.groupCalls, MetaOf(s.channelHistory))
  }

  function MiddleOf(s: PersistedState): Middle {
    Middle(s.channelReactions, s.verifiedPeers, s.contacts, s.blocked, s.channelEdits, s.channelPins, LateOf(s))
  }

  function RowsOf(s: PersistedState): Rows {
    Rows(ChannelLinesOf(s.channelHistory), s.inviteUses, s.channelRemoved, s.serverAutokick, s.serverPolicies,
         s.serverJoinPw, MiddleOf(s))
  }

  function Encode(s: PersistedState): bytes {
    FrontCodec().enc(FrontOf(s)) + RowsTail().enc(RowsOf(s))
  }

  /** The message id that position `i` of the id section carries, or none. */
  function IdAt(ids: seq<bytes>, i: nat): bytes { if i < |ids| then ids[i] else NoId() }

  function WithIds(lines: seq<HistoryLine>, ids: seq<bytes>): seq<HistoryEntry> {
    seq(|lines|, i requires 0 <= i < |lines| => HistoryEntry(lines[i], IdAt(ids, i)))
  }

  function MetaAt(metas: seq<LineMeta>, i: nat): LineMeta { if i < |metas| then metas[i] else NoMeta() }

  /** Lines beyond the metadata keep the defaults, and metadata beyond the lines is dropped. */
  function WithMeta(lines: seq<ChannelLine>, metas: seq<LineMeta>): seq<ChannelHistoryEntry> {
    seq(|lines|, i requires 0 <= i < |lines| => ChannelHistoryEntry(lines[i], MetaAt(metas, i)))
  }

  function Assemble(f: Front, r: Rows, history: seq<HistoryEntry>, channelHistory: seq<ChannelHistoryEntry>)
    : PersistedState
  {
    var m, l := r.later, r.later.later;
    PersistedState(
      f.lastAnnounceMs, f.lastFetchSinceMs, f.prekeys, f.sessions, f.channels, f.hosted, history, f.seen,
      channelHistory, r.inviteUses, r.channelRemoved, r.serverAutokick, r.serverPolicies, r.serverJoinPw,
      m.channelReactions, m.verifiedPeers, m.contacts, m.blocked, m.channelEdits, m.channelPins,
      l.dmMsgIds, l.dmEdits, l.serverBans, l.serverRegisterPow, l.groupCalls)
  }

  function Rebuild(f: Front, r: Rows): PersistedState {
    var l := r.later.later;
    Assemble(f, r, WithIds(f.lines, l.dmMsgIds), WithMeta(r.channelLines, l.lineMeta))
  }

  function Decode(b: bytes): Decoded<PersistedState> {
    match Finish(WithTail(FrontCodec(), RowsTail(), b))
    case Err(e) => Err(e)
    case Ok(v) => Ok(Rebuild(v.0, v.1))
  }

  /** Field widths, valid text and countable lists: what the format can carry. */
  predicate Storable(s: PersistedState) {
    FrontCodec().fits(FrontOf(s)) && RowsTail().fits(RowsOf(s))
  }

  // ----- what comes back -----

  /** The state with the message ids that `dmMsgIds` gives to its history. */
  function Restored(s: PersistedState): PersistedState {
    s.(history := WithIds(LinesOf(s.history), s.dmMsgIds))
  }

  /** The id section matches the history, position by position. */
  predicate Aligned(s: PersistedState) {
    forall i :: 0 <= i < |s.history| ==> s.history[i].msgId == IdAt(s.dmMsgIds, i)
  }

  lemma RestoredIsSame(s: PersistedState)
    ensures Restored(s) == s <==> Aligned(s)
  {
    var h := Restored(s).history;
    if Aligned(s) {
      assert h == s.history;
    }
    if h == s.history {
      forall i | 0 <= i < |s.history| ensures s.history[i].msgId == IdAt(s.dmMsgIds, i) {
        assert h[i].msgId == s.history[i].msgId;
      }
    }
  }

  lemma MetaIsRestored(history: seq<ChannelHistoryEntry>)
    ensures WithMeta(ChannelLinesOf(history), MetaOf(history)) == history
  {
  }

  lemma RebuildOfWhole(s: PersistedState)
    ensures Rebuild(FrontOf(s), RowsOf(s)) == Restored(s)
  {
    MetaIsRestored(s.channelHistory);
  }

  /** A section is there if the payload goes on past it. */
  function After<A>(k: nat, section: nat, xs: seq<A>): seq<A> {
    if k > section then xs else []
  }

  /** The state as it was saved when only the first `k` sections existed. */
  function Truncated(s: PersistedState, k: nat): PersistedState {
    s.(history := WithIds(LinesOf(s.history), After(k, 12, s.dmMsgIds)),
       channelHistory := WithMeta(After(k, 0, ChannelLinesOf(s.channelHistory)),
                                  After(k, 17, MetaOf(s.channelHistory))),
       inviteUses := After(k, 1, s.inviteUses),
       channelRemoved := After(k, 2, s.channelRemoved),
       serverAutokick := After(k, 3, s.serverAutokick),
       serverPolicies := After(k, 4, s.serverPolicies),
       serverJoinPw := After(k, 5, s.serverJoinPw),
       channelReactions := After(k, 6, s.channelReactions),
       verifiedPeers := After(k, 7, s.verifiedPeers),
       contacts := After(k, 8, s.contacts),
       blocked := After(k, 9, s.blocked),
       channelEdits := After(k, 10, s.channelEdits),
       channelPins := After(k, 11, s.channelPins),
       dmMsgIds := After(k, 12, s.dmMsgIds),
       dmEdits := After(k, 13, s.dmEdits),
       serverBans := After(k, 14, s.serverBans),
       serverRegisterPow := After(k, 15, s.serverRegisterPow),
       groupCalls := After(k, 16, s.groupCalls))
  }

  function CutLate(r: Late, k: nat): Late {
    Late(After(k, 12, r.dmMsgIds), After(k, 13, r.dmEdits), After(k, 14, r.serverBans),
         After(k, 15, r.serverRegisterPow), After(k, 16, r.groupCalls), After(k, 17, r.lineMeta))
  }

  function CutMiddle(r: Middle, k: nat): Middle {
    Middle(After(k, 6, r.channelReactions), After(k, 7, r.verifiedPeers), After(k, 8, r.contacts),
           After(k, 9, r.blocked), After(k, 10, r.channelEdits), After(k, 11, r.channelPins),
           CutLate(r.later, k))
  }

  function CutRows(r: Rows, k: nat): Rows {
    Rows(After(k, 0, r.channelLines), After(k, 1, r.inviteUses), After(k, 2, r.channelRemoved),
         After(k, 3, r.serverAutokick), After(k, 4, r.serverPolicies), After(k, 5, r.serverJoinPw),
         CutMiddle(r.later, k))
  }

  lemma RebuildOfTruncated(s: PersistedState, k: nat)
    ensures Rebuild(FrontOf(s), CutRows(RowsOf(s), k)) == Truncated(s, k)
  {
    hide WithIds, WithMeta, LinesOf, ChannelLinesOf, MetaOf, After;
  }

  function Minus(k: nat, j: nat): nat { if k > j then k - j else 0 }

  lemma CutBy<A, T>(c: Codec<seq<A>>, t: Tail<T>, v: (seq<A>, T), k: nat, section: nat, rest: T)
    requires t.cut(v.1, Minus(k, section + 1)) == rest
    ensures Then(c, t).cut(v, Minus(k, section)) == (After(k, section, v.0), rest)
  {
    assert Less(Minus(k, section)) == Minus(k, section + 1);
    CutStep(c, t, v, Minus(k, section));
  }

  lemma LateAreCut(r: Late, k: nat)
    ensures LateTail().cut(r, Minus(k, 12)) == CutLate(r, k)
  {
    hide Then, Minus, After, List, Wrapped, BanCodec, CallCodec, DmEditCodec, MetaCodec, MsgIdCodec, PowCodec;
    var v5 := (r.lineMeta, ());
    CutBy(List(MetaCodec(), 1), End(), v5, k, 17, ());
    var t5, c5 := Then(List(MetaCodec(), 1), End()), (After(k, 17, r.lineMeta), ());
    var v4 := (r.groupCalls, v5);
    CutBy(List(CallCodec(), 1), t5, v4, k, 16, c5);
    var t4, c4 := Then(List(CallCodec(), 1), t5), (After(k, 16, r.groupCalls), c5);
    var v3 := (r.serverRegisterPow, v4);
    CutBy(List(PowCodec(), 1), t4, v3, k, 15, c4);
    var t3, c3 := Then(List(PowCodec(), 1), t4), (After(k, 15, r.serverRegisterPow), c4);
    var v2 := (r.serverBans, v3);
    CutBy(List(BanCodec(), 1), t3, v2, k, 14, c3);
    var t2, c2 := Then(List(BanCodec(), 1), t3), (After(k, 14, r.serverBans), c3);
    var v1 := (r.dmEdits, v2);
    CutBy(List(DmEditCodec(), 1), t2, v1, k, 13, c2);
    var t1, c1 := Then(List(DmEditCodec(), 1), t2), (After(k, 13, r.dmEdits), c2);
    var v0 := (r.dmMsgIds, v1);
    CutBy(List(MsgIdCodec(), 1), t1, v0, k, 12, c1);
    var t0, c0 := Then(List(MsgIdCodec(), 1), t1), (After(k, 12, r.dmMsgIds), c1);
    WrappedParts(LateSections(), WrapLate, UnwrapLate, r, Minus(k, 12), []);
  }

  lemma MiddleAreCut(r: Middle, k: nat)
    ensures MiddleTail().cut(r, Minus(k, 6)) == CutMiddle(r, k)
  {
    hide Then, Minus, After, List, Wrapped, ContactCodec, EditCodec, Id, IdPairCodec, PinCodec, ReactionCodec,
      LateTail, CutLate;
    LateAreCut(r.later, k);
    var v5 := (r.channelPins, r.later);
    CutBy(List(PinCodec(), 1), LateTail(), v5, k, 11, CutLate(r.later, k));
    var t5, c5 := Then(List(PinCodec(), 1), LateTail()), (After(k, 11, r.channelPins), CutLate(r.later, k));
    var v4 := (r.channelEdits, v5);
    CutBy(List(EditCodec(), 1), t5, v4, k, 10, c5);
    var t4, c4 := Then(List(EditCodec(), 1), t5), (After(k, 10, r.channelEdits), c5);
    var v3 := (r.blocked, v4);
    CutBy(List(Id(), 1), t4, v3, k, 9, c4);
    var t3, c3 := Then(List(Id(), 1), t4), (After(k, 9, r.blocked), c4);
    var v2 := (r.contacts, v3);
    CutBy(List(ContactCodec(), 1), t3, v2, k, 8, c3);
    var t2, c2 := Then(List(ContactCodec(), 1), t3), (After(k, 8, r.contacts), c3);
    var v1 := (r.verifiedPeers, v2);
    CutBy(List(IdPairCodec(), 1), t2, v1, k, 7, c2);
    var t1, c1 := Then(List(IdPairCodec(), 1), t2), (After(k, 7, r.verifiedPeers), c2);
    var v0 := (r.channelReactions, v1);
    CutBy(List(ReactionCodec(), 1), t1, v0, k, 6, c1);
    var t0, c0 := Then(List(ReactionCodec(), 1), t1), (After(k, 6, r.channelReactions), c1);
    WrappedParts(MiddleSections(), WrapMiddle, UnwrapMiddle, r, Minus(k, 6), []);
  }

  lemma RowsAreCut(r: Rows, k: nat)
    ensures RowsTail().cut(r, Minus(k, 0)) == CutRows(r, k)
  {
    hide Then, Minus, After, List, Wrapped, AutokickCodec, Bytes, ChannelLineCodec, IdPairCodec,
      InviteUseCodec, RemovedCodec, MiddleTail, CutMiddle;
    MiddleAreCut(r.later, k);
    var v5 := (r.serverJoinPw, r.later);
    CutBy(List(IdPairCodec(), 1), MiddleTail(), v5, k, 5, CutMiddle(r.later, k));
    var t5, c5 := Then(List(IdPairCodec(), 1), MiddleTail()), (After(k, 5, r.serverJoinPw), CutMiddle(r.later, k));
    var v4 := (r.serverPolicies, v5);
    CutBy(List(Bytes(), 1), t5, v4, k, 4, c5);
    var t4, c4 := Then(List(Bytes(), 1), t5), (After(k, 4, r.serverPolicies), c5);
    var v3 := (r.serverAutokick, v4);
    CutBy(List(AutokickCodec(), 1), t4, v3, k, 3, c4);
    var t3, c3 := Then(List(AutokickCodec(), 1), t4), (After(k, 3, r.serverAutokick), c4);
    var v2 := (r.channelRemoved, v3);
    CutBy(List(RemovedCodec(), 1), t3, v2, k, 2, c3);
    var t2, c2 := Then(List(RemovedCodec(), 1), t3), (After(k, 2, r.channelRemoved), c3);
    var v1 := (r.inviteUses, v2);
    CutBy(List(InviteUseCodec(), 1), t2, v1, k, 1, c2);
    var t1, c1 := Then(List(InviteUseCodec(), 1), t2), (After(k, 1, r.inviteUses), c2);
    var v0 := (r.channelLines, v1);
    CutBy(List(ChannelLineCodec(), 1), t1, v0, k, 0, c1);
    var t0, c0 := Then(List(ChannelLineCodec(), 1), t1), (After(k, 0, r.channelLines), c1);
    WrappedParts(RowsSections(), WrapRows, UnwrapRows, r, Minus(k, 0), []);
  }

  /**
   A saved state decodes to itself with the message ids that its id section gives to
   its history, and so to itself exactly when the two are aligned.
   */
  lemma SavedStatesLoad(s: PersistedState)
    requires Storable(s)
    ensures Decode(Encode(s)) == Ok(Restored(s))
    ensures Decode(Encode(s)) == Ok(s) <==> Aligned(s)
  {
    hide Good, FrontCodec, RowsTail, Rebuild, Restored, FrontOf, RowsOf, WithTail, Aligned;
    RowsGood();
    FrontIsLawful();
    WholeTail(RowsTail(), RowsOf(s));
    BoundaryLoads(FrontCodec(), RowsTail(), FrontOf(s), RowsOf(s), 18);
    RebuildOfWhole(s);
    RestoredIsSame(s);
  }

  lemma FrontIsLawful()
    ensures Lawful(FrontCodec())
  {
    hide FrontCodec, RoundTrips, Extends, AtLeast, SoundFor;
    FrontIsFirm();
  }

  lemma WholeTail<T(!new)>(t: Tail<T>, v: T)
    requires Good(t)
    ensures t.enc(v) == t.upto(v, t.count) && t.cut(v, t.count) == v
  {
    assert WholeAt(t, v);
  }

  /** The bytes of a state up to the end of its first `k` sections. */
  function Boundary(s: PersistedState, k: nat): bytes {
    FrontCodec().enc(FrontOf(s)) + RowsTail().upto(RowsOf(s), k)
  }

  /**
   A prefix of a saved state loads exactly when it ends where some number of sections
   end, from the end of the mandatory part on.
   */
  lemma PrefixLoadsAtBoundariesOnly(s: PersistedState, p: bytes)
    requires Storable(s) && p <= Encode(s)
    ensures Decode(p).Ok? <==> exists k: nat :: k <= 18 && p == Boundary(s, k)
  {
    hide Good, FrontCodec, RowsTail, Rebuild, FrontOf, RowsOf, WithTail;
    RowsGood();
    FrontIsLawful();
    PrefixesThatLoad(FrontCodec(), RowsTail(), FrontOf(s), RowsOf(s), p);
    if Decode(p).Ok? {
      var k: nat :| k <= 18 && p == FrontCodec().enc(FrontOf(s)) + RowsTail().upto(RowsOf(s), k);
      assert p == Boundary(s, k);
    }
    if k: nat :| k <= 18 && p == Boundary(s, k) {
      assert p == FrontCodec().enc(FrontOf(s)) + RowsTail().upto(RowsOf(s), k);
    }
  }

  /** Such a prefix loads as the state whose later sections have their defaults. */
  lemma BoundaryLoadsTruncated(s: PersistedState, k: nat)
    requires Storable(s) && k <= 18
    ensures Decode(Boundary(s, k)) == Ok(Truncated(s, k))
  {
    hide Good, FrontCodec, RowsTail, Rebuild, FrontOf, RowsOf, WithTail, Truncated, CutRows;
    RowsGood();
    FrontIsLawful();
    BoundaryLoads(FrontCodec(), RowsTail(), FrontOf(s), RowsOf(s), k);
    RowsAreCut(RowsOf(s), k);
    assert Minus(k, 0) == k;
    RebuildOfTruncated(s, k);
  }

  /** A payload with anything after the last section is refused. */
  lemma NothingFollows(s: PersistedState, more: bytes)
    requires Storable(s) && more != []
    ensures Decode(Encode(s) + more) == Err(Trailing(|more|))
  {
    hide Good, FrontCodec, RowsTail, Rebuild, FrontOf, RowsOf, WithTail;
    RowsGood();
    FrontIsLawful();
    NothingMayFollow(FrontCodec(), RowsTail(), FrontOf(s), RowsOf(s), more);
  }

  // ----- loading, saving and loading again -----

  /** Whatever loads has its message ids in line with its id section. */
  lemma LoadedStatesAreAligned(b: bytes)
    ensures Decode(b).Ok? ==> Aligned(Decode(b).value)
  {
    hide FrontCodec, RowsTail, WithTail;
  }

  predicate LateRowsFit(r: Late) {
    && List(MsgIdCodec(), 1).fits(r.dmMsgIds)
    && List(DmEditCodec(), 1).fits(r.dmEdits)
    && List(BanCodec(), 1).fits(r.serverBans)
    && List(PowCodec(), 1).fits(r.serverRegisterPow)
    && List(CallCodec(), 1).fits(r.groupCalls)
    && List(MetaCodec(), 1).fits(r.lineMeta)
  }

  lemma LateFit(r: Late)
    ensures LateTail().fits(r) <==> LateRowsFit(r)
  {
    hide Then, List, Wrapped, BanCodec, CallCodec, DmEditCodec, MetaCodec, MsgIdCodec, PowCodec;
    var v5 := (r.lineMeta, ());
    FitsStep(List(MetaCodec(), 1), End(), v5);
    var t5 := Then(List(MetaCodec(), 1), End());
    var v4 := (r.groupCalls, v5);
    FitsStep(List(CallCodec(), 1), t5, v4);
    var t4 := Then(List(CallCodec(), 1), t5);
    var v3 := (r.serverRegisterPow, v4);
    FitsStep(List(PowCodec(), 1), t4, v3);
    var t3 := Then(List(PowCodec(), 1), t4);
    var v2 := (r.serverBans, v3);
    FitsStep(List(BanCodec(), 1), t3, v2);
    var t2 := Then(List(BanCodec(), 1), t3);
    var v1 := (r.dmEdits, v2);
    FitsStep(List(DmEditCodec(), 1), t2, v1);
    var t1 := Then(List(DmEditCodec(), 1), t2);
    var v0 := (r.dmMsgIds, v1);
    FitsStep(List(MsgIdCodec(), 1), t1, v0);
    var t0 := Then(List(MsgIdCodec(), 1), t1);
    assert End().fits(()) by { EndFits(); }
    WrappedParts(LateSections(), WrapLate, UnwrapLate, r, 0, []);
  }

  lemma EndFits()
    ensures End().fits(())
  {
  }

  predicate MiddleRowsFit(r: Middle) {
    && List(ReactionCodec(), 1).fits(r.channelReactions)
    && List(IdPairCodec(), 1).fits(r.verifiedPeers)
    && List(ContactCodec(), 1).fits(r.contacts)
    && List(Id(), 1).fits(r.blocked)
    && List(EditCodec(), 1).fits(r.channelEdits)
    && List(PinCodec(), 1).fits(r.channelPins)
    && LateTail().fits(r.later)
  }

  lemma MiddleFit(r: Middle)
    ensures MiddleTail().fits(r) <==> MiddleRowsFit(r)
  {
    hide Then, List, Wrapped, ContactCodec, EditCodec, Id, IdPairCodec, PinCodec, ReactionCodec, LateTail;
    var v5 := (r.channelPins, r.later);
    FitsStep(List(PinCodec(), 1), LateTail(), v5);
    var t5 := Then(List(PinCodec(), 1), LateTail());
    var v4 := (r.channelEdits, v5);
    FitsStep(List(EditCodec(), 1), t5, v4);
    var t4 := Then(List(EditCodec(), 1), t5);
    var v3 := (r.blocked, v4);
    FitsStep(List(Id(), 1), t4, v3);
    var t3 := Then(List(Id(), 1), t4);
    var v2 := (r.contacts, v3);
    FitsStep(List(ContactCodec(), 1), t3, v2);
    var t2 := Then(List(ContactCodec(), 1), t3);
    var v1 := (r.verifiedPeers, v2);
    FitsStep(List(IdPairCodec(), 1), t2, v1);
    var t1 := Then(List(IdPairCodec(), 1), t2);
    var v0 := (r.channelReactions, v1);
    FitsStep(List(ReactionCodec(), 1), t1, v0);
    var t0 := Then(List(ReactionCodec(), 1), t1);
    WrappedParts(MiddleSections(), WrapMiddle, UnwrapMiddle, r, 0, []);
  }

  predicate RowsRowsFit(r: Rows) {
    && List(ChannelLineCodec(), 1).fits(r.channelLines)
    && List(InviteUseCodec(), 1).fits(r.inviteUses)
    && List(RemovedCodec(), 1).fits(r.channelRemoved)
    && List(AutokickCodec(), 1).fits(r.serverAutokick)
    && List(Bytes(), 1).fits(r.serverPolicies)
    && List(IdPairCodec(), 1).fits(r.serverJoinPw)
    && MiddleTail().fits(r.later)
  }

  lemma RowsFit(r: Rows)
    ensures RowsTail().fits(r) <==> RowsRowsFit(r)
  {
    hide Then, List, Wrapped, AutokickCodec, Bytes, ChannelLineCodec, IdPairCodec, InviteUseCodec,
      RemovedCodec, MiddleTail;
    var v5 := (r.serverJoinPw, r.later);
    FitsStep(List(IdPairCodec(), 1), MiddleTail(), v5);
    var t5 := Then(List(IdPairCodec(), 1), MiddleTail());
    var v4 := (r.serverPolicies, v5);
    FitsStep(List(Bytes(), 1), t5, v4);
    var t4 := Then(List(Bytes(), 1), t5);
    var v3 := (r.serverAutokick, v4);
    FitsStep(List(AutokickCodec(), 1), t4, v3);
    var t3 := Then(List(AutokickCodec(), 1), t4);
    var v2 := (r.channelRemoved, v3);
    FitsStep(List(RemovedCodec(), 1), t3, v2);
    var t2 := Then(List(RemovedCodec(), 1), t3);
    var v1 := (r.inviteUses, v2);
    FitsStep(List(InviteUseCodec(), 1), t2, v1);
    var t1 := Then(List(InviteUseCodec(), 1), t2);
    var v0 := (r.channelLines, v1);
    FitsStep(List(ChannelLineCodec(), 1), t1, v0);
    var t0 := Then(List(ChannelLineCodec(), 1), t1);
    WrappedParts(RowsSections(), WrapRows, UnwrapRows, r, 0, []);
  }

  /** Metadata that was read, cut or filled up with defaults to the number of lines, can be written. */
  lemma MetaFits(lines: seq<ChannelLine>, metas: seq<LineMeta>)
    requires List(ChannelLineCodec(), 1).fits(lines) && List(MetaCodec(), 1).fits(metas)
    ensures List(MetaCodec(), 1).fits(MetaOf(WithMeta(lines, metas)))
  {
    hide List, ChannelLineCodec, MetaCodec, Pow256;
    var all := MetaOf(WithMeta(lines, metas));
    ListFits(ChannelLineCodec(), 1, lines);
    ListFits(MetaCodec(), 1, metas);
    ListFits(MetaCodec(), 1, all);
    NoMetaFits();
    forall i | 0 <= i < |all| ensures MetaCodec().fits(all[i]) {
      assert all[i] == MetaAt(metas, i);
    }
  }

  lemma NoMetaFits()
    ensures MetaCodec().fits(NoMeta())
  {
    assert Pow256(8) > 0;
  }

  /** The rows of a rebuilt state are those read, with the metadata brought to the number of lines. */
  lemma RebuiltFits(f: Front, r: Rows)
    requires RowsTail().fits(r)
    ensures FrontOf(Rebuild(f, r)) == f && RowsTail().fits(RowsOf(Rebuild(f, r)))
  {
    hide RowsTail, MiddleTail, LateTail, List, WithIds, WithMeta, LinesOf, ChannelLinesOf, MetaOf;
    var l := r.later.later;
    LinesAreKept(f.lines, l.dmMsgIds, r.channelLines, l.lineMeta);
    RowsFit(r);
    MiddleFit(r.later);
    LateFit(l);
    var metas := MetaOf(WithMeta(r.channelLines, l.lineMeta));
    MetaFits(r.channelLines, l.lineMeta);
    var late := l.(lineMeta := metas);
    var middle := r.later.(later := late);
    assert RowsOf(Rebuild(f, r)) == r.(later := middle);
    LateFit(late);
    MiddleFit(middle);
    RowsFit(r.(later := middle));
  }

  lemma LinesAreKept(lines: seq<HistoryLine>, ids: seq<bytes>, channelLines: seq<ChannelLine>, metas: seq<LineMeta>)
    ensures LinesOf(WithIds(lines, ids)) == lines && ChannelLinesOf(WithMeta(channelLines, metas)) == channelLines
  {
  }

  /** Rows that are read fit, and the front does if the payload is short or its records have room. */
  lemma WholeFits(b: bytes)
    requires Finish(WithTail(FrontCodec(), RowsTail(), b)).Ok?
    ensures var v := Finish(WithTail(FrontCodec(), RowsTail(), b)).value;
      RowsTail().fits(v.1) && (|b| < Pow256(4) || RecordsFrame(v.0.channels) ==> FrontCodec().fits(v.0))
  {
    hide Pow256, FrontCodec, RowsTail, Firm, Whole, Loads, Stops, Passes, RecordsFrame;
    FrontIsFirm();
    RowsGood();
    assert SoundForAt(FrontCodec(), (f: Front) => RecordsFrame(f.channels), b);
    assert FitsAt(RowsTail(), FrontCodec().dec(b).rest);
  }

  /**
   Whatever loads can be saved again exactly if every channel record has room for its
   flag, which it has in any payload below 4 GiB, and then loads as itself: loading
   repairs alignment, metadata and missing flags.
   */
  lemma LoadedStatesReload(b: bytes)
    requires Decode(b).Ok?
    ensures var s := Decode(b).value;
      && Aligned(s) && (Storable(s) <==> RecordsFrame(s.channels))
      && (|b| < Pow256(4) ==> RecordsFrame(s.channels))
      && (Storable(s) ==> Decode(Encode(s)) == Ok(s))
  {
    hide Good, FrontCodec, RowsTail, FrontOf, RowsOf, Aligned, Encode, Pow256, RecordsFrame, WithTail;
    var v := Finish(WithTail(FrontCodec(), RowsTail(), b)).value;
    var s := Decode(b).value;
    WholeFits(b);
    RebuiltFits(v.0, v.1);
    LoadedStatesAreAligned(b);
    if FrontCodec().fits(v.0) {
      FittingRecordsFrame(v.0);
    }
    if Storable(s) {
      SavedStatesLoad(s);
    }
  }

  // ----- the writer -----

  lemma PairStep<A, B>(a: Codec<A>, b: Codec<B>, buf: bytes, x: A, y: B)
    ensures buf + a.enc(x) + b.enc(y) == buf + Pair(a, b).enc((x, y))
  {
    assert Pair(a, b).enc((x, y)) == a.enc(x) + b.enc(y);
  }

  method WriteLists(f: Front, buf: bytes) returns (out: bytes)
    ensures out == buf + ListsCodec().enc((f.channels, (f.hosted, (f.lines, f.seen))))
  {
    hide Pair, List, ChannelCodec, HostedCodec, HistoryLineCodec, Id;
    PairStep(List(ChannelCodec(), 1), PlainLists(), buf, f.channels, (f.hosted, (f.lines, f.seen)));
    out := WriteList(ChannelCodec(), 1, f.channels, buf);
    PairStep(List(HostedCodec(), 1), Pair(List(HistoryLineCodec(), 1), List(Id(), 1)), out, f.hosted,
             (f.lines, f.seen));
    out := WriteList(HostedCodec(), 1, f.hosted, out);
    PairStep(List(HistoryLineCodec(), 1), List(Id(), 1), out, f.lines, f.seen);
    out := WriteList(HistoryLineCodec(), 1, f.lines, out);
    out := WriteList(Id(), 1, f.seen, out);
  }

  method WriteFront(f: Front) returns (out: bytes)
    ensures out == FrontCodec().enc(f)
  {
    hide Pair, List, UInt, Framed, PreKeyCodec, SessionEntry, ListsCodec;
    ghost var lists := (f.channels, (f.hosted, (f.lines, f.seen)));
    ghost var p1 := Pair(List(SessionEntry(), 1), ListsCodec());
    ghost var p2 := Pair(Framed(PreKeyCodec()), p1);
    ghost var x1 := (f.sessions, lists);
    ghost var x2 := (f.prekeys, x1);
    PairStep(UInt(8), Pair(UInt(8), p2), [], f.lastAnnounceMs, (f.lastFetchSinceMs, x2));
    out := [] + UInt(8).enc(f.lastAnnounceMs);
    PairStep(UInt(8), p2, out, f.lastFetchSinceMs, x2);
    out := out + UInt(8).enc(f.lastFetchSinceMs);
    PairStep(Framed(PreKeyCodec()), p1, out, f.prekeys, x1);
    out := out + Framed(PreKeyCodec()).enc(f.prekeys);
    PairStep(List(SessionEntry(), 1), ListsCodec(), out, f.sessions, lists);
    out := WriteList(SessionEntry(), 1, f.sessions, out);
    out := WriteLists(f, out);
    assert [] + FrontCodec().enc(f) == FrontCodec().enc(f);
  }

  method WriteLate(r: Late, buf: bytes) returns (out: bytes)
    ensures out == buf + LateTail().enc(r)
  {
    hide Then, List, Wrapped, BanCodec, CallCodec, DmEditCodec, MetaCodec, MsgIdCodec, PowCodec;
    ghost var t5, v5 := Then(List(MetaCodec(), 1), End()), (r.lineMeta, ());
    ghost var t4, v4 := Then(List(CallCodec(), 1), t5), (r.groupCalls, v5);
    ghost var t3, v3 := Then(List(PowCodec(), 1), t4), (r.serverRegisterPow, v4);
    ghost var t2, v2 := Then(List(BanCodec(), 1), t3), (r.serverBans, v3);
    ghost var t1, v1 := Then(List(DmEditCodec(), 1), t2), (r.dmEdits, v2);
    ghost var t0, v0 := Then(List(MsgIdCodec(), 1), t1), (r.dmMsgIds, v1);
    WrappedParts(LateSections(), WrapLate, UnwrapLate, r, 0, []);
    out := buf;
    out := WriteSection(MsgIdCodec(), r.dmMsgIds, out, t1, v1);
    out := WriteSection(DmEditCodec(), r.dmEdits, out, t2, v2);
    out := WriteSection(BanCodec(), r.serverBans, out, t3, v3);
    out := WriteSection(PowCodec(), r.serverRegisterPow, out, t4, v4);
    out := WriteSection(CallCodec(), r.groupCalls, out, t5, v5);
    out := WriteSection(MetaCodec(), r.lineMeta, out, End(), ());
    NothingAfter(out);
  }

  lemma NothingAfter(b: bytes)
    ensures b + End().enc(()) == b
  {
  }

  method WriteMiddle(r: Middle, buf: bytes) returns (out: bytes)
    ensures out == buf + MiddleTail().enc(r)
  {
    hide Then, List, Wrapped, ContactCodec, EditCodec, Id, IdPairCodec, PinCodec, ReactionCodec, LateTail;
    ghost var t5, v5 := Then(List(PinCodec(), 1), LateTail()), (r.channelPins, r.later);
    ghost var t4, v4 := Then(List(EditCodec(), 1), t5), (r.channelEdits, v5);
    ghost var t3, v3 := Then(List(Id(), 1), t4), (r.blocked, v4);
    ghost var t2, v2 := Then(List(ContactCodec(), 1), t3), (r.contacts, v3);
    ghost var t1, v1 := Then(List(IdPairCodec(), 1), t2), (r.verifiedPeers, v2);
    ghost var t0, v0 := Then(List(ReactionCodec(), 1), t1), (r.channelReactions, v1);
    WrappedParts(MiddleSections(), WrapMiddle, UnwrapMiddle, r, 0, []);
    out := buf;
    out := WriteSection(ReactionCodec(), r.channelReactions, out, t1, v1);
    out := WriteSection(IdPairCodec(), r.verifiedPeers, out, t2, v2);
    out := WriteSection(ContactCodec(), r.contacts, out, t3, v3);
    out := WriteSection(Id(), r.blocked, out, t4, v4);
    out := WriteSection(EditCodec(), r.channelEdits, out, t5, v5);
    out := WriteSection(PinCodec(), r.channelPins, out, LateTail(), r.later);
    out := WriteLate(r.later, out);
  }

  method WriteRows(r: Rows, buf: bytes) returns (out: bytes)
    ensures out == buf + RowsTail().enc(r)
  {
    hide Then, List, Wrapped, AutokickCodec, Bytes, ChannelLineCodec, IdPairCodec, InviteUseCodec,
      RemovedCodec, MiddleTail;
    ghost var t5, v5 := Then(List(IdPairCodec(), 1), MiddleTail()), (r.serverJoinPw, r.later);
    ghost var t4, v4 := Then(List(Bytes(), 1), t5), (r.serverPolicies, v5);
    ghost var t3, v3 := Then(List(AutokickCodec(), 1), t4), (r.serverAutokick, v4);
    ghost var t2, v2 := Then(List(RemovedCodec(), 1), t3), (r.channelRemoved, v3);
    ghost var t1, v1 := Then(List(InviteUseCodec(), 1), t2), (r.inviteUses, v2);
    ghost var t0, v0 := Then(List(ChannelLineCodec(), 1), t1), (r.channelLines, v1);
    WrappedParts(RowsSections(), WrapRows, UnwrapRows, r, 0, []);
    out := buf;
    out := WriteSection(ChannelLineCodec(), r.channelLines, out, t1, v1);
    out := WriteSection(InviteUseCodec(), r.inviteUses, out, t2, v2);
    out := WriteSection(RemovedCodec(), r.channelRemoved, out, t3, v3);
    out := WriteSection(AutokickCodec(), r.serverAutokick, out, t4, v4);
    out := WriteSection(Bytes(), r.serverPolicies, out, t5, v5);
    out := WriteSection(IdPairCodec(), r.serverJoinPw, out, MiddleTail(), r.later);
    out := WriteMiddle(r.later, out);
  }

  /** The writer: the mandatory part, then the sections in order of introduction. */
  method EncodeState(s: PersistedState) returns (out: bytes)
    ensures out == Encode(s)
  {
    hide FrontCodec, RowsTail;
    out := WriteFront(FrontOf(s));
    out := WriteRows(RowsOf(s), out);
  }

  // ----- the reader -----

  method ReadLists(b: bytes) returns (r: Parse<ListFields>)
    ensures r == ListsCodec().dec(b)
  {
    hide List, ChannelCodec, HostedCodec, HistoryLineCodec, Id;
    var channels := ReadList(ChannelCodec(), 1, b);
    if channels.Fail? {
      return Fail(channels.error);
    }
    var hosted := ReadList(HostedCodec(), 1, channels.rest);
    if hosted.Fail? {
      return Fail(hosted.error);
    }
    var history := ReadList(HistoryLineCodec(), 1, hosted.rest);
    if history.Fail? {
      return Fail(history.error);
    }
    var seen := ReadList(Id(), 1, history.rest);
    if seen.Fail? {
      return Fail(seen.error);
    }
    r := Done((channels.value, (hosted.value, (history.value, seen.value))), seen.rest);
  }

  method ReadFields(b: bytes) returns (r: Parse<FrontFields>)
    ensures r == FrontParts().dec(b)
  {
    hide List, UInt, Framed, PreKeyCodec, SessionEntry, ListsCodec;
    var announced := UInt(8).dec(b);
    if announced.Fail? {
      return Fail(announced.error);
    }
    var fetched := UInt(8).dec(announced.rest);
    if fetched.Fail? {
      return Fail(fetched.error);
    }
    var prekeys := Framed(PreKeyCodec()).dec(fetched.rest);
    if prekeys.Fail? {
      return Fail(prekeys.error);
    }
    var sessions := ReadList(SessionEntry(), 1, prekeys.rest);
    if sessions.Fail? {
      return Fail(sessions.error);
    }
    var lists := ReadLists(sessions.rest);
    if lists.Fail? {
      return Fail(lists.error);
    }
    r := Done((announced.value, (fetched.value, (prekeys.value, (sessions.value, lists.value)))), lists.rest);
  }

  method ReadFront(b: bytes) returns (r: Parse<Front>)
    ensures r == FrontCodec().dec(b)
  {
    hide FrontParts;
    var fields := ReadFields(b);
    if fields.Fail? {
      return Fail(fields.error);
    }
    r := Done(Wrap(fields.value), fields.rest);
  }

  method ReadLateLastThree(b: bytes)
    returns (r: Parse<(seq<StoredServerPow>, (seq<StoredGroupCall>, (seq<LineMeta>, ())))>)
    ensures r == LateLastThree().dec(b)
  {
    hide List, Optional, CallCodec, MetaCodec, PowCodec;
    var serverRegisterPow := ReadSection(PowCodec(), b);
    if serverRegisterPow.Fail? {
      return Fail(serverRegisterPow.error);
    }
    var groupCalls := ReadSection(CallCodec(), serverRegisterPow.rest);
    if groupCalls.Fail? {
      return Fail(groupCalls.error);
    }
    var lineMeta := ReadSection(MetaCodec(), groupCalls.rest);
    if lineMeta.Fail? {
      return Fail(lineMeta.error);
    }
    r := Done((serverRegisterPow.value, (groupCalls.value, (lineMeta.value, ()))), lineMeta.rest);
  }

  method ReadLate(b: bytes) returns (r: Parse<Late>)
    ensures r == LateTail().dec(b)
  {
    hide List, Optional, BanCodec, DmEditCodec, MsgIdCodec, LateLastThree;
    var dmMsgIds := ReadSection(MsgIdCodec(), b);
    if dmMsgIds.Fail? {
      return Fail(dmMsgIds.error);
    }
    var dmEdits := ReadSection(DmEditCodec(), dmMsgIds.rest);
    if dmEdits.Fail? {
      return Fail(dmEdits.error);
    }
    var serverBans := ReadSection(BanCodec(), dmEdits.rest);
    if serverBans.Fail? {
      return Fail(serverBans.error);
    }
    var rest := ReadLateLastThree(serverBans.rest);
    if rest.Fail? {
      return Fail(rest.error);
    }
    r := Done(WrapLate((dmMsgIds.value, (dmEdits.value, (serverBans.value, rest.value)))), rest.rest);
  }

  method ReadMiddleLastThree(b: bytes)
    returns (r: Parse<(seq<bytes>, (seq<StoredEdit>, (seq<StoredPin>, Late)))>)
    ensures r == MiddleLastThree().dec(b)
  {
    hide List, Optional, EditCodec, Id, PinCodec, LateTail;
    var blocked := ReadSection(Id(), b);
    if blocked.Fail? {
      return Fail(blocked.error);
    }
    var channelEdits := ReadSection(EditCodec(), blocked.rest);
    if channelEdits.Fail? {
      return Fail(channelEdits.error);
    }
    var channelPins := ReadSection(PinCodec(), channelEdits.rest);
    if channelPins.Fail? {
      return Fail(channelPins.error);
    }
    var later := ReadLate(channelPins.rest);
    if later.Fail? {
      return Fail(later.error);
    }
    r := Done((blocked.value, (channelEdits.value, (channelPins.value, later.value))), later.rest);
  }

  method ReadMiddle(b: bytes) returns (r: Parse<Middle>)
    ensures r == MiddleTail().dec(b)
  {
    hide List, Optional, ContactCodec, IdPairCodec, ReactionCodec, MiddleLastThree;
    var channelReactions := ReadSection(ReactionCodec(), b);
    if channelReactions.Fail? {
      return Fail(channelReactions.error);
    }
    var verifiedPeers := ReadSection(IdPairCodec(), channelReactions.rest);
    if verifiedPeers.Fail? {
      return Fail(verifiedPeers.error);
    }
    var contacts := ReadSection(ContactCodec(), verifiedPeers.rest);
    if contacts.Fail? {
      return Fail(contacts.error);
    }
    var rest := ReadMiddleLastThree(contacts.rest);
    if rest.Fail? {
      return Fail(rest.error);
    }
    r := Done(WrapMiddle((channelReactions.value, (verifiedPeers.value, (contacts.value, rest.value)))), rest.rest);
  }

  method ReadRowsLastThree(b: bytes)
    returns (r: Parse<(seq<(bytes, nat)>, (seq<bytes>, (seq<(bytes, bytes)>, Middle)))>)
    ensures r == RowsLastThree().dec(b)
  {
    hide List, Optional, AutokickCodec, Bytes, IdPairCodec, MiddleTail;
    var serverAutokick := ReadSection(AutokickCodec(), b);
    if serverAutokick.Fail? {
      return Fail(serverAutokick.error);
    }
    var serverPolicies := ReadSection(Bytes(), serverAutokick.rest);
    if serverPolicies.Fail? {
      return Fail(serverPolicies.error);
    }
    var serverJoinPw := ReadSection(IdPairCodec(), serverPolicies.rest);
    if serverJoinPw.Fail? {
      return Fail(serverJoinPw.error);
    }
    var later := ReadMiddle(serverJoinPw.rest);
    if later.Fail? {
      return Fail(later.error);
    }
    r := Done((serverAutokick.value, (serverPolicies.value, (serverJoinPw.value, later.value))), later.rest);
  }

  method ReadRows(b: bytes) returns (r: Parse<Rows>)
    ensures r == RowsTail().dec(b)
  {
    hide List, Optional, ChannelLineCodec, InviteUseCodec, RemovedCodec, RowsLastThree;
    var channelLines := ReadSection(ChannelLineCodec(), b);
    if channelLines.Fail? {
      return Fail(channelLines.error);
    }
    var inviteUses := ReadSection(InviteUseCodec(), channelLines.rest);
    if inviteUses.Fail? {
      return Fail(inviteUses.error);
    }
    var channelRemoved := ReadSection(RemovedCodec(), inviteUses.rest);
    if channelRemoved.Fail? {
      return Fail(channelRemoved.error);
    }
    var rest := ReadRowsLastThree(channelRemoved.rest);
    if rest.Fail? {
      return Fail(rest.error);
    }
    r := Done(WrapRows((channelLines.value, (inviteUses.value, (channelRemoved.value, rest.value)))), rest.rest);
  }

  /** Writes the message ids onto the entries they are aligned with; entries beyond them are left alone. */
  method RestoreIds(history: array<HistoryEntry>, ids: seq<bytes>)
    modifies history
    ensures forall i :: 0 <= i < history.Length ==>
              history[i] == (if i < |ids| then old(history[i]).(msgId := ids[i]) else old(history[i]))
  {
    var n := if history.Length < |ids| then history.Length else |ids|;
    for i := 0 to n
      invariant forall j :: 0 <= j < i ==> history[j] == old(history[j]).(msgId := ids[j])
      invariant forall j :: i <= j < history.Length ==> history[j] == old(history[j])
    {
      history[i] := history[i].(msgId := ids[i]);
    }
  }

  /** Writes metadata onto the lines it is aligned with; metadata without a line is dropped. */
  method RestoreMeta(history: array<ChannelHistoryEntry>, metas: seq<LineMeta>)
    modifies history
    ensures forall i :: 0 <= i < history.Length ==>
              history[i] == (if i < |metas| then old(history[i]).(meta := metas[i]) else old(history[i]))
  {
    for i := 0 to |metas|
      invariant forall j :: 0 <= j < history.Length ==>
                  history[j] == (if j < i then old(history[j]).(meta := metas[j]) else old(history[j]))
    {
      if i < history.Length {
        history[i] := history[i].(meta := metas[i]);
      }
    }
  }

  /** Rebuilds the entries: defaults first, then the aligned sections on top, in place. */
  method Patch(lines: seq<HistoryLine>, ids: seq<bytes>, channelLines: seq<ChannelLine>, metas: seq<LineMeta>)
    returns (history: seq<HistoryEntry>, channelHistory: seq<ChannelHistoryEntry>)
    ensures history == WithIds(lines, ids) && channelHistory == WithMeta(channelLines, metas)
  {
    var h := new HistoryEntry[|lines|](i requires 0 <= i < |lines| => HistoryEntry(lines[i], NoId()));
    var c := new ChannelHistoryEntry[|channelLines|](i requires 0 <= i < |channelLines| =>
      ChannelHistoryEntry(channelLines[i], NoMeta()));
    RestoreMeta(c, metas);
    RestoreIds(h, ids);
    history, channelHistory := h[..], c[..];
  }

  /** The reader: the mandatory part, sections while bytes remain, then the aligned halves. */
  method DecodeState(b: bytes) returns (r: Decoded<PersistedState>)
    ensures r == Decode(b)
  {
    hide FrontCodec, RowsTail, WithIds, WithMeta;
    var front := ReadFront(b);
    if front.Fail? {
      return Err(front.error);
    }
    var rows := ReadRows(front.rest);
    if rows.Fail? {
      return Err(rows.error);
    }
    var f, v := front.value, rows.value;
    var late := v.later.later;
    var history, channelHistory := Patch(f.lines, late.dmMsgIds, v.channelLines, late.lineMeta);
    if rows.rest != [] {
      return Err(Trailing(|rows.rest|));
    }
    r := Ok(Assemble(f, v, history, channelHistory));
  }
}
