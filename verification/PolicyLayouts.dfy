/**
 The signed policy byte by byte, and every input that is read as a given policy: the icon
 flag may be set without need, and empty lists may be written out at the end.
 */
module PolicyLayouts {
  import opened Common
  import opened Wire
  import opened Flat
  import opened Packets
  import opened Policy

  // ----- the bytes -----

  function RoleEntry(r: Role, icons: bool): bytes {
    U16(r.id) + (Sized(r.name) + (U32(r.allow) + (U32(r.deny) + (U16(r.rank) +
      if icons then PerhapsSized(r.icon) else []))))
  }

  function RoleWriter(icons: bool): Role -> bytes { (r: Role) => RoleEntry(r, icons) }

  function AssignmentEntry(a: (bytes, seq<nat>)): bytes { a.0 + Counted(a.1, U16) }

  function NamedEntry(e: (bytes, bytes)): bytes { Sized(e.0) + e.1 }

  function NicknameEntry(e: (bytes, bytes)): bytes { e.0 + Sized(e.1) }

  /** Everything up to the optional lists; the top bit of the role count says whether entries carry icons. */
  function FrontBytes(p: ServerPolicy, icons: bool): bytes {
    (p.serverRoot + (p.ownerId + (U64(p.version) + U64(p.issuedMs)))) +
    ((U32(|p.roles| + if icons then 0x8000_0000 else 0) + Each(p.roles, RoleWriter(icons))) +
      Counted(p.assignments, AssignmentEntry))
  }

  /** The first `lists` of the optional lists: emojis, stickers, sounds and nicknames. */
  function TailBytes(p: ServerPolicy, lists: nat): bytes {
    (if lists >= 1 then Counted(p.emojis, NamedEntry) else []) +
    ((if lists >= 2 then Counted(p.stickers, NamedEntry) else []) +
      ((if lists >= 3 then Counted(p.sounds, NamedEntry) else []) +
        (if lists >= 4 then Counted(p.nicknames, NicknameEntry) else [])))
  }

  function BodyBytes(p: ServerPolicy, icons: bool, lists: nat): bytes { FrontBytes(p, icons) + TailBytes(p, lists) }

  // ----- what can be carried -----

  predicate IsShortcode(name: bytes) {
    1 <= |name| <= 32 &&
    forall i :: 0 <= i < |name| ==>
      var c := name[i] as char; 'a' <= c <= 'z' || '0' <= c <= '9' || c == '_'
  }

  predicate RoleIsFine(r: Role, emojis: Named) {
    && IsU16(r.id) && IsText(r.name) && IsU32(r.allow) && IsU32(r.deny) && IsU16(r.rank)
    && (r.icon.Some? ==> IsShortcode(r.icon.value) && exists e :: e in emojis && e.0 == r.icon.value)
  }

  predicate AssignmentIsFine(a: (bytes, seq<nat>)) {
    IsId(a.0) && IsU32(|a.1|) && forall n :: n in a.1 ==> IsU16(n)
  }

  predicate NamesAreFine(xs: Named) {
    IsU32(|xs|) && forall e :: e in xs ==> IsShortcode(e.0) && IsId(e.1)
  }

  predicate NicknamesAreFine(xs: Named) {
    IsU32(|xs|) && forall e :: e in xs ==> IsId(e.0) && IsText(e.1) && ValidNickname(e.1)
  }

  predicate PolicyFields(p: ServerPolicy) {
    && IsId(p.serverRoot) && IsId(p.ownerId) && IsU64(p.version) && IsU64(p.issuedMs) && |p.sig| == 64
    && |p.roles| < 0x8000_0000 && (forall r :: r in p.roles ==> RoleIsFine(r, p.emojis))
    && IsU32(|p.assignments|) && (forall a :: a in p.assignments ==> AssignmentIsFine(a))
    && ListsAreFine(p)
  }

  predicate NeedsIcons(p: ServerPolicy) { exists r :: r in p.roles && r.icon.Some? }

  /** Lists up to the last one with entries. */
  function NeededLists(p: ServerPolicy): nat {
    if p.nicknames != [] then 4 else if p.sounds != [] then 3 else if p.stickers != [] then 2
    else if p.emojis != [] then 1 else 0
  }

  /** A body can carry the policy with this flag and this many lists. */
  predicate Carries(p: ServerPolicy, icons: bool, lists: nat) {
    && (NeedsIcons(p) ==> icons)
    && lists <= 4 && (p.emojis != [] ==> lists >= 1) && (p.stickers != [] ==> lists >= 2)
    && (p.sounds != [] ==> lists >= 3) && (p.nicknames != [] ==> lists >= 4)
  }

  // ----- roles with the flag set or clear -----

  function FlaggedCount(count: nat, icons: bool): nat { count + if icons then ROLE_ICON_FLAG else 0 }

  /** The roles as they are read, written with a given flag. */
  function RolesAs(icons: bool): Codec<seq<Role>> {
    Codec((roles: seq<Role>) => UInt(4).enc(FlaggedCount(|roles|, icons)) + EncAll(RoleCodec(icons), roles),
          RolesCodec().dec,
          (roles: seq<Role>) => |roles| < ROLE_ICON_FLAG && AllFit(RoleCodec(icons), roles))
  }

  lemma RolesRead(roles: seq<Role>, icons: bool, rest: bytes)
    requires RolesAs(icons).fits(roles)
    ensures RolesCodec().dec(RolesAs(icons).enc(roles) + rest) == Done(roles, rest)
  {
    hide MaxCount, UInt, RoleCodec, DecAll, EncAll, RoundTrips, Extends, Canonical, AtLeast;
    var c, raw := RoleCodec(icons), FlaggedCount(|roles|, icons);
    assert CountOf(raw) == |roles| && Flagged(raw) == icons;
    UIntLaws(4);
    UIntFits(4, raw);
    assert Pow256(4) == 0x1_0000_0000;
    RoleLaws(icons);
    var body := EncAll(c, roles) + rest;
    RoundTrip(UInt(4), raw, body);
    assert RolesAs(icons).enc(roles) + rest == UInt(4).enc(raw) + body;
    EncAllSize(c, MIN_ROLE_BYTES, roles);
    CountGuardPasses(|roles|, MIN_ROLE_BYTES, |body|);
    DecAllOfEncAll(c, roles, rest);
  }

  lemma RolesWereWritten(b: bytes) returns (icons: bool)
    requires RolesCodec().dec(b).Done?
    ensures var q := RolesCodec().dec(b); RolesAs(icons).fits(q.value) && b == RolesAs(icons).enc(q.value) + q.rest
  {
    hide MaxCount, UInt, RoleCodec, DecAll, EncAll, RoundTrips, Extends, Canonical, AtLeast;
    UIntLaws(4);
    Reencode(UInt(4), b);
    var p := UInt(4).dec(b);
    UIntFits(4, p.value);
    assert Pow256(4) == 0x1_0000_0000;
    icons := Flagged(p.value);
    RoleLaws(icons);
    EncAllOfDecAll(RoleCodec(icons), CountOf(p.value), p.rest);
    var q := RolesCodec().dec(b);
    assert FlaggedCount(|q.value|, icons) == p.value;
    assert b == UInt(4).enc(p.value) + (EncAll(RoleCodec(icons), q.value) + q.rest);
  }

  // ----- lists written or left out -----

  lemma {:induction false} TailsRead(cs: seq<Codec<Named>>, xs: seq<Named>, k: nat)
    requires k <= |cs| == |xs| && GoodTails(cs) && TailsFit(cs, xs) && AllEmpty(xs[k..])
    ensures DecTails(cs, EncFirst(cs, xs, k)) == Done(xs, [])
  {
    if k == 0 {
      NoTails(cs);
      assert DecTails(cs, []).value == xs;
    } else {
      hide Lawful, Canonical;
      assert xs[1..][k - 1..] == xs[k..];
      TailsRead(cs[1..], xs[1..], k - 1);
      TailIsThere(cs[0], xs[0], EncFirst(cs[1..], xs[1..], k - 1));
      assert [xs[0]] + xs[1..] == xs;
    }
  }

  lemma {:induction false} TailsWereWritten(cs: seq<Codec<Named>>, b: bytes) returns (k: nat)
    requires GoodTails(cs) && DecTails(cs, b).Done? && DecTails(cs, b).rest == []
    ensures var xs := DecTails(cs, b).value;
      k <= |cs| == |xs| && TailsFit(cs, xs) && AllEmpty(xs[k..]) && b == EncFirst(cs, xs, k)
  {
    if b == [] {
      NoTails(cs);
      k := 0;
    } else {
      hide Lawful, Canonical;
      Reencode(cs[0], b);
      var p := cs[0].dec(b);
      var j := TailsWereWritten(cs[1..], p.rest);
      var xs, later := DecTails(cs, b).value, DecTails(cs[1..], p.rest).value;
      k := j + 1;
      assert xs[1..] == later && xs[k..] == later[j..];
    }
  }

  // ----- the body -----

  function FrontAs(icons: bool): Codec<Front> { Pair(HeadCodec(), Pair(RolesAs(icons), Assignments())) }

  function TailsAs(p: ServerPolicy, k: nat): bytes
    requires k <= 4
  {
    EncFirst(TailCodecs(), TailsOf(p), k)
  }

  predicate TailsCover(p: ServerPolicy, k: nat) {
    k <= 4 && TailsFit(TailCodecs(), TailsOf(p)) && AllEmpty(TailsOf(p)[k..])
  }

  predicate FrontFits(p: ServerPolicy, icons: bool) {
    FrontAs(icons).fits(FrontOf(p)) && IconsAreKnown(p.roles, p.emojis)
  }

  /** The body as it is written with a given flag and a given number of lists. */
  ghost predicate WrittenAs(b: bytes, p: ServerPolicy, icons: bool, k: nat) {
    k <= 4 && FrontFits(p, icons) && TailsCover(p, k) && b == FrontAs(icons).enc(FrontOf(p)) + TailsAs(p, k)
  }

  lemma FrontReads(front: Front, icons: bool, rest: bytes)
    requires FrontAs(icons).fits(front)
    ensures FrontCodec().dec(FrontAs(icons).enc(front) + rest) == Done(front, rest)
  {
    hide RoundTrips, Extends, Canonical, AtLeast, HeadCodec, RolesCodec, RolesAs, Assignments;
    HeadLaws();
    AssignmentLaws();
    var more := Assignments().enc(front.1.1) + rest;
    RoundTrip(HeadCodec(), front.0, RolesAs(icons).enc(front.1.0) + more);
    RolesRead(front.1.0, icons, more);
    RoundTrip(Assignments(), front.1.1, rest);
    assert FrontAs(icons).enc(front) + rest == HeadCodec().enc(front.0) + (RolesAs(icons).enc(front.1.0) + more);
  }

  lemma FrontWasWritten(b: bytes) returns (icons: bool)
    requires FrontCodec().dec(b).Done?
    ensures var q := FrontCodec().dec(b); FrontAs(icons).fits(q.value) && b == FrontAs(icons).enc(q.value) + q.rest
  {
    hide RoundTrips, Extends, Canonical, AtLeast, HeadCodec, RolesCodec, RolesAs, Assignments;
    HeadLaws();
    AssignmentLaws();
    Reencode(HeadCodec(), b);
    var r1 := HeadCodec().dec(b);
    icons := RolesWereWritten(r1.rest);
    var r2 := RolesCodec().dec(r1.rest);
    Reencode(Assignments(), r2.rest);
    var r3 := Assignments().dec(r2.rest);
    assert b == HeadCodec().enc(r1.value) +
      (RolesAs(icons).enc(r2.value) + (Assignments().enc(r3.value) + r3.rest));
  }

  lemma HeadLaws()
    ensures Lawful(HeadCodec()) && Canonical(HeadCodec())
  {
    hide RoundTrips, Extends, Canonical, AtLeast, Pair, UInt, Id;
    IdLaws();
    UIntLaws(8);
    PairLaws(UInt(8), UInt(8));
    PairLaws(Id(), Pair(UInt(8), UInt(8)));
    PairLaws(Id(), Pair(Id(), Pair(UInt(8), UInt(8))));
  }

  lemma BodyReads(b: bytes, p: ServerPolicy, icons: bool, k: nat)
    requires WrittenAs(b, p, icons, k)
    ensures Finish(DecBody(b, p.sig)) == Ok(p)
  {
    hide RoundTrips, Extends, Canonical, AtLeast, FrontCodec, FrontAs, NamedCodec, LaterTails, EncFirst, DecTails,
      TailsFit, IconsAreKnown, TailCodecs, DecTail;
    var tails := EncFirst(TailCodecs(), TailsOf(p), k);
    FrontReads(FrontOf(p), icons, tails);
    TailCodecsAreGood();
    TailsRead(TailCodecs(), TailsOf(p), k);
    TailsAreOneList(tails);
    var emojis := DecTail(NamedCodec("emoji shortcode"), tails);
    var later := DecTails(LaterTails(), emojis.rest);
    assert [emojis.value] + later.value == TailsOf(p);
    assert Assemble(FrontOf(p), TailsOf(p), p.sig) == p;
  }

  lemma BodyWasWritten(b: bytes, sig: bytes) returns (icons: bool, k: nat)
    requires Finish(DecBody(b, sig)).Ok?
    ensures WrittenAs(b, DecBody(b, sig).value, icons, k) && DecBody(b, sig).value.sig == sig
  {
    hide RoundTrips, Extends, Canonical, AtLeast, FrontCodec, FrontAs, NamedCodec, LaterTails, EncFirst, DecTails,
      TailsFit, IconsAreKnown, TailCodecs, DecTail;
    var p, r1 := DecBody(b, sig).value, FrontCodec().dec(b).rest;
    icons := FrontWasWritten(b);
    TailCodecsAreGood();
    TailsAreOneList(r1);
    k := TailsWereWritten(TailCodecs(), r1);
    assert FrontOf(p) == FrontCodec().dec(b).value;
    assert TailsOf(p) == DecTails(TailCodecs(), r1).value;
  }

  // ----- the codecs write these bytes -----

  lemma ShortcodesAreText(name: bytes)
    ensures ValidEmojiName(name) <==> IsShortcode(name)
    ensures IsShortcode(name) ==> IsText(name)
  {
    hide Utf8;
    if IsShortcode(name) {
      LowBytesAreText(name);
    }
  }

  lemma {:induction false} LowBytesAreText(b: bytes)
    requires forall i :: 0 <= i < |b| ==> b[i] <= 0x7F
    ensures Utf8(b)
  {
    if b != [] {
      LowBytesAreText(b[1..]);
    }
  }

  predicate RoleFieldsFit(r: Role) {
    IsU16(r.id) && IsText(r.name) && IsU32(r.allow) && IsU32(r.deny) && IsU16(r.rank)
  }

  predicate IconFits(icon: Option<bytes>, icons: bool) {
    if icons then (icon.Some? ==> IsText(icon.value)) else icon.None?
  }

  lemma RoleLayout(r: Role, icons: bool)
    ensures RoleCodec(icons).enc(r) == RoleEntry(r, icons)
    ensures RoleCodec(icons).fits(r) <==> RoleFieldsFit(r) && IconFits(r.icon, icons)
  {
    hide UInt, Str, RoleCodec, IconCodec, IsText, IsU16, IsU32, U16, U32, Sized, PerhapsSized;
    RoleParts(icons, r);
    UIntIsFlat(r.id);
    StrIsFlat(r.name);
    UIntIsFlat(r.allow);
    UIntIsFlat(r.deny);
    UIntIsFlat(r.rank);
    IconLayout(r.icon, icons);
  }

  lemma IconLayout(icon: Option<bytes>, icons: bool)
    ensures IconCodec(icons).enc(icon) == if icons then PerhapsSized(icon) else []
    ensures IconCodec(icons).fits(icon) <==> IconFits(icon, icons)
  {
    hide Str, Maybe, IsText, PerhapsSized;
    MaybeStrIsFlat(icon);
  }

  lemma RolesLayout(roles: seq<Role>, icons: bool)
    ensures |roles| < ROLE_ICON_FLAG ==>
      RolesAs(icons).enc(roles) ==
      U32(|roles| + if icons then 0x8000_0000 else 0) + Each(roles, RoleWriter(icons))
    ensures RolesAs(icons).fits(roles) <==>
      |roles| < 0x8000_0000 && forall r :: r in roles ==> RoleFieldsFit(r) && IconFits(r.icon, icons)
  {
    hide UInt, RoleCodec, EncAll, Each, U32, RoleEntry, RoleFieldsFit, IconFits;
    UIntIsFlat(FlaggedCount(|roles|, icons));
    forall r | r in roles
      ensures RoleCodec(icons).enc(r) == RoleWriter(icons)(r)
      ensures RoleCodec(icons).fits(r) <==> RoleFieldsFit(r) && IconFits(r.icon, icons)
    {
      RoleLayout(r, icons);
    }
    EachIsFlat(RoleCodec(icons), roles, RoleWriter(icons));
    assert forall i :: 0 <= i < |roles| ==> roles[i] in roles;
  }

  lemma AssignmentLayout(a: (bytes, seq<nat>))
    ensures AssignmentCodec().enc(a) == AssignmentEntry(a) && (AssignmentCodec().fits(a) <==> AssignmentIsFine(a))
  {
    hide UInt, Fixed, List, Pair, Counted, IsU16, IsU32;
    FixedIsFlat(32, a.0);
    forall n | n in a.1 ensures UInt(2).enc(n) == U16(n) && (UInt(2).fits(n) <==> IsU16(n)) {
      UIntIsFlat(n);
    }
    ListIsFlat(UInt(2), 2, a.1, U16);
    PairIsFlat(Id(), List(UInt(2), 2), a.0, a.1);
  }

  lemma AssignmentsLayout(xs: seq<(bytes, seq<nat>)>)
    ensures Assignments().enc(xs) == Counted(xs, AssignmentEntry)
    ensures Assignments().fits(xs) <==> IsU32(|xs|) && forall a :: a in xs ==> AssignmentIsFine(a)
  {
    hide AssignmentCodec, List, Counted, AssignmentEntry, AssignmentIsFine, IsU32;
    forall a | a in xs
      ensures AssignmentCodec().enc(a) == AssignmentEntry(a) && (AssignmentCodec().fits(a) <==> AssignmentIsFine(a))
    {
      AssignmentLayout(a);
    }
    ListIsFlat(AssignmentCodec(), MIN_ASSIGNMENT_BYTES, xs, AssignmentEntry);
  }

  lemma WhereIsFlat<T>(c: Codec<T>, good: T -> bool, error: WireError, v: T)
    ensures Where(c, good, error).enc(v) == c.enc(v) && (Where(c, good, error).fits(v) <==> c.fits(v) && good(v))
  {
  }

  lemma NamedEntryLayout(what: string, e: (bytes, bytes))
    ensures var c := Pair(EmojiName(what), Id());
      c.enc(e) == NamedEntry(e) && (c.fits(e) <==> IsShortcode(e.0) && IsId(e.1))
  {
    hide Str, Fixed, Pair, Where, IsText, ValidEmojiName, IsShortcode, Sized;
    StrIsFlat(e.0);
    WhereIsFlat(Str(), ValidEmojiName, Invalid(what), e.0);
    ShortcodesAreText(e.0);
    FixedIsFlat(32, e.1);
    PairIsFlat(EmojiName(what), Id(), e.0, e.1);
  }

  lemma NamedLayout(what: string, xs: Named)
    ensures NamedCodec(what).enc(xs) == Counted(xs, NamedEntry) && (NamedCodec(what).fits(xs) <==> NamesAreFine(xs))
  {
    hide List, Pair, EmojiName, Counted, NamedEntry, IsShortcode, IsId, IsU32;
    var c := Pair(EmojiName(what), Id());
    forall e | e in xs ensures c.enc(e) == NamedEntry(e) && (c.fits(e) <==> IsShortcode(e.0) && IsId(e.1)) {
      NamedEntryLayout(what, e);
    }
    ListIsFlat(c, MIN_NAMED_ENTRY_BYTES, xs, NamedEntry);
  }

  lemma NicknameEntryLayout(e: (bytes, bytes))
    ensures var c := Pair(Id(), Nickname());
      c.enc(e) == NicknameEntry(e) && (c.fits(e) <==> IsId(e.0) && IsText(e.1) && ValidNickname(e.1))
  {
    hide Str, Fixed, Pair, Where, IsText, ValidNickname, Sized;
    StrIsFlat(e.1);
    WhereIsFlat(Str(), ValidNickname, Invalid("nickname"), e.1);
    FixedIsFlat(32, e.0);
    PairIsFlat(Id(), Nickname(), e.0, e.1);
  }

  lemma NicknamesLayout(xs: Named)
    ensures NicknameCodec().enc(xs) == Counted(xs, NicknameEntry)
    ensures NicknameCodec().fits(xs) <==> NicknamesAreFine(xs)
  {
    hide List, Pair, Nickname, Counted, NicknameEntry, IsText, IsId, IsU32, ValidNickname;
    var c := Pair(Id(), Nickname());
    forall e | e in xs
      ensures c.enc(e) == NicknameEntry(e) && (c.fits(e) <==> IsId(e.0) && IsText(e.1) && ValidNickname(e.1))
    {
      NicknameEntryLayout(e);
    }
    ListIsFlat(c, MIN_NAMED_ENTRY_BYTES, xs, NicknameEntry);
  }

  lemma HeadLayout(p: ServerPolicy)
    ensures HeadCodec().enc(FrontOf(p).0) == p.serverRoot + (p.ownerId + (U64(p.version) + U64(p.issuedMs)))
    ensures HeadCodec().fits(FrontOf(p).0) <==>
      IsId(p.serverRoot) && IsId(p.ownerId) && IsU64(p.version) && IsU64(p.issuedMs)
  {
    hide UInt, Fixed, Pair, U64, IsU64;
    FixedIsFlat(32, p.serverRoot);
    FixedIsFlat(32, p.ownerId);
    UIntIsFlat(p.version);
    UIntIsFlat(p.issuedMs);
    PairIsFlat(UInt(8), UInt(8), p.version, p.issuedMs);
    PairIsFlat(Id(), Pair(UInt(8), UInt(8)), p.ownerId, (p.version, p.issuedMs));
    PairIsFlat(Id(), Pair(Id(), Pair(UInt(8), UInt(8))), p.serverRoot, (p.ownerId, (p.version, p.issuedMs)));
  }

  predicate FrontIsFine(p: ServerPolicy, icons: bool) {
    && IsId(p.serverRoot) && IsId(p.ownerId) && IsU64(p.version) && IsU64(p.issuedMs)
    && |p.roles| < 0x8000_0000 && (forall r :: r in p.roles ==> RoleFieldsFit(r) && IconFits(r.icon, icons))
    && IsU32(|p.assignments|) && (forall a :: a in p.assignments ==> AssignmentIsFine(a))
  }

  lemma FrontLayout(p: ServerPolicy, icons: bool)
    ensures |p.roles| < ROLE_ICON_FLAG ==> FrontAs(icons).enc(FrontOf(p)) == FrontBytes(p, icons)
    ensures FrontAs(icons).fits(FrontOf(p)) <==> FrontIsFine(p, icons)
  {
    hide HeadCodec, RolesAs, Assignments, Pair, U64, U32, IsU64, IsU32, IsId, RoleFieldsFit, IconFits, Each, Counted,
      RoleWriter, AssignmentIsFine;
    HeadLayout(p);
    RolesLayout(p.roles, icons);
    AssignmentsLayout(p.assignments);
    PairIsFlat(RolesAs(icons), Assignments(), p.roles, p.assignments);
    PairIsFlat(HeadCodec(), Pair(RolesAs(icons), Assignments()), FrontOf(p).0, (p.roles, p.assignments));
  }

  lemma FirstStep(cs: seq<Codec<Named>>, xs: seq<Named>, k: nat)
    requires k <= |cs| == |xs|
    ensures EncFirst(cs, xs, k) == if k == 0 then [] else cs[0].enc(xs[0]) + EncFirst(cs[1..], xs[1..], k - 1)
  {
  }

  lemma FourFirst(cs: seq<Codec<Named>>, xs: seq<Named>, k: nat)
    requires k <= |cs| == |xs| == 4
    ensures EncFirst(cs, xs, k) ==
      Written(cs[0], xs[0], k >= 1) + (Written(cs[1], xs[1], k >= 2) +
        (Written(cs[2], xs[2], k >= 3) + Written(cs[3], xs[3], k >= 4)))
  {
    hide EncFirst;
    assert cs[1..][1..] == cs[2..] && cs[2..][1..] == cs[3..] && cs[3..][1..] == cs[4..];
    assert xs[1..][1..] == xs[2..] && xs[2..][1..] == xs[3..] && xs[3..][1..] == xs[4..];
    FirstStep(cs, xs, k);
    if k >= 1 {
      FirstStep(cs[1..], xs[1..], k - 1);
    }
    if k >= 2 {
      FirstStep(cs[2..], xs[2..], k - 2);
    }
    if k >= 3 {
      FirstStep(cs[3..], xs[3..], k - 3);
    }
    if k >= 4 {
      FirstStep(cs[4..], xs[4..], k - 4);
    }
    var t2, t3, t4 := Written(cs[1], xs[1], k >= 2), Written(cs[2], xs[2], k >= 3), Written(cs[3], xs[3], k >= 4);
    assert k >= 3 ==> EncFirst(cs[3..], xs[3..], k - 3) == t4;
    assert k >= 2 ==> EncFirst(cs[2..], xs[2..], k - 2) == t3 + t4;
    assert k >= 1 ==> EncFirst(cs[1..], xs[1..], k - 1) == t2 + (t3 + t4);
  }

  lemma TailCodecsAre()
    ensures var cs := TailCodecs();
      && cs[0] == NamedCodec("emoji shortcode") && cs[1] == NamedCodec("sticker name")
      && cs[2] == NamedCodec("sound name") && cs[3] == NicknameCodec()
  {
    hide NamedCodec, NicknameCodec;
  }

  predicate ListsAreFine(p: ServerPolicy) {
    NamesAreFine(p.emojis) && NamesAreFine(p.stickers) && NamesAreFine(p.sounds) && NicknamesAreFine(p.nicknames)
  }

  lemma TailsLayout(p: ServerPolicy, k: nat)
    requires k <= 4
    ensures TailsAs(p, k) == TailBytes(p, k)
    ensures TailsFit(TailCodecs(), TailsOf(p)) <==> ListsAreFine(p)
  {
    hide NamedCodec, NicknameCodec, EncFirst, Counted, NamesAreFine, NicknamesAreFine, TailCodecs;
    NamedLayout("emoji shortcode", p.emojis);
    NamedLayout("sticker name", p.stickers);
    NamedLayout("sound name", p.sounds);
    NicknamesLayout(p.nicknames);
    TailCodecsAre();
    FourFirst(TailCodecs(), TailsOf(p), k);
  }

  // ----- exactly what is read -----

  lemma IconsAgree(p: ServerPolicy, icons: bool)
    ensures
      && (forall r :: r in p.roles ==> RoleFieldsFit(r) && IconFits(r.icon, icons))
      && IconsAreKnown(p.roles, p.emojis)
      <==> (forall r :: r in p.roles ==> RoleIsFine(r, p.emojis)) && (NeedsIcons(p) ==> icons)
  {
    hide IsText, IsU16, IsU32, ValidEmojiName, IsShortcode, HasName;
    forall r | r in p.roles && r.icon.Some?
      ensures ValidEmojiName(r.icon.value) <==> IsShortcode(r.icon.value)
      ensures IsShortcode(r.icon.value) ==> IsText(r.icon.value)
      ensures HasName(p.emojis, r.icon.value) <==> exists e :: e in p.emojis && e.0 == r.icon.value
    {
      ShortcodesAreText(r.icon.value);
      NamesAreListed(p.emojis, r.icon.value);
    }
    assert forall i :: 0 <= i < |p.roles| ==> p.roles[i] in p.roles;
  }

  lemma NamesAreListed(xs: Named, name: bytes)
    ensures HasName(xs, name) <==> exists e :: e in xs && e.0 == name
  {
    assert forall i :: 0 <= i < |xs| ==> xs[i] in xs;
  }

  lemma EmptyFrom(p: ServerPolicy, k: nat)
    requires k <= 4
    ensures AllEmpty(TailsOf(p)[k..]) <==>
      && (p.emojis != [] ==> k >= 1) && (p.stickers != [] ==> k >= 2) && (p.sounds != [] ==> k >= 3)
      && (p.nicknames != [] ==> k >= 4)
  {
    var xs := TailsOf(p);
    assert xs[0] == p.emojis && xs[1] == p.stickers && xs[2] == p.sounds && xs[3] == p.nicknames;
    if AllEmpty(xs[k..]) {
      assert forall i :: k <= i < 4 ==> xs[k..][i - k] == xs[i];
    }
  }

  lemma BodyLayout(b: bytes, p: ServerPolicy, icons: bool, k: nat)
    requires |p.sig| == 64
    ensures WrittenAs(b, p, icons, k) <==> PolicyFields(p) && Carries(p, icons, k) && b == BodyBytes(p, icons, k)
  {
    hide FrontAs, EncFirst, TailsFit, TailCodecs, IconsAreKnown, AllEmpty, FrontBytes, TailBytes, RoleFieldsFit,
      IconFits, NamesAreFine, NicknamesAreFine, AssignmentIsFine, RoleIsFine, NeedsIcons;
    if k <= 4 {
      FrontLayout(p, icons);
      TailsLayout(p, k);
      IconsAgree(p, icons);
      EmptyFrom(p, k);
    }
  }

  /** The policy, framed and signed, with this flag and this many lists. */
  ghost predicate Spells(b: bytes, p: ServerPolicy, icons: bool, lists: nat) {
    Carries(p, icons, lists) && IsBlob(BodyBytes(p, icons, lists)) && b == Sized(BodyBytes(p, icons, lists)) + p.sig
  }

  /**
   Bytes are read as a policy exactly if its fields are in order and they spell it, with the
   flag set or, if no role has an icon, clear, and with any of the empty last lists left out.
   */
  lemma PoliciesByteForByte(b: bytes, p: ServerPolicy)
    ensures Decode(b) == Ok(p) <==> PolicyFields(p) && exists icons, lists :: Spells(b, p, icons, lists)
  {
    hide RoundTrips, Extends, Canonical, AtLeast, DecBody, Bytes, Fixed, Pair, BodyBytes, PolicyFields, Carries, Sized,
      WrittenAs;
    var outer := Pair(Bytes(), Fixed(64));
    OuterLaws();
    if Decode(b) == Ok(p) {
      Reencode(outer, b);
      var v := outer.dec(b).value;
      OuterLayout(v.0, v.1);
      var icons, k := BodyWasWritten(v.0, v.1);
      BodyLayout(v.0, p, icons, k);
      assert outer.enc(v) + [] == outer.enc(v);
      assert Spells(b, p, icons, k);
    }
    if PolicyFields(p) && exists icons, lists :: Spells(b, p, icons, lists) {
      var icons, k :| Spells(b, p, icons, k);
      var body := BodyBytes(p, icons, k);
      assert |p.sig| == 64 by { SigLength(p); }
      OuterLayout(body, p.sig);
      RoundTrip(outer, (body, p.sig), []);
      BodyLayout(body, p, icons, k);
      BodyReads(body, p, icons, k);
    }
  }

  lemma OuterLaws()
    ensures Lawful(Pair(Bytes(), Fixed(64))) && Canonical(Pair(Bytes(), Fixed(64)))
  {
    hide RoundTrips, Extends, Canonical, AtLeast, Bytes, Fixed, Pair;
    BytesLaws();
    FixedLaws(64);
    PairLaws(Bytes(), Fixed(64));
  }

  lemma OuterLayout(body: bytes, sig: bytes)
    ensures Pair(Bytes(), Fixed(64)).enc((body, sig)) == Sized(body) + sig
    ensures Pair(Bytes(), Fixed(64)).fits((body, sig)) <==> IsBlob(body) && |sig| == 64
  {
    hide Bytes, Fixed, Pair;
    BytesIsFlat(body);
    FixedIsFlat(64, sig);
    PairIsFlat(Bytes(), Fixed(64), body, sig);
  }

  lemma SigLength(p: ServerPolicy)
    requires PolicyFields(p)
    ensures |p.sig| == 64
  {
    hide RoleIsFine, AssignmentIsFine, NamesAreFine, NicknamesAreFine;
  }

  // ----- what is written -----

  lemma RolesAreWrittenAs(roles: seq<Role>)
    requires |roles| < ROLE_ICON_FLAG
    ensures RolesCodec().enc(roles) == RolesAs(WithIcons(roles)).enc(roles)
  {
    hide UInt, EncAll, RoleCodec;
    assert Pow256(4) == 0x1_0000_0000;
    assert RawCount(roles) == FlaggedCount(|roles|, WithIcons(roles));
  }

  lemma IconsAreNeeded(p: ServerPolicy)
    ensures WithIcons(p.roles) <==> NeedsIcons(p)
  {
    assert forall i :: 0 <= i < |p.roles| ==> p.roles[i] in p.roles;
  }

  /** The writer sets the flag only if a role has an icon, and stops after the last list with entries. */
  lemma ShortestIsWritten(p: ServerPolicy)
    requires |p.roles| < 0x8000_0000
    ensures Encode(p) == Sized(BodyBytes(p, NeedsIcons(p), NeededLists(p))) + p.sig
  {
    hide FrontBytes, TailBytes, EncTails, EncFirst, TailCodecs, AllEmpty, HeadCodec, RolesCodec, RolesAs, Assignments,
      WithIcons, NeedsIcons, Bytes, Sized;
    var icons, k := NeedsIcons(p), NeededLists(p);
    IconsAreNeeded(p);
    RolesAreWrittenAs(p.roles);
    FrontLayout(p, icons);
    EmptyFrom(p, k);
    TailsStopAt(TailCodecs(), TailsOf(p), k);
    TailsLayout(p, k);
    BytesIsFlat(Body(p));
  }
}
